/** Symbols, productions and grammars as the analyser sees them: every
    symbol is a plain string, a production is a list of symbols, and a
    grammar maps each declared nonterminal to its list of productions. */
module Symbols {

  type Symbol = string
  type Production = seq<Symbol>

  /** The literal token that stands for the empty string. */
  const Epsilon: Symbol := "e"
  /** The end-of-input marker that seeds the start symbol's FOLLOW set. */
  const EndMarker: Symbol := "$"

  datatype Option<T> = None | Some(value: T)

  /** A FIRST or FOLLOW table: a `defaultdict(set)`, so a missing key reads as the empty set. */
  type SetMap = map<Symbol, set<Symbol>>

  function Get(m: SetMap, k: Symbol): (r: set<Symbol>)
    ensures k !in m ==> r == {}
  {
    if k in m then m[k] else {}
  }

  /** `m[k] |= extra` on a `defaultdict(set)`. */
  function Add(m: SetMap, k: Symbol, extra: set<Symbol>): (r: SetMap)
    ensures r.Keys == m.Keys + {k}
    ensures r[k] == Get(m, k) + extra
    ensures forall j :: j in m && j != k ==> r[j] == m[j]
  {
    m[k := Get(m, k) + extra]
  }

  /** Every set of `m` is kept, possibly larger, in `m'`. */
  ghost predicate Grows(m: SetMap, m': SetMap)
  {
    forall k :: k in m ==> k in m' && m[k] <= m'[k]
  }

  lemma GrowsGet(m: SetMap, m': SetMap, k: Symbol)
    requires Grows(m, m')
    ensures Get(m, k) <= Get(m', k)
  {
  }

  lemma GrowsTransitive(m: SetMap, m': SetMap, m'': SetMap)
    requires Grows(m, m') && Grows(m', m'')
    ensures Grows(m, m'')
  {
  }

  // ASCII model of Python's character classes.
  predicate IsUpperChar(c: char) { 'A' <= c <= 'Z' }
  predicate IsLowerChar(c: char) { 'a' <= c <= 'z' }

  /** Python's `str.islower()`: at least one cased character, and no
      upper-case one. */
  predicate IsLower(s: string)
  {
    (exists i :: 0 <= i < |s| && IsLowerChar(s[i])) &&
    (forall i :: 0 <= i < |s| ==> !IsUpperChar(s[i]))
  }

  lemma IsLowerNonEmpty(s: string)
    requires IsLower(s)
    ensures |s| > 0
  {
  }

  /** A grammar: `nonTerminals` in first-declaration order (its head is the
      start symbol), `rules` the productions of each nonterminal in order. */
  datatype Grammar = Grammar(nonTerminals: seq<Symbol>, rules: map<Symbol, seq<Production>>)

  function Productions(g: Grammar, a: Symbol): (ps: seq<Production>)
    ensures a !in g.rules ==> ps == []
  {
    if a in g.rules then g.rules[a] else []
  }

  predicate NoDuplicates(s: seq<Symbol>)
  {
    forall i, j :: 0 <= i < j < |s| ==> s[i] != s[j]
  }

  /** What the grammar reader guarantees: each nonterminal declared once,
      the rule keys are exactly the declared nonterminals, and no production
      is empty (each comes from a non-empty, space-free word). */
  ghost predicate Valid(g: Grammar)
  {
    && NoDuplicates(g.nonTerminals)
    && (forall a :: a in g.rules <==> a in g.nonTerminals)
    && (forall a, p :: a in g.rules && p in g.rules[a] ==> |p| > 0)
  }

  /** `" ".join(p)`. */
  function JoinSpaces(p: Production): string
  {
    if |p| == 0 then ""
    else if |p| == 1 then p[0]
    else p[0] + " " + JoinSpaces(p[1..])
  }
}
