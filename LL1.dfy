/** `is_ll1`: for each nonterminal, the lookahead set of every production
    must be disjoint from those of the productions before it. */
module LL1Check {
  import opened Symbols
  import opened StringFirst

  /** The lookahead set of lines 96-104 for a production `p` of `a`: the
      table's FIRST sets of the symbols up to and including the first one
      whose set lacks epsilon (epsilon is kept), or all of them and FOLLOW(a)
      when every set holds epsilon. Every symbol, terminal or not, is read
      from the FIRST table. */
  function Lookahead(first: SetMap, follow: SetMap, a: Symbol, p: Production): set<Symbol>
  {
    if p == [] then Get(follow, a)
    else Get(first, p[0]) + (if Epsilon in Get(first, p[0]) then Lookahead(first, follow, a, p[1..]) else {})
  }

  /** The first `k` symbols all have epsilon in their FIRST set. */
  ghost predicate EpsilonRun(first: SetMap, p: Production, k: nat)
    requires k <= |p|
  {
    forall i :: 0 <= i < k ==> Epsilon in Get(first, p[i])
  }

  /** `y` is in the lookahead set exactly when the FIRST set of a symbol the
      walk reaches holds it, or every symbol is passed and FOLLOW(a) holds it. */
  lemma {:induction false} LookaheadMembers(first: SetMap, follow: SetMap, a: Symbol, p: Production, y: Symbol)
    ensures y in Lookahead(first, follow, a, p) <==>
      (EpsilonRun(first, p, |p|) && y in Get(follow, a)) ||
      (exists k :: 0 <= k < |p| && EpsilonRun(first, p, k) && y in Get(first, p[k]))
  {
    if p != [] {
      var t := p[1..];
      LookaheadMembers(first, follow, a, t, y);
      if Epsilon in Get(first, p[0]) {
        forall k | 0 <= k <= |t|
          ensures EpsilonRun(first, p, k + 1) == EpsilonRun(first, t, k)
        {
          if EpsilonRun(first, t, k) {
            forall i | 0 <= i < k + 1 ensures Epsilon in Get(first, p[i]) {
              if i > 0 { assert p[i] == t[i - 1]; }
            }
          }
          if EpsilonRun(first, p, k + 1) {
            forall i | 0 <= i < k ensures Epsilon in Get(first, t[i]) {
              assert t[i] == p[i + 1];
            }
          }
        }
        if y in Lookahead(first, follow, a, p) {
          if y in Get(first, p[0]) {
            assert EpsilonRun(first, p, 0);
          } else if EpsilonRun(first, t, |t|) && y in Get(follow, a) {
            assert EpsilonRun(first, p, |t| + 1);
          } else {
            var k :| 0 <= k < |t| && EpsilonRun(first, t, k) && y in Get(first, t[k]);
            assert EpsilonRun(first, p, k + 1) && p[k + 1] == t[k];
          }
        } else {
          assert EpsilonRun(first, p, |t| + 1) == EpsilonRun(first, t, |t|);
          forall k | 0 <= k < |p| && EpsilonRun(first, p, k) ensures y !in Get(first, p[k]) {
            if k > 0 {
              assert EpsilonRun(first, t, k - 1) && p[k] == t[k - 1];
            }
          }
        }
      } else {
        forall k | 0 < k <= |p| ensures !EpsilonRun(first, p, k) {
          assert 0 < k;
        }
        if y in Lookahead(first, follow, a, p) {
          assert EpsilonRun(first, p, 0);
        }
      }
    }
  }

  /** The answer `is_ll1` gives: no two productions of one nonterminal
      have intersecting lookahead sets. */
  ghost predicate LL1(g: Grammar, first: SetMap, follow: SetMap)
  {
    forall a, i, j :: a in g.nonTerminals && 0 <= i < j < |Productions(g, a)| ==>
      Lookahead(first, follow, a, Productions(g, a)[i]) * Lookahead(first, follow, a, Productions(g, a)[j]) == {}
  }

  /** Lines 97-104: the lookahead set of one production, with its `for ... else`. */
  method ProductionLookahead(first: SetMap, follow: SetMap, a: Symbol, p: Production) returns (la: set<Symbol>)
    ensures la == Lookahead(first, follow, a, p)
  {
    la := {};
    var i := 0;
    var exhausted := true;
    while i < |p|
      invariant 0 <= i <= |p|
      invariant la + Lookahead(first, follow, a, p[i..]) == Lookahead(first, follow, a, p)
      invariant exhausted
    {
      assert p[i..][0] == p[i] && p[i..][1..] == p[i + 1..];
      la := la + Get(first, p[i]);
      if Epsilon !in Get(first, p[i]) {
        exhausted := false;
        break;
      }
      i := i + 1;
    }
    if exhausted {
      la := la + Get(follow, a);
    }
  }

  /** `is_ll1` (lines 89-111): `false` exactly when some nonterminal has two
      productions whose lookahead sets intersect. */
  method IsLL1(g: Grammar, first: SetMap, follow: SetMap) returns (ok: bool)
    ensures ok <==> LL1(g, first, follow)
  {
    var n := 0;
    while n < |g.nonTerminals|
      invariant 0 <= n <= |g.nonTerminals|
      invariant forall a, i, j :: a in g.nonTerminals[..n] && 0 <= i < j < |Productions(g, a)| ==>
        Lookahead(first, follow, a, Productions(g, a)[i]) * Lookahead(first, follow, a, Productions(g, a)[j]) == {}
    {
      var a := g.nonTerminals[n];
      var clash := RowClash(first, follow, a, Productions(g, a));
      if clash {
        return false;
      }
      assert g.nonTerminals[..n + 1] == g.nonTerminals[..n] + [a];
      n := n + 1;
    }
    assert g.nonTerminals[..n] == g.nonTerminals;
    return true;
  }

  /** The loop of lines 94-108 for one nonterminal `a`: the lookahead set
      of each production is compared with the sets gathered so far in
      `first_sets`. */
  method RowClash(first: SetMap, follow: SetMap, a: Symbol, ps: seq<Production>) returns (clash: bool)
    ensures !clash <==> forall i, j :: 0 <= i < j < |ps| ==>
      Lookahead(first, follow, a, ps[i]) * Lookahead(first, follow, a, ps[j]) == {}
  {
    var firstSets: seq<set<Symbol>> := [];
    var j := 0;
    while j < |ps|
      invariant 0 <= j <= |ps| && |firstSets| == j
      invariant forall k :: 0 <= k < j ==> firstSets[k] == Lookahead(first, follow, a, ps[k])
      invariant forall i, k :: 0 <= i < k < j ==>
        Lookahead(first, follow, a, ps[i]) * Lookahead(first, follow, a, ps[k]) == {}
    {
      var la := ProductionLookahead(first, follow, a, ps[j]);
      var k := 0;
      while k < |firstSets|
        invariant 0 <= k <= |firstSets|
        invariant forall i :: 0 <= i < k ==> Lookahead(first, follow, a, ps[i]) * la == {}
      {
        if la * firstSets[k] != {} {
          return true;
        }
        k := k + 1;
      }
      firstSets := firstSets + [la];
      j := j + 1;
    }
    return false;
  }

  // -------------------------------------------------------------------
  // The corrected check. `is_ll1` reads `first[symbol]` for every symbol,
  // but the FIRST table holds nonterminals only, so a production that
  // begins with a terminal gets an empty lookahead set. The check meant
  // here compares the cells each production writes in the parsing table.

  /** The terminals whose cell in row `a` production `p` writes in
      `construct_parsing_table` (lines 136-143): FIRST(p) without epsilon,
      and FOLLOW(a) too when epsilon is in FIRST(p). */
  function Claims(first: SetMap, follow: SetMap, a: Symbol, p: Production): set<Symbol>
  {
    var f := FirstOfString(p, first);
    (f - {Epsilon}) + (if Epsilon in f then Get(follow, a) else {})
  }

  /** LL(1) as meant: no two productions of one nonterminal claim a common cell. */
  ghost predicate CorrectedLL1(g: Grammar, first: SetMap, follow: SetMap)
  {
    forall a, i, j :: a in g.nonTerminals && 0 <= i < j < |Productions(g, a)| ==>
      Claims(first, follow, a, Productions(g, a)[i]) * Claims(first, follow, a, Productions(g, a)[j]) == {}
  }

  /** The corrected check: `is_ll1` with each lookahead set taken from
      `compute_first_of_string`, as the parsing table does. */
  method IsLL1Corrected(g: Grammar, first: SetMap, follow: SetMap) returns (ok: bool)
    ensures ok <==> CorrectedLL1(g, first, follow)
  {
    var n := 0;
    while n < |g.nonTerminals|
      invariant 0 <= n <= |g.nonTerminals|
      invariant forall a, i, j :: a in g.nonTerminals[..n] && 0 <= i < j < |Productions(g, a)| ==>
        Claims(first, follow, a, Productions(g, a)[i]) * Claims(first, follow, a, Productions(g, a)[j]) == {}
    {
      var a := g.nonTerminals[n];
      var clash := ClaimClash(first, follow, a, Productions(g, a));
      if clash {
        return false;
      }
      assert g.nonTerminals[..n + 1] == g.nonTerminals[..n] + [a];
      n := n + 1;
    }
    assert g.nonTerminals[..n] == g.nonTerminals;
    return true;
  }

  /** One nonterminal's productions, compared by the cells they claim. */
  method ClaimClash(first: SetMap, follow: SetMap, a: Symbol, ps: seq<Production>) returns (clash: bool)
    ensures !clash <==> forall i, j :: 0 <= i < j < |ps| ==>
      Claims(first, follow, a, ps[i]) * Claims(first, follow, a, ps[j]) == {}
  {
    var claimed: seq<set<Symbol>> := [];
    var j := 0;
    while j < |ps|
      invariant 0 <= j <= |ps| && |claimed| == j
      invariant forall k :: 0 <= k < j ==> claimed[k] == Claims(first, follow, a, ps[k])
      invariant forall i, k :: 0 <= i < k < j ==>
        Claims(first, follow, a, ps[i]) * Claims(first, follow, a, ps[k]) == {}
    {
      var f := ComputeFirstOfString(ps[j], first);
      var c := (f - {Epsilon}) + (if Epsilon in f then Get(follow, a) else {});
      var k := 0;
      while k < |claimed|
        invariant 0 <= k <= |claimed|
        invariant forall i :: 0 <= i < k ==> Claims(first, follow, a, ps[i]) * c == {}
      {
        if c * claimed[k] != {} {
          return true;
        }
        k := k + 1;
      }
      claimed := claimed + [c];
      j := j + 1;
    }
    return false;
  }

  // -------------------------------------------------------------------
  // The discrepancy, on S -> a | a B, B -> b.

  /** Two productions of `S` that both begin with the terminal `a`. */
  function CommonPrefixGrammar(): Grammar
  {
    Grammar(["S", "B"], map["S" := [["a"], ["a", "B"]], "B" := [["b"]]])
  }

  /** With any FIRST table that holds nothing for the terminal `a`, as
      `compute_first` leaves it (a lower-case head never becomes a key),
      `is_ll1` as written accepts the grammar, although both productions of
      `S` claim the cell (S, a). */
  lemma IsLL1AcceptsCommonPrefix(first: SetMap, follow: SetMap)
    requires Get(first, "a") == {}
    ensures LL1(CommonPrefixGrammar(), first, follow)
    ensures "a" in Claims(first, follow, "S", ["a"]) * Claims(first, follow, "S", ["a", "B"])
    ensures !CorrectedLL1(CommonPrefixGrammar(), first, follow)
  {
    var g := CommonPrefixGrammar();
    assert Lookahead(first, follow, "S", ["a"]) == {};
    assert Lookahead(first, follow, "S", ["a", "B"]) == {};
    assert IsLower("a") by { assert IsLowerChar("a"[0]); }
    assert Productions(g, "S") == [["a"], ["a", "B"]];
    assert Productions(g, "B") == [["b"]];
    assert "a" in Claims(first, follow, "S", Productions(g, "S")[0]) * Claims(first, follow, "S", Productions(g, "S")[1]);
  }
}
