/** The production tokenizer of `process_grammar_cases` and the grammar
    reader around it. A production word is split into one-character
    nonterminals (each upper-case letter) and terminals (each maximal run of
    other characters other than the space); the reader registers each
    left-hand side once, in first-seen order. */
module Tokenizer {
  import opened Symbols

  /** A one-character upper-case symbol: what the tokenizer makes a nonterminal. */
  predicate IsNonTerminalToken(x: Symbol)
  {
    |x| == 1 && IsUpperChar(x[0])
  }

  /** Characters that extend a terminal run: neither upper-case nor a space. */
  predicate RunChars(x: string)
  {
    forall i :: 0 <= i < |x| ==> !IsUpperChar(x[i]) && x[i] != ' '
  }

  /** A terminal as the tokenizer makes it: a non-empty run. */
  predicate IsRun(x: Symbol)
  {
    |x| > 0 && RunChars(x)
  }

  function Flush(current: string): seq<Symbol>
  {
    if current == "" then [] else [current]
  }

  /** The character loop of lines 184-201, with `current` the pending run. */
  function Lex(s: string, current: string): seq<Symbol>
    decreases |s|
  {
    if s == [] then Flush(current)
    else if IsUpperChar(s[0]) then Flush(current) + [[s[0]]] + Lex(s[1..], "")
    else if s[0] == ' ' then Flush(current) + Lex(s[1..], "")
    else Lex(s[1..], current + [s[0]])
  }

  /** The symbols of one production word. */
  function Tokens(s: string): seq<Symbol>
  {
    Lex(s, "")
  }

  function Concat(xs: seq<Symbol>): string
  {
    if xs == [] then "" else xs[0] + Concat(xs[1..])
  }

  function RemoveSpaces(s: string): string
  {
    if s == [] then "" else (if s[0] == ' ' then "" else [s[0]]) + RemoveSpaces(s[1..])
  }

  /** Every symbol is a one-character nonterminal or a terminal run. */
  ghost predicate WellShaped(xs: seq<Symbol>)
  {
    forall i :: 0 <= i < |xs| ==> IsNonTerminalToken(xs[i]) || IsRun(xs[i])
  }

  /** No two terminal runs are adjacent, as runs are maximal. */
  ghost predicate Separated(xs: seq<Symbol>)
  {
    forall i :: 0 <= i < |xs| - 1 ==> !(IsRun(xs[i]) && IsRun(xs[i + 1]))
  }

  /** The terminals a list of symbols adds to the `terminals` set. */
  function RunSet(xs: seq<Symbol>): set<Symbol>
  {
    set x | x in xs && IsRun(x)
  }

  lemma {:induction false} ConcatAppend(a: seq<Symbol>, b: seq<Symbol>)
    ensures Concat(a + b) == Concat(a) + Concat(b)
  {
    if a == [] {
      assert a + b == b;
    } else {
      assert (a + b)[0] == a[0] && (a + b)[1..] == a[1..] + b;
      ConcatAppend(a[1..], b);
    }
  }

  lemma FlushConcat(current: string)
    ensures Concat(Flush(current)) == current
  {
    if current != "" {
      assert Concat([current]) == current + Concat([]);
    }
  }

  lemma HeadConcat(current: string, c: char)
    ensures Concat(Flush(current) + [[c]]) == current + [c]
  {
    ConcatAppend(Flush(current), [[c]]);
    FlushConcat(current);
    assert Concat([[c]]) == [c] + Concat([]);
  }

  /** The upper-case step of `LexConcat`: the pending run, then the letter. */
  lemma LexConcatUpper(s: string, current: string)
    requires s != [] && IsUpperChar(s[0])
    requires Concat(Lex(s[1..], "")) == RemoveSpaces(s[1..])
    ensures Concat(Lex(s, current)) == current + RemoveSpaces(s)
  {
    var rest := Lex(s[1..], "");
    var head := Flush(current) + [[s[0]]];
    calc {
      Concat(Lex(s, current));
      Concat(head + rest);
      { ConcatAppend(head, rest); }
      Concat(head) + Concat(rest);
      { HeadConcat(current, s[0]); }
      current + [s[0]] + RemoveSpaces(s[1..]);
      { assert RemoveSpaces(s) == [s[0]] + RemoveSpaces(s[1..]); }
      current + RemoveSpaces(s);
    }
  }

  /** The space step of `LexConcat`: the pending run is flushed. */
  lemma LexConcatSpace(s: string, current: string)
    requires s != [] && s[0] == ' '
    requires Concat(Lex(s[1..], "")) == RemoveSpaces(s[1..])
    ensures Concat(Lex(s, current)) == current + RemoveSpaces(s)
  {
    assert Lex(s, current) == Flush(current) + Lex(s[1..], "");
    assert RemoveSpaces(s) == RemoveSpaces(s[1..]);
    FlushConcat(current);
    ConcatAppend(Flush(current), Lex(s[1..], ""));
  }

  /** Concatenating the symbols gives back the word without its spaces. */
  lemma {:induction false} LexConcat(s: string, current: string)
    ensures Concat(Lex(s, current)) == current + RemoveSpaces(s)
  {
    if s == [] {
      FlushConcat(current);
    } else if IsUpperChar(s[0]) {
      LexConcat(s[1..], "");
      LexConcatUpper(s, current);
    } else if s[0] == ' ' {
      LexConcat(s[1..], "");
      LexConcatSpace(s, current);
    } else {
      LexConcat(s[1..], current + [s[0]]);
      assert RemoveSpaces(s) == [s[0]] + RemoveSpaces(s[1..]);
    }
  }

  /** Every symbol is a one-character nonterminal or a terminal run. */
  lemma {:induction false} LexWellShaped(s: string, current: string)
    requires RunChars(current)
    ensures WellShaped(Lex(s, current))
  {
    if s == [] {
    } else if IsUpperChar(s[0]) {
      LexWellShaped(s[1..], "");
    } else if s[0] == ' ' {
      LexWellShaped(s[1..], "");
    } else {
      LexWellShaped(s[1..], current + [s[0]]);
    }
  }

  lemma SeparatedAppend(a: seq<Symbol>, b: seq<Symbol>)
    requires Separated(a) && Separated(b)
    requires a == [] || b == [] || !IsRun(a[|a| - 1]) || !IsRun(b[0])
    ensures Separated(a + b)
  {
    forall i | 0 <= i < |a + b| - 1 ensures !(IsRun((a + b)[i]) && IsRun((a + b)[i + 1])) {
      if i < |a| - 1 {
        assert (a + b)[i] == a[i] && (a + b)[i + 1] == a[i + 1];
      } else if i >= |a| {
        assert (a + b)[i] == b[i - |a|] && (a + b)[i + 1] == b[i - |a| + 1];
      }
    }
  }

  /** Without spaces in the word, two terminal runs are never adjacent. */
  lemma {:induction false} LexSeparated(s: string, current: string)
    requires ' ' !in s
    ensures Separated(Lex(s, current))
  {
    if s == [] {
    } else if IsUpperChar(s[0]) {
      LexSeparated(s[1..], "");
      var u := [s[0]];
      assert !IsRun(u) by { assert u[0] == s[0]; }
      SeparatedAppend(Flush(current), [u]);
      assert (Flush(current) + [u])[|Flush(current) + [u]| - 1] == u;
      SeparatedAppend(Flush(current) + [[s[0]]], Lex(s[1..], ""));
    } else {
      LexSeparated(s[1..], current + [s[0]]);
    }
  }

  /** A run at the front of the remaining word only extends the pending run. */
  lemma {:induction false} LexRun(r: string, t: string, current: string)
    requires RunChars(r)
    ensures Lex(r + t, current) == Lex(t, current + r)
  {
    if r == [] {
      assert r + t == t && current + r == current;
    } else {
      assert (r + t)[0] == r[0] && (r + t)[1..] == r[1..] + t;
      assert !IsUpperChar(r[0]) && r[0] != ' ';
      LexRun(r[1..], t, current + [r[0]]);
      assert current + [r[0]] + r[1..] == current + r;
    }
  }

  /** Tokenizing the concatenation of well-shaped, separated symbols gives
      them back: with `TokensConcat`, the tokenizer is a bijection between
      space-free words and such symbol lists. */
  lemma {:induction false} ConcatTokens(xs: seq<Symbol>)
    requires WellShaped(xs) && Separated(xs)
    ensures Tokens(Concat(xs)) == xs
    decreases |xs|
  {
    if xs == [] {
    } else if IsNonTerminalToken(xs[0]) {
      var rest := xs[1..];
      assert WellShaped(rest) && Separated(rest) by {
        forall i | 0 <= i < |rest| ensures IsNonTerminalToken(rest[i]) || IsRun(rest[i]) {
          assert rest[i] == xs[i + 1];
        }
        forall i | 0 <= i < |rest| - 1 ensures !(IsRun(rest[i]) && IsRun(rest[i + 1])) {
          assert rest[i] == xs[i + 1];
        }
      }
      ConcatTokens(rest);
      var c := Concat(xs);
      assert c == xs[0] + Concat(rest);
      assert c[0] == xs[0][0] && c[1..] == Concat(rest);
      assert [c[0]] == xs[0];
    } else {
      var r := xs[0];
      assert IsRun(r);
      var rest := xs[1..];
      assert Concat(xs) == r + Concat(rest);
      LexRun(r, Concat(rest), "");
      assert "" + r == r;
      if rest == [] {
        assert Concat(rest) == "";
      } else {
        var u := rest[0];
        assert !IsRun(u);
        assert IsNonTerminalToken(u);
        var more := rest[1..];
        assert more == xs[2..];
        assert WellShaped(more) && Separated(more) by {
          forall i | 0 <= i < |more| ensures IsNonTerminalToken(more[i]) || IsRun(more[i]) {
            assert more[i] == xs[i + 2];
          }
          forall i | 0 <= i < |more| - 1 ensures !(IsRun(more[i]) && IsRun(more[i + 1])) {
            assert more[i] == xs[i + 2] && more[i + 1] == xs[i + 3];
          }
        }
        ConcatTokens(more);
        var c := Concat(rest);
        assert c == u + Concat(more);
        assert c[0] == u[0] && c[1..] == Concat(more);
        assert [u[0]] == u;
        assert Lex(c, r) == [r] + [u] + Lex(Concat(more), "");
        assert xs == [r] + [u] + more;
      }
    }
  }

  lemma {:induction false} RemoveSpacesIdentity(s: string)
    requires ' ' !in s
    ensures RemoveSpaces(s) == s
  {
    if s != [] {
      RemoveSpacesIdentity(s[1..]);
    }
  }

  /** A space-free word is the concatenation of its symbols, which are
      well-shaped and separated. */
  lemma TokensConcat(s: string)
    requires ' ' !in s
    ensures Concat(Tokens(s)) == s
    ensures WellShaped(Tokens(s)) && Separated(Tokens(s))
  {
    LexConcat(s, "");
    RemoveSpacesIdentity(s);
    LexWellShaped(s, "");
    LexSeparated(s, "");
  }

  lemma RunSetAppend(xs: seq<Symbol>, x: Symbol)
    ensures RunSet(xs + [x]) == RunSet(xs) + (if IsRun(x) then {x} else {})
  {
    assert forall y :: y in xs + [x] <==> y in xs || y == x;
  }

  /** `parsed_production.append(current_symbol); terminals.add(current_symbol)`
      when a run is pending (lines 186-189, 192-195 and 198-201). */
  method FlushRun(parsed: seq<Symbol>, found: set<Symbol>, current: string)
    returns (parsed': seq<Symbol>, found': set<Symbol>)
    requires found == RunSet(parsed) && RunChars(current)
    ensures parsed' == parsed + Flush(current)
    ensures found' == RunSet(parsed')
  {
    parsed', found' := parsed, found;
    if current != "" {
      RunSetAppend(parsed, current);
      parsed' := parsed + [current];
      found' := found + {current};
    }
  }

  /** Lines 182-203 as written: the character loop with its pending run,
      flushing the run before an upper-case letter, at a space, and at the
      last character. */
  method Tokenize(production: string) returns (parsed: seq<Symbol>, found: set<Symbol>)
    ensures parsed == Tokens(production)
    ensures found == RunSet(parsed)
  {
    var current := "";
    parsed := [];
    found := {};
    var i := 0;
    while i < |production|
      invariant 0 <= i <= |production|
      invariant RunChars(current)
      invariant i == |production| ==> current == ""
      invariant parsed + Lex(production[i..], current) == Tokens(production)
      invariant found == RunSet(parsed)
    {
      var c := production[i];
      if IsUpperChar(c) {
        UpperStep(production, i, parsed, current);
        parsed, found := FlushRun(parsed, found, current);
        current := "";
        RunSetAppend(parsed, [c]);
        assert !IsRun([c]) by { assert [c][0] == c; }
        parsed := parsed + [[c]];
      } else if c == ' ' {
        SpaceStep(production, i, parsed, current);
        parsed, found := FlushRun(parsed, found, current);
        current := "";
      } else {
        RunStep(production, i, parsed, current);
        current := current + [c];
        if i == |production| - 1 {
          LastStep(production, i, parsed, current);
          parsed, found := FlushRun(parsed, found, current);
          current := "";
        }
      }
      i := i + 1;
    }
  }

  // One character of `Tokenize`'s loop, against `Lex`.

  lemma UpperStep(p: string, i: nat, parsed: seq<Symbol>, current: string)
    requires i < |p| && IsUpperChar(p[i])
    requires parsed + Lex(p[i..], current) == Tokens(p)
    ensures (parsed + Flush(current)) + [[p[i]]] + Lex(p[i + 1..], "") == Tokens(p)
  {
    assert p[i..][0] == p[i] && p[i..][1..] == p[i + 1..];
    assert Lex(p[i..], current) == Flush(current) + [[p[i]]] + Lex(p[i + 1..], "");
  }

  lemma SpaceStep(p: string, i: nat, parsed: seq<Symbol>, current: string)
    requires i < |p| && p[i] == ' '
    requires parsed + Lex(p[i..], current) == Tokens(p)
    ensures (parsed + Flush(current)) + Lex(p[i + 1..], "") == Tokens(p)
  {
    assert p[i..][0] == p[i] && p[i..][1..] == p[i + 1..];
    assert Lex(p[i..], current) == Flush(current) + Lex(p[i + 1..], "");
  }

  lemma RunStep(p: string, i: nat, parsed: seq<Symbol>, current: string)
    requires i < |p| && !IsUpperChar(p[i]) && p[i] != ' '
    requires parsed + Lex(p[i..], current) == Tokens(p)
    ensures parsed + Lex(p[i + 1..], current + [p[i]]) == Tokens(p)
  {
    assert p[i..][0] == p[i] && p[i..][1..] == p[i + 1..];
  }

  /** At the last character the pending run is flushed (lines 198-200). */
  lemma LastStep(p: string, i: nat, parsed: seq<Symbol>, current: string)
    requires i + 1 == |p|
    requires parsed + Lex(p[i + 1..], current) == Tokens(p)
    ensures (parsed + Flush(current)) + Lex(p[i + 1..], "") == Tokens(p)
  {
    assert p[i + 1..] == [];
  }


  /** `[Tokens(w) for w in words]`. */
  function TokensOfAll(words: seq<string>): (r: seq<Production>)
    ensures |r| == |words|
    ensures forall i :: 0 <= i < |words| ==> r[i] == Tokens(words[i])
  {
    if words == [] then [] else [Tokens(words[0])] + TokensOfAll(words[1..])
  }

  function RunsOfAll(words: seq<string>): set<Symbol>
  {
    if words == [] then {} else RunSet(Tokens(words[0])) + RunsOfAll(words[1..])
  }

  /** A word that the reader's `split()` produces yields a non-empty production. */
  lemma WordTokensNonEmpty(w: string)
    requires |w| > 0 && ' ' !in w
    ensures |Tokens(w)| > 0
  {
    TokensConcat(w);
  }

  /** Every word of a split line yields a non-empty production. */
  lemma AllTokensNonEmpty(words: seq<string>)
    requires forall w :: w in words ==> |w| > 0 && ' ' !in w
    ensures forall p :: p in TokensOfAll(words) ==> |p| > 0
  {
    forall p | p in TokensOfAll(words) ensures |p| > 0 {
      var i :| 0 <= i < |words| && TokensOfAll(words)[i] == p;
      WordTokensNonEmpty(words[i]);
    }
  }

  /** The per-case reader state of `process_grammar_cases`: the grammar,
      the nonterminal list and the terminal set it fills line by line. */
  class GrammarReader {
    var nonTerminals: seq<Symbol>
    var rules: map<Symbol, seq<Production>>
    var terminals: set<Symbol>

    ghost predicate Valid()
      reads this
    {
      Symbols.Valid(Grammar(nonTerminals, rules))
    }

    function Current(): Grammar
      reads this
    {
      Grammar(nonTerminals, rules)
    }

    constructor ()
      ensures Valid()
      ensures nonTerminals == [] && rules == map[] && terminals == {}
    {
      nonTerminals := [];
      rules := map[];
      terminals := {};
    }

    /** The production loop of lines 179-204: each word is tokenized and
        its terminal runs join `terminals`. */
    method ReadWords(words: seq<string>) returns (processed: seq<Production>)
      modifies this
      ensures processed == TokensOfAll(words)
      ensures terminals == old(terminals) + RunsOfAll(words)
      ensures nonTerminals == old(nonTerminals) && rules == old(rules)
    {
      processed := [];
      var k := 0;
      while k < |words|
        invariant 0 <= k <= |words|
        invariant processed == TokensOfAll(words[..k])
        invariant terminals == old(terminals) + RunsOfAll(words[..k])
        invariant nonTerminals == old(nonTerminals) && rules == old(rules)
      {
        var parsed, found := Tokenize(words[k]);
        assert words[..k + 1] == words[..k] + [words[k]];
        TokensOfAllAppend(words[..k], words[k]);
        processed := processed + [parsed];
        terminals := terminals + found;
        k := k + 1;
      }
      assert words[..k] == words;
    }

    /** One input line, already split on white space: a left-hand side and
        its production words (lines 173-205). */
    method AddLine(line: seq<string>)
      requires Valid()
      requires |line| > 0
      requires forall w :: w in line[1..] ==> |w| > 0 && ' ' !in w
      modifies this
      ensures Valid()
      ensures nonTerminals ==
        if line[0] in old(nonTerminals) then old(nonTerminals) else old(nonTerminals) + [line[0]]
      ensures rules == old(rules)[line[0] := Productions(old(Current()), line[0]) + TokensOfAll(line[1..])]
      ensures terminals == old(terminals) + RunsOfAll(line[1..])
    {
      var head := line[0];
      ghost var oldG := Current();
      if head !in nonTerminals {
        nonTerminals := nonTerminals + [head];
      }
      var words := line[1..];
      var processed := ReadWords(words);
      AllTokensNonEmpty(words);
      AddRuleValid(oldG, head, processed);
      assert rules == oldG.rules;
      assert nonTerminals == if head in oldG.nonTerminals then oldG.nonTerminals else oldG.nonTerminals + [head];
      rules := rules[head := Productions(Grammar(nonTerminals, rules), head) + processed];
    }
  }

  /** Registering a left-hand side and appending non-empty productions keeps a grammar valid. */
  lemma AddRuleValid(g: Grammar, head: Symbol, processed: seq<Production>)
    requires Valid(g)
    requires forall p :: p in processed ==> |p| > 0
    ensures Valid(Grammar(
      if head in g.nonTerminals then g.nonTerminals else g.nonTerminals + [head],
      g.rules[head := Productions(g, head) + processed]))
  {
    var nts := if head in g.nonTerminals then g.nonTerminals else g.nonTerminals + [head];
    var rules := g.rules[head := Productions(g, head) + processed];
    forall a, p | a in rules && p in rules[a] ensures |p| > 0 {
      if a != head || p !in processed {
        assert a in g.rules && p in g.rules[a];
      }
    }
    forall i, j | 0 <= i < j < |nts| ensures nts[i] != nts[j] {
      if j == |g.nonTerminals| {
        assert nts[j] == head && nts[i] == g.nonTerminals[i];
      }
    }
  }

  lemma {:induction false} TokensOfAllAppend(words: seq<string>, w: string)
    ensures TokensOfAll(words + [w]) == TokensOfAll(words) + [Tokens(w)]
    ensures RunsOfAll(words + [w]) == RunsOfAll(words) + RunSet(Tokens(w))
  {
    if words != [] {
      assert (words + [w])[1..] == words[1..] + [w];
      TokensOfAllAppend(words[1..], w);
    }
  }
}
