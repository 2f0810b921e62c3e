/** `compute_follow`: FOLLOW sets by a recursive `find_follow` that has no
    memo and no cycle guard. The start symbol is seeded with the end marker;
    for the first occurrence of a nonterminal in each production the symbols
    after it are walked, and when the walk falls off the end the FOLLOW set
    of the production's left-hand side is inherited by calling `find_follow`
    on it. On a grammar where two nonterminals trail each other that
    recursion never ends, so it runs on `fuel` here and `None` stands for
    the source's unbounded recursion. */
module FollowSets {
  import opened Symbols

  /** The outcome of the walk after one occurrence: what it adds, and
      whether it fell off the end of the production. */
  datatype Walk = Walk(adds: set<Symbol>, falls: bool)

  /** The `while` loop of lines 61-74 over the symbols after an occurrence:
      a symbol that is not a nonterminal is added as it is and stops the
      walk; a nonterminal adds its FIRST set less epsilon and stops the walk
      unless that set holds epsilon. */
  function FollowWalk(g: Grammar, first: SetMap, rest: seq<Symbol>): Walk
    decreases |rest|
  {
    if rest == [] then Walk({}, true)
    else if rest[0] !in g.nonTerminals then Walk({rest[0]}, false)
    else if Epsilon !in Get(first, rest[0]) then Walk(Get(first, rest[0]) - {Epsilon}, false)
    else
      var w := FollowWalk(g, first, rest[1..]);
      Walk((Get(first, rest[0]) - {Epsilon}) + w.adds, w.falls)
  }

  /** `production.index(x)`: the first occurrence. */
  function IndexOf(p: Production, x: Symbol): (i: nat)
    requires x in p
    ensures i < |p| && p[i] == x
    ensures forall j :: 0 <= j < i ==> p[j] != x
  {
    if p[0] == x then 0 else 1 + IndexOf(p[1..], x)
  }

  /** The walk after the first occurrence of `x` in `p` (lines 58-59). */
  function Trailer(g: Grammar, first: SetMap, x: Symbol, p: Production): Walk
    requires x in p
  {
    FollowWalk(g, first, p[IndexOf(p, x) + 1..])
  }

  /** The end marker the start symbol is seeded with (lines 50-51). */
  function Seed(g: Grammar, x: Symbol): set<Symbol>
  {
    if |g.nonTerminals| > 0 && x == g.nonTerminals[0] then {EndMarker} else {}
  }

  /** Union that fails when either side failed. */
  function OptUnion(a: Option<set<Symbol>>, b: Option<set<Symbol>>): Option<set<Symbol>>
  {
    if a.Some? && b.Some? then Some(a.value + b.value) else None
  }

  /** What `find_follow(x)` returns, computed without the shared table:
      the seed, and what every production of every nonterminal contributes,
      with `None` once the recursion runs deeper than `fuel`. */
  function FollowSpec(g: Grammar, first: SetMap, x: Symbol, fuel: nat): Option<set<Symbol>>
    decreases fuel, 2, 0
  {
    if fuel == 0 then None
    else OptUnion(Some(Seed(g, x)), LhsFold(g, first, x, fuel, |g.nonTerminals|))
  }

  /** The contributions of the productions of the first `n` nonterminals. */
  function LhsFold(g: Grammar, first: SetMap, x: Symbol, fuel: nat, n: nat): Option<set<Symbol>>
    requires 0 < fuel && n <= |g.nonTerminals|
    decreases fuel, 1, n
  {
    if n == 0 then Some({})
    else
      var lhs := g.nonTerminals[n - 1];
      OptUnion(LhsFold(g, first, x, fuel, n - 1), ProdFold(g, first, x, fuel, lhs, |Productions(g, lhs)|))
  }

  /** The contributions of the first `m` productions of `lhs`. */
  function ProdFold(g: Grammar, first: SetMap, x: Symbol, fuel: nat, lhs: Symbol, m: nat): Option<set<Symbol>>
    requires 0 < fuel && m <= |Productions(g, lhs)|
    decreases fuel, 0, m
  {
    if m == 0 then Some({})
    else OptUnion(ProdFold(g, first, x, fuel, lhs, m - 1), Contribution(g, first, x, fuel, lhs, Productions(g, lhs)[m - 1]))
  }

  /** What one production `lhs -> p` contributes to FOLLOW(x) (lines 56-78):
      nothing when `x` does not occur in it; otherwise the walk after its
      first occurrence, and FOLLOW(lhs) when the walk falls off the end and
      `lhs` is not `x` itself. */
  function Contribution(g: Grammar, first: SetMap, x: Symbol, fuel: nat, lhs: Symbol, p: Production): Option<set<Symbol>>
    requires 0 < fuel
    decreases fuel, 0, 0
  {
    if x !in p then Some({})
    else
      var w := Trailer(g, first, x, p);
      if w.falls && lhs != x then OptUnion(Some(w.adds), FollowSpec(g, first, lhs, fuel - 1))
      else Some(w.adds)
  }

  // ---------------------------------------------------------------------
  // The walk, described without the loop.

  /** The first `k` symbols are all nonterminals whose FIRST set holds epsilon. */
  ghost predicate NullableRun(g: Grammar, first: SetMap, rest: seq<Symbol>, k: nat)
    requires k <= |rest|
  {
    forall i :: 0 <= i < k ==> rest[i] in g.nonTerminals && Epsilon in Get(first, rest[i])
  }

  /** What the symbol the walk reaches puts into FOLLOW. */
  ghost predicate Puts(g: Grammar, first: SetMap, z: Symbol, y: Symbol)
  {
    if z !in g.nonTerminals then y == z else y in Get(first, z) && y != Epsilon
  }

  /** The walk adds `y` exactly when some symbol it reaches puts `y`, and
      falls off the end exactly when every symbol is a nullable nonterminal. */
  lemma {:induction false} FollowWalkMembers(g: Grammar, first: SetMap, rest: seq<Symbol>, y: Symbol)
    ensures y in FollowWalk(g, first, rest).adds <==>
      exists k :: 0 <= k < |rest| && NullableRun(g, first, rest, k) && Puts(g, first, rest[k], y)
    ensures FollowWalk(g, first, rest).falls <==> NullableRun(g, first, rest, |rest|)
    decreases |rest|
  {
    if rest == [] {
    } else if rest[0] !in g.nonTerminals || Epsilon !in Get(first, rest[0]) {
      if y in FollowWalk(g, first, rest).adds {
        assert NullableRun(g, first, rest, 0) && Puts(g, first, rest[0], y);
      }
      forall k | 0 < k <= |rest| ensures !NullableRun(g, first, rest, k) {
        assert 0 < k;
      }
    } else {
      var t := rest[1..];
      FollowWalkMembers(g, first, t, y);
      forall k | 0 <= k <= |t|
        ensures NullableRun(g, first, rest, k + 1) == NullableRun(g, first, t, k)
      {
        if NullableRun(g, first, t, k) {
          forall i | 0 <= i < k + 1 ensures rest[i] in g.nonTerminals && Epsilon in Get(first, rest[i]) {
            if i > 0 { assert rest[i] == t[i - 1]; }
          }
        }
        if NullableRun(g, first, rest, k + 1) {
          forall i | 0 <= i < k ensures t[i] in g.nonTerminals && Epsilon in Get(first, t[i]) {
            assert t[i] == rest[i + 1];
          }
        }
      }
      if y in FollowWalk(g, first, rest).adds {
        if y in Get(first, rest[0]) - {Epsilon} {
          assert NullableRun(g, first, rest, 0) && Puts(g, first, rest[0], y);
        } else {
          var k :| 0 <= k < |t| && NullableRun(g, first, t, k) && Puts(g, first, t[k], y);
          assert NullableRun(g, first, rest, k + 1) && rest[k + 1] == t[k];
        }
      } else {
        forall k | 0 <= k < |rest| && NullableRun(g, first, rest, k)
          ensures !Puts(g, first, rest[k], y)
        {
          if k > 0 {
            assert NullableRun(g, first, t, k - 1) && rest[k] == t[k - 1];
          }
        }
      }
      assert NullableRun(g, first, rest, |t| + 1) == NullableRun(g, first, t, |t|);
    }
  }

  // ---------------------------------------------------------------------
  // More fuel changes nothing once the recursion has bottomed out.

  lemma {:induction false} FollowSpecFuel(g: Grammar, first: SetMap, x: Symbol, k: nat, k': nat)
    requires FollowSpec(g, first, x, k).Some? && k <= k'
    ensures FollowSpec(g, first, x, k') == FollowSpec(g, first, x, k)
    decreases k, 2, 0
  {
    LhsFoldFuel(g, first, x, k, k', |g.nonTerminals|);
  }

  lemma {:induction false} LhsFoldFuel(g: Grammar, first: SetMap, x: Symbol, k: nat, k': nat, n: nat)
    requires 0 < k <= k' && n <= |g.nonTerminals| && LhsFold(g, first, x, k, n).Some?
    ensures LhsFold(g, first, x, k', n) == LhsFold(g, first, x, k, n)
    decreases k, 1, n
  {
    if n > 0 {
      var lhs := g.nonTerminals[n - 1];
      LhsFoldFuel(g, first, x, k, k', n - 1);
      ProdFoldFuel(g, first, x, k, k', lhs, |Productions(g, lhs)|);
    }
  }

  lemma {:induction false} ProdFoldFuel(g: Grammar, first: SetMap, x: Symbol, k: nat, k': nat, lhs: Symbol, m: nat)
    requires 0 < k <= k' && m <= |Productions(g, lhs)| && ProdFold(g, first, x, k, lhs, m).Some?
    ensures ProdFold(g, first, x, k', lhs, m) == ProdFold(g, first, x, k, lhs, m)
    decreases k, 0, m
  {
    if m > 0 {
      ProdFoldFuel(g, first, x, k, k', lhs, m - 1);
      ContributionFuel(g, first, x, k, k', lhs, Productions(g, lhs)[m - 1]);
    }
  }

  lemma {:induction false} ContributionFuel(g: Grammar, first: SetMap, x: Symbol, k: nat, k': nat, lhs: Symbol, p: Production)
    requires 0 < k <= k' && Contribution(g, first, x, k, lhs, p).Some?
    ensures Contribution(g, first, x, k', lhs, p) == Contribution(g, first, x, k, lhs, p)
    decreases k, 0, 0
  {
    if x in p && Trailer(g, first, x, p).falls && lhs != x {
      FollowSpecFuel(g, first, lhs, k - 1, k' - 1);
    }
  }

  /** Two budgets that both suffice give the same FOLLOW set. */
  lemma FollowSpecUnique(g: Grammar, first: SetMap, x: Symbol, k: nat, k': nat)
    requires FollowSpec(g, first, x, k).Some? && FollowSpec(g, first, x, k').Some?
    ensures FollowSpec(g, first, x, k) == FollowSpec(g, first, x, k')
  {
    if k <= k' {
      FollowSpecFuel(g, first, x, k, k');
    } else {
      FollowSpecFuel(g, first, x, k', k);
    }
  }

  // ---------------------------------------------------------------------
  // What FOLLOW(x) holds, production by production.

  /** `y` belongs in FOLLOW(x) by one rule: the end marker of the start
      symbol, a symbol the walk after an occurrence of `x` adds, or a member
      of FOLLOW(lhs) inherited where that walk falls off the end. */
  ghost predicate Justified(g: Grammar, first: SetMap, x: Symbol, y: Symbol)
  {
    y in Seed(g, x) || exists lhs, p :: RuleJustifies(g, first, x, y, lhs, p)
  }

  /** The production `lhs -> p` puts `y` into FOLLOW(x): through the walk
      after `x`, or through FOLLOW(lhs) when the walk falls off the end. */
  ghost predicate RuleJustifies(g: Grammar, first: SetMap, x: Symbol, y: Symbol, lhs: Symbol, p: Production)
  {
    && lhs in g.nonTerminals && p in Productions(g, lhs) && x in p
    && (y in Trailer(g, first, x, p).adds ||
        (Trailer(g, first, x, p).falls && lhs != x &&
         exists k: nat :: FollowSpec(g, first, lhs, k).Some? && y in FollowSpec(g, first, lhs, k).value))
  }

  /** What the walk after `x` in `lhs -> p` adds is justified. */
  lemma WalkJustified(g: Grammar, first: SetMap, x: Symbol, lhs: Symbol, p: Production, ys: set<Symbol>)
    requires lhs in g.nonTerminals && p in Productions(g, lhs) && x in p
    requires ys <= Trailer(g, first, x, p).adds
    ensures forall y :: y in ys ==> Justified(g, first, x, y)
  {
    forall y | y in ys ensures Justified(g, first, x, y) {
      assert RuleJustifies(g, first, x, y, lhs, p);
    }
  }

  /** What is inherited from a completed FOLLOW(lhs) when the walk after
      `x` in `lhs -> p` falls off the end is justified. */
  lemma InheritedJustified(g: Grammar, first: SetMap, x: Symbol, lhs: Symbol, p: Production, k: nat)
    requires lhs in g.nonTerminals && p in Productions(g, lhs) && x in p
    requires Trailer(g, first, x, p).falls && lhs != x && FollowSpec(g, first, lhs, k).Some?
    ensures forall y :: y in FollowSpec(g, first, lhs, k).value ==> Justified(g, first, x, y)
  {
    forall y | y in FollowSpec(g, first, lhs, k).value ensures Justified(g, first, x, y) {
      assert RuleJustifies(g, first, x, y, lhs, p);
    }
  }

  lemma {:induction false} LhsFoldMember(g: Grammar, first: SetMap, x: Symbol, fuel: nat, n: nat, i: nat)
    requires 0 < fuel && i < n <= |g.nonTerminals| && LhsFold(g, first, x, fuel, n).Some?
    ensures ProdFold(g, first, x, fuel, g.nonTerminals[i], |Productions(g, g.nonTerminals[i])|).Some?
    ensures ProdFold(g, first, x, fuel, g.nonTerminals[i], |Productions(g, g.nonTerminals[i])|).value <=
      LhsFold(g, first, x, fuel, n).value
  {
    if i < n - 1 {
      LhsFoldMember(g, first, x, fuel, n - 1, i);
    }
  }

  lemma {:induction false} ProdFoldMember(g: Grammar, first: SetMap, x: Symbol, fuel: nat, lhs: Symbol, m: nat, j: nat)
    requires 0 < fuel && j < m <= |Productions(g, lhs)| && ProdFold(g, first, x, fuel, lhs, m).Some?
    ensures Contribution(g, first, x, fuel, lhs, Productions(g, lhs)[j]).Some?
    ensures Contribution(g, first, x, fuel, lhs, Productions(g, lhs)[j]).value <= ProdFold(g, first, x, fuel, lhs, m).value
  {
    if j < m - 1 {
      ProdFoldMember(g, first, x, fuel, lhs, m - 1, j);
    }
  }

  /** A completed FOLLOW set holds what every production contributes. */
  lemma ContributionInSpec(g: Grammar, first: SetMap, x: Symbol, fuel: nat, lhs: Symbol, p: Production)
    requires FollowSpec(g, first, x, fuel).Some? && lhs in g.nonTerminals && p in Productions(g, lhs)
    ensures 0 < fuel && Contribution(g, first, x, fuel, lhs, p).Some?
    ensures Contribution(g, first, x, fuel, lhs, p).value <= FollowSpec(g, first, x, fuel).value
  {
    var i :| 0 <= i < |g.nonTerminals| && g.nonTerminals[i] == lhs;
    var j :| 0 <= j < |Productions(g, lhs)| && Productions(g, lhs)[j] == p;
    LhsFoldMember(g, first, x, fuel, |g.nonTerminals|, i);
    ProdFoldMember(g, first, x, fuel, lhs, |Productions(g, lhs)|, j);
  }

  /** Lower bound: a completed FOLLOW(x) holds the start marker when `x` is
      the start symbol, everything the walk after each first occurrence of
      `x` adds, and, where that walk falls off the end of a production of
      another nonterminal `lhs`, all of FOLLOW(lhs). */
  lemma FollowSpecHolds(g: Grammar, first: SetMap, x: Symbol, fuel: nat, lhs: Symbol, p: Production)
    requires FollowSpec(g, first, x, fuel).Some? && |g.nonTerminals| > 0
    requires lhs in g.nonTerminals && p in Productions(g, lhs) && x in p
    ensures x == g.nonTerminals[0] ==> EndMarker in FollowSpec(g, first, x, fuel).value
    ensures Trailer(g, first, x, p).adds <= FollowSpec(g, first, x, fuel).value
    ensures Trailer(g, first, x, p).falls && lhs != x ==>
      0 < fuel && FollowSpec(g, first, lhs, fuel - 1).Some? &&
      FollowSpec(g, first, lhs, fuel - 1).value <= FollowSpec(g, first, x, fuel).value
  {
    ContributionInSpec(g, first, x, fuel, lhs, p);
  }

  /** Every justified symbol is in a completed FOLLOW set. */
  lemma JustifiedInSpec(g: Grammar, first: SetMap, x: Symbol, y: Symbol, fuel: nat)
    requires FollowSpec(g, first, x, fuel).Some? && Justified(g, first, x, y)
    ensures y in FollowSpec(g, first, x, fuel).value
  {
    if y !in Seed(g, x) {
      var lhs, p :| RuleJustifies(g, first, x, y, lhs, p);
      RuleInSpec(g, first, x, y, fuel, lhs, p);
    }
  }

  /** One production's reason for `y` to be in FOLLOW(x) is honoured by
      every completed FOLLOW(x). */
  lemma RuleInSpec(g: Grammar, first: SetMap, x: Symbol, y: Symbol, fuel: nat, lhs: Symbol, p: Production)
    requires FollowSpec(g, first, x, fuel).Some?
    requires RuleJustifies(g, first, x, y, lhs, p)
    ensures y in FollowSpec(g, first, x, fuel).value
  {
    ContributionInSpec(g, first, x, fuel, lhs, p);
    if y !in Trailer(g, first, x, p).adds {
      var k: nat :| FollowSpec(g, first, lhs, k).Some? && y in FollowSpec(g, first, lhs, k).value;
      FollowSpecUnique(g, first, lhs, k, fuel - 1);
    }
  }

  lemma {:induction false} LhsFoldJustified(g: Grammar, first: SetMap, x: Symbol, fuel: nat, n: nat, y: Symbol)
    requires 0 < fuel && n <= |g.nonTerminals| && LhsFold(g, first, x, fuel, n).Some?
    requires y in LhsFold(g, first, x, fuel, n).value
    ensures Justified(g, first, x, y)
  {
    var lhs := g.nonTerminals[n - 1];
    var m := |Productions(g, lhs)|;
    if y in LhsFold(g, first, x, fuel, n - 1).value {
      LhsFoldJustified(g, first, x, fuel, n - 1, y);
    } else {
      ProdFoldJustified(g, first, x, fuel, lhs, m, y);
    }
  }

  lemma {:induction false} ProdFoldJustified(g: Grammar, first: SetMap, x: Symbol, fuel: nat, lhs: Symbol, m: nat, y: Symbol)
    requires 0 < fuel && lhs in g.nonTerminals && m <= |Productions(g, lhs)|
    requires ProdFold(g, first, x, fuel, lhs, m).Some? && y in ProdFold(g, first, x, fuel, lhs, m).value
    ensures Justified(g, first, x, y)
  {
    var p := Productions(g, lhs)[m - 1];
    if y in ProdFold(g, first, x, fuel, lhs, m - 1).value {
      ProdFoldJustified(g, first, x, fuel, lhs, m - 1, y);
    } else {
      if y !in Trailer(g, first, x, p).adds {
        assert FollowSpec(g, first, lhs, fuel - 1).Some? && y in FollowSpec(g, first, lhs, fuel - 1).value;
      }
      assert RuleJustifies(g, first, x, y, lhs, p);
    }
  }

  /** Upper bound: everything in a completed FOLLOW set is there by one of
      the rules; with `JustifiedInSpec` this characterises the set. */
  lemma FollowSpecJustified(g: Grammar, first: SetMap, x: Symbol, fuel: nat, y: Symbol)
    requires FollowSpec(g, first, x, fuel).Some? && y in FollowSpec(g, first, x, fuel).value
    ensures Justified(g, first, x, y)
  {
    if y !in Seed(g, x) {
      LhsFoldJustified(g, first, x, fuel, |g.nonTerminals|, y);
    }
  }

  // ---------------------------------------------------------------------
  // The shared table.

  /** What the shared `follow` table keeps at every step: the start marker,
      and only justified symbols. */
  ghost predicate TableOk(g: Grammar, first: SetMap, follow: SetMap)
  {
    && (|g.nonTerminals| > 0 ==> EndMarker in Get(follow, g.nonTerminals[0]))
    && (forall x, y :: x in follow && y in follow[x] ==> Justified(g, first, x, y))
  }

  /** The walk after `x` in `p` has reached index `i` having added `added`. */
  ghost predicate WalkAt(g: Grammar, first: SetMap, x: Symbol, p: Production, i: nat, added: set<Symbol>)
    requires x in p && i < |p|
  {
    Trailer(g, first, x, p) ==
      Walk(added + FollowWalk(g, first, p[i + 1..]).adds, FollowWalk(g, first, p[i + 1..]).falls)
  }

  /** One symbol of the walk of lines 62-72: what it adds belongs to the
      trailer, and the walk stops there or goes on to the next symbol. */
  lemma WalkAtStep(g: Grammar, first: SetMap, x: Symbol, p: Production, i: nat, added: set<Symbol>)
    requires x in p && i + 1 < |p| && WalkAt(g, first, x, p, i, added)
    ensures var next := p[i + 1];
      var extra := if next !in g.nonTerminals then {next} else Get(first, next) - {Epsilon};
      && extra <= Trailer(g, first, x, p).adds
      && (next !in g.nonTerminals || Epsilon !in Get(first, next) ==>
            Trailer(g, first, x, p) == Walk(added + extra, false))
      && (next in g.nonTerminals && Epsilon in Get(first, next) ==> WalkAt(g, first, x, p, i + 1, added + extra))
  {
    assert p[i + 1..][0] == p[i + 1] && p[i + 1..][1..] == p[i + 2..];
  }

  lemma WalkAtStart(g: Grammar, first: SetMap, x: Symbol, p: Production)
    requires x in p
    ensures WalkAt(g, first, x, p, IndexOf(p, x), {})
  {
    assert {} + Trailer(g, first, x, p).adds == Trailer(g, first, x, p).adds;
  }

  lemma WalkAtEnd(g: Grammar, first: SetMap, x: Symbol, p: Production, added: set<Symbol>)
    requires x in p && WalkAt(g, first, x, p, |p| - 1, added)
    ensures Trailer(g, first, x, p) == Walk(added, true)
  {
    assert p[|p|..] == [];
    assert added + {} == added;
  }

  lemma AddsToAdd(entry: SetMap, f: SetMap, x: Symbol, added: set<Symbol>, extra: set<Symbol>)
    requires AddsTo(entry, f, x, added)
    ensures AddsTo(entry, Add(f, x, extra), x, added + extra)
  {
  }

  /** Adding justified symbols keeps the table as it should be. */
  lemma AddJustified(g: Grammar, first: SetMap, follow: SetMap, x: Symbol, extra: set<Symbol>)
    requires TableOk(g, first, follow)
    requires forall y :: y in extra ==> Justified(g, first, x, y)
    ensures TableOk(g, first, Add(follow, x, extra))
  {
  }

  /** A table that is as it should be holds, for a symbol whose FOLLOW set
      is complete, at most that set. */
  lemma TableWithinSpec(g: Grammar, first: SetMap, follow: SetMap, x: Symbol, fuel: nat)
    requires TableOk(g, first, follow) && FollowSpec(g, first, x, fuel).Some?
    ensures Get(follow, x) <= FollowSpec(g, first, x, fuel).value
    ensures Seed(g, x) <= Get(follow, x)
  {
    forall y | y in Get(follow, x) ensures y in FollowSpec(g, first, x, fuel).value {
      JustifiedInSpec(g, first, x, y, fuel);
    }
  }

  /** `f'` is `f` with `extra` added to the set of `x`. */
  ghost predicate AddsTo(f: SetMap, f': SetMap, x: Symbol, extra: set<Symbol>)
  {
    && Get(f', x) == Get(f, x) + extra
    && (forall k :: k != x ==> Get(f', k) == Get(f, k))
    && (forall k :: k in f ==> k in f')
  }

  lemma AddsToGrows(f: SetMap, f': SetMap, x: Symbol, extra: set<Symbol>)
    requires AddsTo(f, f', x, extra)
    ensures Grows(f, f')
  {
    forall k | k in f ensures k in f' && f[k] <= f'[k] {
      assert Get(f, k) <= Get(f', k);
    }
  }

  lemma LhsFoldStep(g: Grammar, first: SetMap, x: Symbol, fuel: nat, n: nat, s: set<Symbol>)
    requires 0 < fuel && n < |g.nonTerminals|
    requires LhsFold(g, first, x, fuel, n).Some? && LhsFold(g, first, x, fuel, n).value <= s
    requires ProdFold(g, first, x, fuel, g.nonTerminals[n], |Productions(g, g.nonTerminals[n])|).Some?
    requires ProdFold(g, first, x, fuel, g.nonTerminals[n], |Productions(g, g.nonTerminals[n])|).value <= s
    ensures LhsFold(g, first, x, fuel, n + 1).Some? && LhsFold(g, first, x, fuel, n + 1).value <= s
  {
  }

  /** Once every production has been scanned, the table holds exactly the
      completed FOLLOW set. */
  lemma FoldComplete(g: Grammar, first: SetMap, follow: SetMap, x: Symbol, fuel: nat)
    requires TableOk(g, first, follow) && 0 < fuel
    requires LhsFold(g, first, x, fuel, |g.nonTerminals|).Some?
    requires LhsFold(g, first, x, fuel, |g.nonTerminals|).value <= Get(follow, x)
    ensures FollowSpec(g, first, x, fuel) == Some(Get(follow, x))
  {
    var v := Seed(g, x) + LhsFold(g, first, x, fuel, |g.nonTerminals|).value;
    assert FollowSpec(g, first, x, fuel) == Some(v);
    TableWithinSpec(g, first, follow, x, fuel);
    assert Get(follow, x) == v;
  }

  // ---------------------------------------------------------------------
  // Which `find_follow` calls a call makes.

  /** `find_follow(x)` calls `find_follow(w)` (line 78): `x` occurs in a
      production of `w` whose walk falls off the end, and `w` is not `x`. */
  ghost predicate Inherits(g: Grammar, first: SetMap, x: Symbol, w: Symbol)
  {
    && w in g.nonTerminals && w != x
    && exists p :: p in Productions(g, w) && x in p && Trailer(g, first, x, p).falls
  }

  /** `find_follow(x)` reaches `find_follow(y)` through at most `k` nested
      calls (`x` itself with none). */
  ghost predicate CallsWithin(g: Grammar, first: SetMap, x: Symbol, y: Symbol, k: nat)
    decreases k
  {
    x == y || (k > 0 && exists w :: Inherits(g, first, x, w) && CallsWithin(g, first, w, y, k - 1))
  }

  /** Between `f` and `f'` only the sets of symbols that `find_follow(x)`
      reaches within `k` calls have changed. */
  ghost predicate OnlyCalled(g: Grammar, first: SetMap, f: SetMap, f': SetMap, x: Symbol, k: nat)
  {
    forall y :: Get(f', y) != Get(f, y) ==> CallsWithin(g, first, x, y, k)
  }

  /** A call that returns made every call it makes return, with one level
      of fuel less. */
  lemma InheritsReturns(g: Grammar, first: SetMap, x: Symbol, w: Symbol, k: nat)
    requires Inherits(g, first, x, w) && FollowSpec(g, first, x, k).Some?
    ensures k > 0 && FollowSpec(g, first, w, k - 1).Some?
  {
    var p :| p in Productions(g, w) && x in p && Trailer(g, first, x, p).falls;
    var n :| 0 <= n < |g.nonTerminals| && g.nonTerminals[n] == w;
    var m :| 0 <= m < |Productions(g, w)| && Productions(g, w)[m] == p;
    if FollowSpec(g, first, w, k - 1).None? {
      assert Contribution(g, first, x, k, w, p).None?;
      ProdFoldFails(g, first, x, k, w, m + 1);
      LhsFoldFails(g, first, x, k, n + 1);
      LhsFoldGrowsFails(g, first, x, k, n + 1, |g.nonTerminals|);
      assert false;
    }
  }

  /** Every call reached from a call that returns also returns, with no
      more fuel than the first. */
  lemma {:induction false} ReachedReturns(g: Grammar, first: SetMap, x: Symbol, y: Symbol, k: nat, j: nat)
      returns (k': nat)
    requires FollowSpec(g, first, x, k).Some? && CallsWithin(g, first, x, y, j)
    ensures k' <= k && FollowSpec(g, first, y, k').Some?
    decreases j
  {
    if x == y {
      return k;
    }
    var w :| Inherits(g, first, x, w) && CallsWithin(g, first, w, y, j - 1);
    InheritsReturns(g, first, x, w, k);
    k' := ReachedReturns(g, first, w, y, k - 1, j - 1);
  }

  /** A `find_follow(w)` that returns never re-enters `find_follow(x)` for an
      `x` that inherits from `w`: that re-entry would call `find_follow(w)`
      again, and so on without end. */
  lemma {:induction false} NoReentry(g: Grammar, first: SetMap, x: Symbol, w: Symbol, k: nat, j: nat)
    requires Inherits(g, first, x, w) && FollowSpec(g, first, w, k).Some?
    ensures !CallsWithin(g, first, w, x, j)
    decreases k
  {
    if CallsWithin(g, first, w, x, j) {
      var k' := ReachedReturns(g, first, w, x, k, j);
      InheritsReturns(g, first, x, w, k');
      NoReentry(g, first, x, w, k' - 1, j);
    }
  }

  /** A call `find_follow(lhs)` made by `find_follow(x)` changes only what
      `find_follow(x)` reaches. */
  lemma InheritedFrame(g: Grammar, first: SetMap, f: SetMap, f': SetMap, x: Symbol, lhs: Symbol, fuel: nat)
    requires 0 < fuel && Inherits(g, first, x, lhs)
    requires OnlyCalled(g, first, f, f', lhs, fuel - 1)
    ensures OnlyCalled(g, first, f, f', x, fuel)
  {
    forall y | Get(f', y) != Get(f, y) ensures CallsWithin(g, first, x, y, fuel) {
      assert CallsWithin(g, first, lhs, y, fuel - 1);
    }
  }

  /** When that call returns, it has left FOLLOW(x) as it was. */
  lemma InheritedKeeps(g: Grammar, first: SetMap, f: SetMap, f': SetMap, x: Symbol, lhs: Symbol, fuel: nat)
    requires 0 < fuel && Inherits(g, first, x, lhs) && FollowSpec(g, first, lhs, fuel - 1).Some?
    requires OnlyCalled(g, first, f, f', lhs, fuel - 1)
    ensures Get(f', x) == Get(f, x)
  {
    NoReentry(g, first, x, lhs, fuel - 1, fuel - 1);
  }

  /** The state of one `compute_follow` call. */
  class FollowBuilder {
    const g: Grammar
    const first: SetMap
    var follow: SetMap

    ghost predicate Inv()
      reads this
    {
      TableOk(g, first, follow)
    }

    /** Lines 49-51: the table, with the end marker in FOLLOW of the start symbol. */
    constructor (g: Grammar, first: SetMap)
      requires |g.nonTerminals| > 0
      ensures this.g == g && this.first == first
      ensures follow == map[g.nonTerminals[0] := {EndMarker}] && Inv()
    {
      this.g := g;
      this.first := first;
      follow := map[g.nonTerminals[0] := {EndMarker}];
    }

    /** The walk of lines 61-74 after the occurrence of `symbol` at `idx`,
        adding to FOLLOW(symbol) as it goes; `falls` is the `while ... else`
        outcome. */
    method WalkAfter(symbol: Symbol, lhs: Symbol, p: Production, idx: nat) returns (falls: bool)
      requires Inv() && lhs in g.nonTerminals && p in Productions(g, lhs) && symbol in p
      requires idx == IndexOf(p, symbol)
      modifies this
      ensures Inv()
      ensures AddsTo(old(follow), follow, symbol, Trailer(g, first, symbol, p).adds)
      ensures falls == Trailer(g, first, symbol, p).falls
    {
      ghost var entry := follow;
      ghost var added: set<Symbol> := {};
      var i := idx;
      falls := true;
      WalkAtStart(g, first, symbol, p);
      while i < |p| - 1
        invariant idx <= i < |p|
        invariant AddsTo(entry, follow, symbol, added)
        invariant falls
        invariant WalkAt(g, first, symbol, p, i, added)
        invariant Inv()
      {
        i := i + 1;
        var stop;
        stop, added := WalkSymbol(symbol, lhs, p, i, entry, added);
        if stop {
          falls := false;
          break;
        }
      }
      if falls {
        WalkAtEnd(g, first, symbol, p, added);
      }
    }

    /** One symbol `p[i]` of the walk of lines 62-72: its FIRST set without
        epsilon, or the terminal itself, joins FOLLOW(symbol); `stop` is the
        `break`. */
    method WalkSymbol(symbol: Symbol, lhs: Symbol, p: Production, i: nat, ghost entry: SetMap, ghost added: set<Symbol>)
      returns (stop: bool, ghost added': set<Symbol>)
      requires Inv() && lhs in g.nonTerminals && p in Productions(g, lhs) && symbol in p
      requires 0 < i < |p| && WalkAt(g, first, symbol, p, i - 1, added)
      requires AddsTo(entry, follow, symbol, added)
      modifies this
      ensures Inv() && AddsTo(entry, follow, symbol, added')
      ensures stop ==> Trailer(g, first, symbol, p) == Walk(added', false)
      ensures !stop ==> WalkAt(g, first, symbol, p, i, added')
    {
      var next := p[i];
      var extra: set<Symbol>;
      if next !in g.nonTerminals {
        extra := {next};
        stop := true;
      } else {
        extra := Get(first, next) - {Epsilon};
        stop := Epsilon !in Get(first, next);
      }
      WalkAtStep(g, first, symbol, p, i - 1, added);
      WalkJustified(g, first, symbol, lhs, p, extra);
      AddJustified(g, first, follow, symbol, extra);
      AddsToAdd(entry, follow, symbol, added, extra);
      follow := Add(follow, symbol, extra);
      added' := added + extra;
    }

    /** `find_follow` (lines 54-80): every production of every nonterminal
        is scanned for `symbol`; the result is the table's FOLLOW(symbol)
        afterwards, or `None` once the recursion is deeper than `fuel`. */
    method FindFollow(symbol: Symbol, fuel: nat) returns (r: Option<set<Symbol>>)
      requires Inv()
      modifies this
      decreases fuel, 3
      ensures Inv() && Grows(old(follow), follow)
      ensures OnlyCalled(g, first, old(follow), follow, symbol, fuel)
      ensures r == FollowSpec(g, first, symbol, fuel)
      ensures r.Some? ==> Get(follow, symbol) == r.value
    {
      if fuel == 0 {
        return None;
      }
      ghost var entry := follow;
      var i := 0;
      while i < |g.nonTerminals|
        invariant 0 <= i <= |g.nonTerminals|
        invariant Inv() && Grows(entry, follow)
        invariant OnlyCalled(g, first, entry, follow, symbol, fuel)
        invariant LhsFold(g, first, symbol, fuel, i).Some?
        invariant LhsFold(g, first, symbol, fuel, i).value <= Get(follow, symbol)
      {
        ghost var before := follow;
        var ok := ScanRules(symbol, g.nonTerminals[i], fuel);
        if !ok {
          LhsFoldFails(g, first, symbol, fuel, i + 1);
          LhsFoldGrowsFails(g, first, symbol, fuel, i + 1, |g.nonTerminals|);
          return None;
        }
        GrowsGet(before, follow, symbol);
        GrowsTransitive(entry, before, follow);
        LhsFoldStep(g, first, symbol, fuel, i, Get(follow, symbol));
        i := i + 1;
      }
      FoldComplete(g, first, follow, symbol, fuel);
      r := Some(Get(follow, symbol));
    }

    /** The loop of lines 56-78 over the productions of one left-hand side
        `lhs`: `ok` is false where a recursive call would not return. */
    method ScanRules(symbol: Symbol, lhs: Symbol, fuel: nat) returns (ok: bool)
      requires Inv() && 0 < fuel && lhs in g.nonTerminals
      modifies this
      decreases fuel, 2
      ensures Inv() && Grows(old(follow), follow)
      ensures OnlyCalled(g, first, old(follow), follow, symbol, fuel)
      ensures ok == ProdFold(g, first, symbol, fuel, lhs, |Productions(g, lhs)|).Some?
      ensures ok ==> (Get(follow, symbol) ==
        Get(old(follow), symbol) + ProdFold(g, first, symbol, fuel, lhs, |Productions(g, lhs)|).value)
    {
      var ps := Productions(g, lhs);
      var j := 0;
      while j < |ps|
        invariant 0 <= j <= |ps|
        invariant Inv() && Grows(old(follow), follow)
        invariant OnlyCalled(g, first, old(follow), follow, symbol, fuel)
        invariant ProdFold(g, first, symbol, fuel, lhs, j).Some?
        invariant Get(follow, symbol) == Get(old(follow), symbol) + ProdFold(g, first, symbol, fuel, lhs, j).value
      {
        ghost var before := follow;
        var okHere := ScanProduction(symbol, lhs, ps[j], fuel);
        if !okHere {
          ProdFoldFails(g, first, symbol, fuel, lhs, j + 1);
          return false;
        }
        GrowsTransitive(old(follow), before, follow);
        j := j + 1;
      }
      return true;
    }

    /** The body of the inner loop of lines 56-78 for one production:
        `ok` is false where the recursive call would not return. */
    method ScanProduction(symbol: Symbol, lhs: Symbol, p: Production, fuel: nat) returns (ok: bool)
      requires Inv() && 0 < fuel && lhs in g.nonTerminals && p in Productions(g, lhs)
      modifies this
      decreases fuel, 1
      ensures Inv() && Grows(old(follow), follow)
      ensures OnlyCalled(g, first, old(follow), follow, symbol, fuel)
      ensures ok == Contribution(g, first, symbol, fuel, lhs, p).Some?
      ensures ok ==> Get(follow, symbol) == Get(old(follow), symbol) + Contribution(g, first, symbol, fuel, lhs, p).value
    {
      ok := true;
      if symbol in p {
        var idx := IndexOf(p, symbol);
        ghost var entry := follow;
        var falls := WalkAfter(symbol, lhs, p, idx);
        AddsToGrows(entry, follow, symbol, Trailer(g, first, symbol, p).adds);
        if falls && lhs != symbol {
          ghost var walked := follow;
          ok := InheritFollow(symbol, lhs, p, fuel);
          GrowsTransitive(entry, walked, follow);
        }
      }
    }

    /** Lines 76-78: where the walk after `symbol` in `lhs -> p` falls off
        the end, FOLLOW(lhs) joins FOLLOW(symbol); `ok` is false where the
        call `find_follow(lhs)` would not return. That call cannot change
        FOLLOW(symbol) itself: a call that re-entered `find_follow(symbol)`
        would never return (`NoReentry`). */
    method InheritFollow(symbol: Symbol, lhs: Symbol, p: Production, fuel: nat) returns (ok: bool)
      requires Inv() && 0 < fuel && lhs in g.nonTerminals && p in Productions(g, lhs)
      requires symbol in p && Trailer(g, first, symbol, p).falls && lhs != symbol
      modifies this
      decreases fuel, 0
      ensures Inv() && Grows(old(follow), follow)
      ensures OnlyCalled(g, first, old(follow), follow, symbol, fuel)
      ensures ok == FollowSpec(g, first, lhs, fuel - 1).Some?
      ensures ok ==> Get(follow, symbol) == Get(old(follow), symbol) + FollowSpec(g, first, lhs, fuel - 1).value
    {
      assert Inherits(g, first, symbol, lhs);
      var inherited := FindFollow(lhs, fuel - 1);
      InheritedFrame(g, first, old(follow), follow, symbol, lhs, fuel);
      if inherited.None? {
        return false;
      }
      InheritedKeeps(g, first, old(follow), follow, symbol, lhs, fuel);
      InheritedJustified(g, first, symbol, lhs, p, fuel - 1);
      AddJustified(g, first, follow, symbol, inherited.value);
      follow := Add(follow, symbol, inherited.value);
      ok := true;
    }
  }

  lemma ProdFoldFails(g: Grammar, first: SetMap, x: Symbol, fuel: nat, lhs: Symbol, m: nat)
    requires 0 < fuel && 0 < m <= |Productions(g, lhs)|
    requires Contribution(g, first, x, fuel, lhs, Productions(g, lhs)[m - 1]).None?
    ensures forall m' :: m <= m' <= |Productions(g, lhs)| ==> ProdFold(g, first, x, fuel, lhs, m').None?
  {
    forall m' | m <= m' <= |Productions(g, lhs)| ensures ProdFold(g, first, x, fuel, lhs, m').None? {
      ProdFoldTail(g, first, x, fuel, lhs, m, m');
    }
  }

  lemma {:induction false} ProdFoldTail(g: Grammar, first: SetMap, x: Symbol, fuel: nat, lhs: Symbol, m: nat, m': nat)
    requires 0 < fuel && 0 < m <= m' <= |Productions(g, lhs)|
    requires Contribution(g, first, x, fuel, lhs, Productions(g, lhs)[m - 1]).None?
    ensures ProdFold(g, first, x, fuel, lhs, m').None?
    decreases m'
  {
    if m' > m {
      ProdFoldTail(g, first, x, fuel, lhs, m, m' - 1);
    }
  }

  lemma LhsFoldFails(g: Grammar, first: SetMap, x: Symbol, fuel: nat, n: nat)
    requires 0 < fuel && 0 < n <= |g.nonTerminals|
    requires ProdFold(g, first, x, fuel, g.nonTerminals[n - 1], |Productions(g, g.nonTerminals[n - 1])|).None?
    ensures LhsFold(g, first, x, fuel, n).None?
  {
  }

  lemma {:induction false} LhsFoldGrowsFails(g: Grammar, first: SetMap, x: Symbol, fuel: nat, n: nat, n': nat)
    requires 0 < fuel && n <= n' <= |g.nonTerminals| && LhsFold(g, first, x, fuel, n).None?
    ensures LhsFold(g, first, x, fuel, n').None?
    decreases n'
  {
    if n' > n {
      LhsFoldGrowsFails(g, first, x, fuel, n, n' - 1);
    }
  }

  /** `compute_follow` (lines 48-86): `find_follow` for every nonterminal in
      declaration order. `None` is the source's failure: an empty grammar
      (`non_terminals[0]` raises) or a recursion deeper than `fuel`. On
      success every FOLLOW set is the completed one, so it holds the start
      marker for the start symbol and everything `FollowSpecHolds` lists,
      and nothing `Justified` does not allow. */
  method ComputeFollow(g: Grammar, first: SetMap, fuel: nat) returns (result: Option<SetMap>)
    ensures result.Some? ==>
      && |g.nonTerminals| > 0
      && forall x :: x in g.nonTerminals ==>
           FollowSpec(g, first, x, fuel).Some? && Get(result.value, x) == FollowSpec(g, first, x, fuel).value
    ensures result.Some? ==> EndMarker in Get(result.value, g.nonTerminals[0])
    ensures result.None? ==>
      |g.nonTerminals| == 0 || exists x :: x in g.nonTerminals && FollowSpec(g, first, x, fuel).None?
  {
    if |g.nonTerminals| == 0 {
      return None;
    }
    var b := new FollowBuilder(g, first);
    var i := 0;
    while i < |g.nonTerminals|
      invariant 0 <= i <= |g.nonTerminals|
      invariant b.g == g && b.first == first && b.Inv()
      invariant forall k :: 0 <= k < i ==>
        FollowSpec(g, first, g.nonTerminals[k], fuel).Some? &&
        FollowSpec(g, first, g.nonTerminals[k], fuel).value <= Get(b.follow, g.nonTerminals[k])
    {
      ghost var before := b.follow;
      var r := b.FindFollow(g.nonTerminals[i], fuel);
      if r.None? {
        return None;
      }
      forall k | 0 <= k < i
        ensures FollowSpec(g, first, g.nonTerminals[k], fuel).value <= Get(b.follow, g.nonTerminals[k])
      {
        GrowsGet(before, b.follow, g.nonTerminals[k]);
      }
      i := i + 1;
    }
    forall x | x in g.nonTerminals
      ensures FollowSpec(g, first, x, fuel).Some? && Get(b.follow, x) == FollowSpec(g, first, x, fuel).value
    {
      var k :| 0 <= k < |g.nonTerminals| && g.nonTerminals[k] == x;
      TableWithinSpec(g, first, b.follow, x, fuel);
    }
    result := Some(b.follow);
  }

  // -------------------------------------------------------------------
  // Divergence on S -> A, A -> a B, B -> b A.

  /** A grammar where `A` and `B` each end a production of the other. */
  function MutualTrailGrammar(): Grammar
  {
    Grammar(["S", "A", "B"], map["S" := [["A"]], "A" := [["a", "B"]], "B" := [["b", "A"]]])
  }

  /** `find_follow("A")` calls `find_follow("B")` (A ends `B -> b A`), which
      calls `find_follow("A")` (B ends `A -> a B`): no amount of fuel
      completes either set, so `ComputeFollow` answers `None` for every fuel,
      where the source exhausts its recursion limit. */
  lemma {:induction false} MutualTrailDiverges(first: SetMap, k: nat)
    ensures FollowSpec(MutualTrailGrammar(), first, "A", k).None?
    ensures FollowSpec(MutualTrailGrammar(), first, "B", k).None?
  {
    if k > 0 {
      var g := MutualTrailGrammar();
      MutualTrailDiverges(first, k - 1);
      assert Productions(g, "B") == [["b", "A"]] && Productions(g, "A") == [["a", "B"]];
      var pb: Production := ["b", "A"];
      var pa: Production := ["a", "B"];
      assert IndexOf(pb, "A") == 1 && pb[2..] == [];
      assert Trailer(g, first, "A", pb) == Walk({}, true);
      assert Contribution(g, first, "A", k, "B", pb).None?;
      assert ProdFold(g, first, "A", k, "B", 1).None?;
      assert LhsFold(g, first, "A", k, 3).None?;
      assert IndexOf(pa, "B") == 1 && pa[2..] == [];
      assert Trailer(g, first, "B", pa) == Walk({}, true);
      assert Contribution(g, first, "B", k, "A", pa).None?;
      assert ProdFold(g, first, "B", k, "A", 1).None?;
      assert LhsFold(g, first, "B", k, 2).None?;
      LhsFoldGrowsFails(g, first, "B", k, 2, 3);
    }
  }

  // -------------------------------------------------------------------
  // Only the first occurrence: S -> A b A c, A -> a.

  function RepeatGrammar(): Grammar
  {
    Grammar(["S", "A"], map["S" := [["A", "b", "A", "c"]], "A" := [["a"]]])
  }

  /** `production.index` (line 58) finds only the first `A` of `A b A c`,
      so the `c` after the second `A` never reaches FOLLOW(A). */
  lemma RepeatFirstOccurrence(first: SetMap, k: nat)
    requires 0 < k
    ensures FollowSpec(RepeatGrammar(), first, "A", k) == Some({"b"})
  {
    var g := RepeatGrammar();
    var ps: Production := ["A", "b", "A", "c"];
    assert Productions(g, "S") == [ps] && Productions(g, "A") == [["a"]];
    assert IndexOf(ps, "A") == 0 && ps[1..][0] == "b";
    assert Trailer(g, first, "A", ps) == Walk({"b"}, false);
    assert Contribution(g, first, "A", k, "S", ps) == Some({"b"});
    assert Contribution(g, first, "A", k, "A", ["a"]) == Some({});
    assert ProdFold(g, first, "A", k, "S", 0) == Some({}) && ProdFold(g, first, "A", k, "A", 0) == Some({});
    assert Productions(g, "S")[0] == ps && {} + {"b"} == {"b"};
    assert Productions(g, "A")[0] == ["a"] && {"b"} + {} == {"b"};
    assert g.nonTerminals[0] == "S" && g.nonTerminals[1] == "A";
    assert ProdFold(g, first, "A", k, "S", 1) == Some({"b"});
    var none: set<Symbol> := {};
    assert none + none == none;
    assert ProdFold(g, first, "A", k, "A", 1) == Some(none);
    assert LhsFold(g, first, "A", k, 1) == Some({"b"});
    assert LhsFold(g, first, "A", k, 2) == Some({"b"});
  }
}
