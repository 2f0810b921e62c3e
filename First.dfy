/** `compute_first`: the memoised recursive computation of FIRST sets into a
    shared `defaultdict(set)`. A nonterminal is keyed with an empty set
    before its productions are visited, so each one is expanded at most once
    and the recursion ends even on left-recursive grammars. */
module FirstSets {
  import opened Symbols

  /** What `find_first(x)` returns once `x` has been keyed (lines 12-13 and 39). */
  function Fst(g: Grammar, f: SetMap, x: Symbol): set<Symbol>
  {
    if x !in g.nonTerminals || x == Epsilon then {x} else Get(f, x)
  }

  /** What the walk of lines 31-37 adds for the symbols after the head. */
  function TailFirst(g: Grammar, f: SetMap, rest: seq<Symbol>): set<Symbol>
    decreases |rest|
  {
    if rest == [] then {Epsilon}
    else (Fst(g, f, rest[0]) - {Epsilon}) +
         (if Epsilon in Fst(g, f, rest[0]) then TailFirst(g, f, rest[1..]) else {})
  }

  /** What one production adds to the FIRST set of its left-hand side
      (lines 19-37): only the first character of a lower-case head; otherwise
      the head's whole FIRST set, then the tail walk when the head's table
      entry holds epsilon. */
  function ProductionFirst(g: Grammar, f: SetMap, p: Production): set<Symbol>
  {
    if |p| == 0 then {}
    else if IsLower(p[0]) then {[p[0][0]]}
    else Fst(g, f, p[0]) + (if Epsilon in Get(f, p[0]) then TailFirst(g, f, p[1..]) else {})
  }

  /** The union of what a list of productions adds. */
  function Contributions(g: Grammar, f: SetMap, ps: seq<Production>): set<Symbol>
  {
    if ps == [] then {} else ProductionFirst(g, f, ps[0]) + Contributions(g, f, ps[1..])
  }

  /** Every key of the table is a declared nonterminal. */
  ghost predicate KeysIn(g: Grammar, f: SetMap)
  {
    forall k :: k in f ==> k in g.nonTerminals
  }

  /** Soundness: everything in a FIRST set is put there by one of the
      nonterminal's productions, read against the current table. */
  ghost predicate Sound(g: Grammar, f: SetMap)
  {
    forall n :: n in f ==> f[n] <= Contributions(g, f, Productions(g, n))
  }

  /** The sets of `f` outside `z` are kept unchanged in `f'`. */
  ghost predicate Frozen(f: SetMap, f': SetMap, z: set<Symbol>)
  {
    forall k :: k in f && k !in z ==> k in f' && f'[k] == f[k]
  }

  /** The facts about one production that no later growth can undo: the
      character a lower-case head contributes, or a head that is not a
      declared nonterminal. */
  ghost predicate HeadFact(g: Grammar, f: SetMap, n: Symbol, p: Production)
  {
    |p| > 0 ==>
      (IsLower(p[0]) ==> [p[0][0]] in Get(f, n)) &&
      (!IsLower(p[0]) && p[0] !in g.nonTerminals ==> p[0] in Get(f, n))
  }

  ghost predicate HeadFacts(g: Grammar, f: SetMap, n: Symbol)
  {
    forall p :: p in Productions(g, n) ==> HeadFact(g, f, n, p)
  }

  // ---------------------------------------------------------------------
  // Settled symbols: those whose entry will not change under a frozen table.

  ghost predicate SymSettled(g: Grammar, f: SetMap, x: Symbol)
  {
    x !in g.nonTerminals || x == Epsilon || x in f
  }

  /** Every symbol the tail walk reads is settled. */
  ghost predicate TailSettled(g: Grammar, f: SetMap, rest: seq<Symbol>)
    decreases |rest|
  {
    rest == [] ||
    (SymSettled(g, f, rest[0]) && (Epsilon in Fst(g, f, rest[0]) ==> TailSettled(g, f, rest[1..])))
  }

  /** Every symbol `ProductionFirst` reads is settled. */
  ghost predicate ProductionSettled(g: Grammar, f: SetMap, p: Production)
  {
    |p| == 0 || IsLower(p[0]) ||
    (SymSettled(g, f, p[0]) && (Epsilon in Get(f, p[0]) ==> TailSettled(g, f, p[1..])))
  }

  /** A nonterminal whose FIRST set holds everything its productions add. */
  ghost predicate Done(g: Grammar, f: SetMap, n: Symbol)
  {
    forall p :: p in Productions(g, n) ==>
      ProductionSettled(g, f, p) && ProductionFirst(g, f, p) <= Get(f, n)
  }

  // ---------------------------------------------------------------------
  // Which sets can come to hold `e`.

  /** A production can put `e` into its left-hand side's set once the
      nonterminals of `s` hold it: through a lower-case head whose first
      character is `e` (line 23 adds only that character), or through a head
      from `s`, whose whole set line 27 adds. The walk of lines 31-37 adds
      `e` only after such a head. */
  predicate HeadMayAddEpsilon(s: set<Symbol>, p: Production)
  {
    |p| > 0 && (if IsLower(p[0]) then [p[0][0]] == Epsilon else p[0] in s)
  }

  /** Every nonterminal with a production that can add `e` from `s` is in `s`. */
  ghost predicate EpsilonClosed(g: Grammar, s: set<Symbol>)
  {
    forall n, p :: n in g.rules && p in g.rules[n] && HeadMayAddEpsilon(s, p) ==> n in s
  }

  /** The nonterminals whose FIRST set can come to hold `e`: the least
      closed set. */
  ghost function Nullable(g: Grammar): set<Symbol>
  {
    set n | n in g.rules && forall s {:trigger EpsilonClosed(g, s)} :: EpsilonClosed(g, s) ==> n in s
  }

  lemma NullableClosed(g: Grammar)
    ensures EpsilonClosed(g, Nullable(g))
  {
    forall n, p | n in g.rules && p in g.rules[n] && HeadMayAddEpsilon(Nullable(g), p)
      ensures n in Nullable(g)
    {
      forall s | EpsilonClosed(g, s) ensures n in s {
        assert HeadMayAddEpsilon(s, p);
      }
    }
  }

  /** Only nonterminals of `Nullable(g)` hold `e` in the table. */
  ghost predicate EpsilonSound(g: Grammar, f: SetMap)
  {
    forall n :: n in f && Epsilon in f[n] ==> n in Nullable(g)
  }

  /** A production whose head adds `e` makes its left-hand side nullable. */
  lemma HeadAddsEpsilon(g: Grammar, f: SetMap, top: Symbol, p: Production)
    requires EpsilonSound(g, f) && p in Productions(g, top) && |p| > 0
    requires if IsLower(p[0]) then [p[0][0]] == Epsilon else Epsilon in Get(f, p[0])
    ensures top in Nullable(g)
  {
    NullableClosed(g);
    assert HeadMayAddEpsilon(Nullable(g), p);
  }

  lemma AddKeepsEpsilonSound(g: Grammar, f: SetMap, n: Symbol, extra: set<Symbol>)
    requires EpsilonSound(g, f) && (Epsilon in extra ==> n in Nullable(g))
    ensures EpsilonSound(g, Add(f, n, extra))
  {
  }

  /** The symbols after a head that the walk of lines 31-35 can get to: it
      passes `e` and the nonterminals that can hold `e`, so it reaches up to
      and including the first other symbol. */
  ghost function Reach(g: Grammar, rest: seq<Symbol>): seq<Symbol>
    decreases |rest|
  {
    if rest == [] then []
    else if rest[0] == Epsilon || (rest[0] in g.nonTerminals && rest[0] in Nullable(g)) then
      [rest[0]] + Reach(g, rest[1..])
    else [rest[0]]
  }

  /** The symbols `find_first` can be called on while one production is
      expanded: none for a lower-case head (lines 22-24); any other head
      (line 27); and, after a head whose set can hold `e` (line 30 reads the
      table, which holds only nonterminals), the symbols the walk can get
      to. */
  ghost function Reads(g: Grammar, p: Production): seq<Symbol>
  {
    if |p| == 0 || IsLower(p[0]) then []
    else if p[0] in g.nonTerminals && p[0] in Nullable(g) then [p[0]] + Reach(g, p[1..])
    else [p[0]]
  }

  lemma {:induction false} ReachWithin(g: Grammar, rest: seq<Symbol>)
    ensures forall x :: x in Reach(g, rest) ==> x in rest
    decreases |rest|
  {
    if rest != [] {
      ReachWithin(g, rest[1..]);
      forall x | x in rest[1..] ensures x in rest {
        var k :| 0 <= k < |rest[1..]| && rest[1..][k] == x;
        assert rest[k + 1] == x;
      }
    }
  }

  /** A production reads only its own symbols. */
  lemma ReadsWithin(g: Grammar, p: Production)
    ensures forall x :: x in Reads(g, p) ==> x in p
  {
    if |p| > 0 && !IsLower(p[0]) {
      ReachWithin(g, p[1..]);
      forall x | x in p[1..] ensures x in p {
        var k :| 0 <= k < |p[1..]| && p[1..][k] == x;
        assert p[k + 1] == x;
      }
    }
  }

  /** No nonterminal reads its own FIRST set while it is being expanded:
      every nonterminal a production reads ranks strictly below the
      production's left-hand side. Right recursion, and any recursion
      behind a symbol whose set cannot hold `e`, is allowed. */
  ghost predicate Ranked(g: Grammar, rank: map<Symbol, nat>)
  {
    && (forall n :: n in g.nonTerminals ==> n in rank)
    && (forall n, p, x :: n in g.rules && p in g.rules[n] && x in Reads(g, p) && x in g.nonTerminals ==>
          n in rank && x in rank && rank[x] < rank[n])
  }

  /** A symbol the walk gets to after passing only `e` and nullable
      nonterminals is one it can reach. */
  lemma {:induction false} ReachIndex(g: Grammar, rest: seq<Symbol>, i: nat)
    requires i < |rest|
    requires forall k :: 0 <= k < i ==> rest[k] == Epsilon || (rest[k] in g.nonTerminals && rest[k] in Nullable(g))
    ensures rest[i] in Reach(g, rest)
    decreases i
  {
    if i > 0 {
      assert rest[1..][i - 1] == rest[i];
      ReachIndex(g, rest[1..], i - 1);
    }
  }

  // ---------------------------------------------------------------------
  // Monotonicity: everything above only grows with the table.

  lemma {:induction false} TailFirstGrows(g: Grammar, f: SetMap, f': SetMap, rest: seq<Symbol>)
    requires Grows(f, f')
    ensures TailFirst(g, f, rest) <= TailFirst(g, f', rest)
    decreases |rest|
  {
    if rest != [] {
      GrowsGet(f, f', rest[0]);
      TailFirstGrows(g, f, f', rest[1..]);
    }
  }

  lemma ProductionFirstGrows(g: Grammar, f: SetMap, f': SetMap, p: Production)
    requires Grows(f, f')
    ensures ProductionFirst(g, f, p) <= ProductionFirst(g, f', p)
  {
    if |p| > 0 && !IsLower(p[0]) {
      GrowsGet(f, f', p[0]);
      TailFirstGrows(g, f, f', p[1..]);
    }
  }

  lemma {:induction false} ContributionsGrow(g: Grammar, f: SetMap, f': SetMap, ps: seq<Production>)
    requires Grows(f, f')
    ensures Contributions(g, f, ps) <= Contributions(g, f', ps)
  {
    if ps != [] {
      ProductionFirstGrows(g, f, f', ps[0]);
      ContributionsGrow(g, f, f', ps[1..]);
    }
  }

  lemma {:induction false} ContributionsMember(g: Grammar, f: SetMap, ps: seq<Production>, p: Production)
    requires p in ps
    ensures ProductionFirst(g, f, p) <= Contributions(g, f, ps)
  {
    if ps[0] != p {
      ContributionsMember(g, f, ps[1..], p);
    }
  }

  lemma {:induction false} ContributionsBounded(g: Grammar, f: SetMap, ps: seq<Production>, s: set<Symbol>)
    requires forall p :: p in ps ==> ProductionFirst(g, f, p) <= s
    ensures Contributions(g, f, ps) <= s
  {
    if ps != [] {
      ContributionsBounded(g, f, ps[1..], s);
    }
  }

  /** Adding to one set what that set's productions justify keeps the table sound. */
  lemma AddKeepsSound(g: Grammar, f: SetMap, n: Symbol, extra: set<Symbol>)
    requires Sound(g, f) && n in f
    requires extra <= Contributions(g, f, Productions(g, n))
    ensures Sound(g, Add(f, n, extra))
  {
    var f' := Add(f, n, extra);
    assert Grows(f, f');
    forall m | m in f' ensures f'[m] <= Contributions(g, f', Productions(g, m)) {
      ContributionsGrow(g, f, f', Productions(g, m));
    }
  }

  /** The tail walk passes a symbol's FIRST set (less epsilon) on when every
      symbol before it is nullable. */
  lemma {:induction false} TailFirstReaches(g: Grammar, f: SetMap, rest: seq<Symbol>, k: nat)
    requires k < |rest|
    requires forall i :: 0 <= i < k ==> Epsilon in Fst(g, f, rest[i])
    ensures Fst(g, f, rest[k]) - {Epsilon} <= TailFirst(g, f, rest)
  {
    if k > 0 {
      TailFirstReaches(g, f, rest[1..], k - 1);
    }
  }

  /** The tail walk yields epsilon when every symbol is nullable. */
  lemma {:induction false} TailFirstExhausted(g: Grammar, f: SetMap, rest: seq<Symbol>)
    requires forall i :: 0 <= i < |rest| ==> Epsilon in Fst(g, f, rest[i])
    ensures Epsilon in TailFirst(g, f, rest)
  {
    if rest != [] {
      TailFirstExhausted(g, f, rest[1..]);
    }
  }

  /** A tail walk whose every visited symbol was added, stopping at `k`
      (a non-nullable symbol, or the end once epsilon was added), is settled
      and contained in `s`. */
  lemma {:induction false} TailFirstClosed(g: Grammar, f: SetMap, rest: seq<Symbol>, k: nat, s: set<Symbol>)
    requires k <= |rest|
    requires forall i :: 0 <= i < k ==>
      SymSettled(g, f, rest[i]) && Epsilon in Fst(g, f, rest[i]) && Fst(g, f, rest[i]) - {Epsilon} <= s
    requires k < |rest| ==>
      SymSettled(g, f, rest[k]) && Epsilon !in Fst(g, f, rest[k]) && Fst(g, f, rest[k]) <= s
    requires k == |rest| ==> Epsilon in s
    ensures TailSettled(g, f, rest) && TailFirst(g, f, rest) <= s
  {
    if rest != [] && k > 0 {
      TailFirstClosed(g, f, rest[1..], k - 1, s);
    }
  }

  // ---------------------------------------------------------------------
  // Stability: what a settled production adds does not change while the
  // sets it reads stay frozen.

  lemma {:induction false} TailFirstStable(g: Grammar, f: SetMap, f': SetMap, rest: seq<Symbol>, z: set<Symbol>)
    requires EpsilonSound(g, f)
    requires TailSettled(g, f, rest) && Frozen(f, f', z)
    requires forall x :: x in Reach(g, rest) ==> x !in z
    ensures TailSettled(g, f', rest) && TailFirst(g, f', rest) == TailFirst(g, f, rest)
    decreases |rest|
  {
    if rest != [] {
      assert rest[0] in Reach(g, rest);
      assert Fst(g, f', rest[0]) == Fst(g, f, rest[0]);
      if Epsilon in Fst(g, f, rest[0]) {
        assert Reach(g, rest) == [rest[0]] + Reach(g, rest[1..]);
        forall x | x in Reach(g, rest[1..]) ensures x !in z {
          assert x in Reach(g, rest);
        }
        TailFirstStable(g, f, f', rest[1..], z);
      }
    }
  }

  lemma ProductionFirstStable(g: Grammar, f: SetMap, f': SetMap, p: Production, z: set<Symbol>)
    requires EpsilonSound(g, f)
    requires KeysIn(g, f) && KeysIn(g, f')
    requires ProductionSettled(g, f, p) && Frozen(f, f', z)
    requires forall x :: x in Reads(g, p) ==> x !in z
    ensures ProductionSettled(g, f', p) && ProductionFirst(g, f', p) == ProductionFirst(g, f, p)
  {
    if |p| > 0 && !IsLower(p[0]) {
      assert p[0] in Reads(g, p);
      assert IsLower(Epsilon) by { assert IsLowerChar(Epsilon[0]); }
      assert Get(f', p[0]) == Get(f, p[0]);
      if Epsilon in Get(f, p[0]) {
        assert Reads(g, p) == [p[0]] + Reach(g, p[1..]);
        forall x | x in Reach(g, p[1..]) ensures x !in z {
          assert x in Reads(g, p);
        }
        TailFirstStable(g, f, f', p[1..], z);
      }
    }
  }

  /** A nonterminal stays done while the sets its productions read stay frozen. */
  lemma DoneStable(g: Grammar, f: SetMap, f': SetMap, n: Symbol, z: set<Symbol>)
    requires EpsilonSound(g, f)
    requires KeysIn(g, f) && KeysIn(g, f')
    requires Done(g, f, n) && n in f && n !in z && Frozen(f, f', z)
    requires forall p, x :: p in Productions(g, n) && x in Reads(g, p) ==> x !in z
    ensures Done(g, f', n)
  {
    forall p | p in Productions(g, n)
      ensures ProductionSettled(g, f', p) && ProductionFirst(g, f', p) <= Get(f', n)
    {
      ProductionFirstStable(g, f, f', p, z);
    }
  }

  /** A ranked grammar's productions read only lower-ranked nonterminals. */
  lemma RankedMention(g: Grammar, rank: map<Symbol, nat>, n: Symbol, p: Production, x: Symbol)
    requires Valid(g) && Ranked(g, rank) && n in g.nonTerminals && p in Productions(g, n)
    requires x in Reads(g, p) && x in g.nonTerminals
    ensures n in rank && x in rank && rank[x] < rank[n] && x != n
  {
    assert n in g.rules;
  }

  /** A table step that keeps every key, grows `top`'s set and freezes the others. */
  ghost predicate StepOk(f: SetMap, f': SetMap, top: Symbol)
  {
    f.Keys <= f'.Keys && Frozen(f, f', {top}) && top in f && top in f' && f[top] <= f'[top]
  }

  lemma StepTransitive(f: SetMap, f': SetMap, f'': SetMap, top: Symbol)
    requires StepOk(f, f', top) && StepOk(f', f'', top)
    ensures StepOk(f, f'', top)
  {
  }

  /** What a `find_first(x)` call that moved the table from `f` to `f'`
      guarantees: nothing changes for a symbol that is not expanded, earlier
      sets are frozen, every nonterminal it keyed has its head facts, a
      newly keyed `x` has taken in everything its productions that do not
      read `x` contribute, and, in a ranked grammar, every nonterminal it
      keyed is done and ranked no higher than `x`. */
  ghost predicate CallOk(g: Grammar, f: SetMap, f': SetMap, x: Symbol, rank: map<Symbol, nat>)
  {
    && KeysIn(g, f') && f.Keys <= f'.Keys && Frozen(f, f', {})
    && (x !in g.nonTerminals || x == Epsilon || x in f ==> f' == f)
    && (forall n :: n in f' && n !in f ==> HeadFacts(g, f', n))
    && (x in f' && x !in f ==> forall p :: p in Productions(g, x) && x !in Reads(g, p) ==>
          ProductionSettled(g, f', p) && ProductionFirst(g, f', p) <= f'[x])
    && (Ranked(g, rank) ==> forall n :: n in f' && n !in f ==>
          Done(g, f', n) && (n == x || (x in rank && rank[n] < rank[x])))
  }

  /** The nonterminals keyed since `entry`, other than `top`, have their head
      facts and, in a ranked grammar, are done and ranked below `top`. */
  ghost predicate NewKeysOk(g: Grammar, f: SetMap, entry: SetMap, top: Symbol, rank: map<Symbol, nat>)
  {
    && (forall n :: n in f && n !in entry && n != top ==> HeadFacts(g, f, n))
    && (Ranked(g, rank) ==> top in rank && forall n :: n in f && n !in entry && n != top ==>
          Done(g, f, n) && n in rank && rank[n] < rank[top])
  }

  lemma NewKeysInitially(g: Grammar, f: SetMap, top: Symbol, rank: map<Symbol, nat>)
    requires Ranked(g, rank) ==> top in rank
    ensures NewKeysOk(g, f, f, top, rank)
  {
  }

  /** Growing `top`'s set keeps the nonterminals keyed since `entry` in order. */
  lemma NewKeysAfterAdd(g: Grammar, rank: map<Symbol, nat>, entry: SetMap, f: SetMap, top: Symbol, extra: set<Symbol>)
    requires EpsilonSound(g, f)
    requires Valid(g) && KeysIn(g, f) && top in f && top in g.nonTerminals
    requires NewKeysOk(g, f, entry, top, rank)
    ensures NewKeysOk(g, Add(f, top, extra), entry, top, rank)
  {
    var f' := Add(f, top, extra);
    assert Grows(f, f');
    AllHeadFactsGrow(g, f, f', set n | n in f && n !in entry && n != top);
    if Ranked(g, rank) {
      forall n | n in f' && n !in entry && n != top
        ensures Done(g, f', n) && rank[n] < rank[top]
      {
        forall p, x | p in Productions(g, n) && x in Reads(g, p) ensures x !in {top} {
          if x in g.nonTerminals {
            RankedMention(g, rank, n, p, x);
          }
        }
        DoneStable(g, f, f', n, {top});
      }
    }
  }

  /** A `find_first(x)` call for a symbol `x` of one of `top`'s productions
      keeps the nonterminals keyed since `entry` in order. */
  lemma NewKeysAfterCall(g: Grammar, rank: map<Symbol, nat>, entry: SetMap, f: SetMap, f': SetMap, top: Symbol, x: Symbol)
    requires EpsilonSound(g, f)
    requires Valid(g) && KeysIn(g, f) && top in f && top in g.nonTerminals
    requires NewKeysOk(g, f, entry, top, rank) && CallOk(g, f, f', x, rank)
    requires Ranked(g, rank) && x in g.nonTerminals ==> x in rank && rank[x] < rank[top]
    ensures NewKeysOk(g, f', entry, top, rank)
  {
    assert Grows(f, f');
    AllHeadFactsGrow(g, f, f', set n | n in f && n !in entry && n != top);
    if Ranked(g, rank) {
      forall n | n in f' && n !in entry && n != top
        ensures Done(g, f', n) && rank[n] < rank[top]
      {
        if n in f {
          DoneStable(g, f, f', n, {});
        }
      }
    }
  }

  /** Two steps that each keep their new keys in order compose. */
  lemma NewKeysCompose(g: Grammar, rank: map<Symbol, nat>, entry: SetMap, f: SetMap, f': SetMap, top: Symbol)
    requires EpsilonSound(g, f)
    requires Valid(g) && KeysIn(g, f) && KeysIn(g, f') && StepOk(f, f', top) && top in g.nonTerminals
    requires NewKeysOk(g, f, entry, top, rank) && NewKeysOk(g, f', f, top, rank)
    ensures NewKeysOk(g, f', entry, top, rank)
  {
    assert Grows(f, f');
    AllHeadFactsGrow(g, f, f', set n | n in f && n !in entry && n != top);
    if Ranked(g, rank) {
      forall n | n in f' && n !in entry && n != top
        ensures Done(g, f', n) && rank[n] < rank[top]
      {
        if n in f {
          forall p, x | p in Productions(g, n) && x in Reads(g, p) ensures x !in {top} {
            if x in g.nonTerminals {
              RankedMention(g, rank, n, p, x);
            }
          }
          DoneStable(g, f, f', n, {top});
        }
      }
    }
  }

  /** In a ranked grammar, nonterminals that are done stay done across a
      call that freezes every set already keyed. */
  lemma DoneKeysStayDone(g: Grammar, f: SetMap, f': SetMap, keys: set<Symbol>)
    requires EpsilonSound(g, f)
    requires KeysIn(g, f) && KeysIn(g, f') && Frozen(f, f', {})
    requires forall n :: n in keys ==> n in f && Done(g, f, n)
    ensures forall n :: n in keys ==> Done(g, f', n)
  {
    forall n | n in keys ensures Done(g, f', n) {
      DoneStable(g, f, f', n, {});
    }
  }

  lemma HeadFactsGrow(g: Grammar, f: SetMap, f': SetMap, n: Symbol)
    requires Grows(f, f') && HeadFacts(g, f, n)
    ensures HeadFacts(g, f', n)
  {
    GrowsGet(f, f', n);
  }

  lemma AllHeadFactsGrow(g: Grammar, f: SetMap, f': SetMap, keys: set<Symbol>)
    requires Grows(f, f')
    requires forall n :: n in keys ==> HeadFacts(g, f, n)
    ensures forall n :: n in keys ==> HeadFacts(g, f', n)
  {
    forall n | n in keys ensures HeadFacts(g, f', n) {
      HeadFactsGrow(g, f, f', n);
    }
  }

  function NonTerminalSet(g: Grammar): set<Symbol>
  {
    set x | x in g.nonTerminals
  }

  lemma StepGrows(f: SetMap, f': SetMap, top: Symbol)
    requires StepOk(f, f', top)
    ensures Grows(f, f')
  {
  }

  /** A call keeps `top`'s set and every other set of the table. */
  lemma CallIsStep(g: Grammar, f: SetMap, f': SetMap, x: Symbol, rank: map<Symbol, nat>, top: Symbol)
    requires CallOk(g, f, f', x, rank) && top in f
    ensures StepOk(f, f', top)
  {
  }

  /** The symbols after the head that the walk has passed: each is settled,
      derives epsilon, and has its FIRST set (less epsilon) inside `top`'s. */
  ghost predicate WalkFacts(g: Grammar, f: SetMap, top: Symbol, rest: seq<Symbol>, i: nat)
    requires top in f && i <= |rest|
  {
    forall k :: 0 <= k < i ==>
      SymSettled(g, f, rest[k]) && Epsilon in Fst(g, f, rest[k]) && Fst(g, f, rest[k]) - {Epsilon} <= f[top]
  }

  /** A step that changes only `top`'s set keeps what the walk has passed:
      those sets are frozen, or the symbol is `top`, whose set only grows. */
  lemma WalkFactsStep(g: Grammar, f: SetMap, f': SetMap, top: Symbol, rest: seq<Symbol>, i: nat)
    requires top in g.nonTerminals && top != Epsilon
    requires StepOk(f, f', top) && i <= |rest| && WalkFacts(g, f, top, rest, i)
    ensures WalkFacts(g, f', top, rest, i)
  {
    forall k | 0 <= k < i
      ensures SymSettled(g, f', rest[k]) && Epsilon in Fst(g, f', rest[k])
      ensures Fst(g, f', rest[k]) - {Epsilon} <= f'[top]
    {
      if rest[k] == top {
        assert Fst(g, f, top) == f[top] && Fst(g, f', top) == f'[top];
      } else {
        assert Fst(g, f', rest[k]) == Fst(g, f, rest[k]);
      }
    }
  }

  lemma WalkFactsExtend(g: Grammar, f: SetMap, top: Symbol, rest: seq<Symbol>, i: nat)
    requires top in f && i < |rest| && WalkFacts(g, f, top, rest, i)
    requires SymSettled(g, f, rest[i])
    requires Epsilon in Fst(g, f, rest[i]) && Fst(g, f, rest[i]) - {Epsilon} <= f[top]
    ensures WalkFacts(g, f, top, rest, i + 1)
  {
  }

  /** The walk stops at a symbol whose FIRST set lacks epsilon. */
  lemma WalkStops(g: Grammar, f: SetMap, top: Symbol, rest: seq<Symbol>, i: nat)
    requires top in f && i < |rest| && WalkFacts(g, f, top, rest, i)
    requires SymSettled(g, f, rest[i]) && Epsilon !in Fst(g, f, rest[i]) && Fst(g, f, rest[i]) - {Epsilon} <= f[top]
    ensures TailSettled(g, f, rest) && TailFirst(g, f, rest) <= f[top]
  {
    TailFirstClosed(g, f, rest, i, f[top]);
  }

  /** The walk passes every symbol and epsilon has been added. */
  lemma WalkEnds(g: Grammar, f: SetMap, top: Symbol, rest: seq<Symbol>)
    requires top in f && WalkFacts(g, f, top, rest, |rest|) && Epsilon in f[top]
    ensures TailSettled(g, f, rest) && TailFirst(g, f, rest) <= f[top]
  {
    TailFirstClosed(g, f, rest, |rest|, f[top]);
  }

  /** A symbol the walk gets to is one the production reads. */
  lemma WalkReads(g: Grammar, f: SetMap, top: Symbol, p: Production, i: nat)
    requires EpsilonSound(g, f)
    requires KeysIn(g, f) && top in f && |p| > 0 && !IsLower(p[0]) && Epsilon in Get(f, p[0])
    requires i < |p[1..]| && WalkFacts(g, f, top, p[1..], i)
    ensures p[1..][i] in Reads(g, p)
  {
    assert p[0] in g.nonTerminals;
    forall k | 0 <= k < i ensures p[1..][k] in g.nonTerminals || p[1..][k] == Epsilon {
      assert Epsilon in Fst(g, f, p[1..][k]);
    }
    ReachIndex(g, p[1..], i);
  }

  /** What the walk adds at position `i` (or epsilon once it falls off the
      end) is part of `TailFirst`, so the table stays sound. */
  lemma WalkAddSound(g: Grammar, f: SetMap, top: Symbol, p: Production, i: nat, extra: set<Symbol>)
    requires Sound(g, f) && top in f && p in Productions(g, top)
    requires |p| > 0 && !IsLower(p[0]) && Epsilon in Get(f, p[0]) && i <= |p[1..]|
    requires WalkFacts(g, f, top, p[1..], i)
    requires extra == if i < |p[1..]| then Fst(g, f, p[1..][i]) - {Epsilon} else {Epsilon}
    ensures extra <= TailFirst(g, f, p[1..])
    ensures Sound(g, Add(f, top, extra))
  {
    if i < |p[1..]| {
      TailFirstReaches(g, f, p[1..], i);
    } else {
      TailFirstExhausted(g, f, p[1..]);
    }
    ContributionsMember(g, f, Productions(g, top), p);
    AddKeepsSound(g, f, top, extra);
  }

  /** The productions of `top` already expanded stay settled and inside
      `top`'s set while only `top`'s set changes, as long as they do not
      read `top` itself, which a ranking rules out. */
  lemma ExpandedStayDone(g: Grammar, rank: map<Symbol, nat>, f: SetMap, f': SetMap, top: Symbol, j: nat)
    requires EpsilonSound(g, f)
    requires Valid(g) && top in g.nonTerminals
    requires KeysIn(g, f) && KeysIn(g, f') && StepOk(f, f', top) && j <= |Productions(g, top)|
    requires forall k :: 0 <= k < j && (Ranked(g, rank) || top !in Reads(g, Productions(g, top)[k])) ==>
      ProductionSettled(g, f, Productions(g, top)[k]) && ProductionFirst(g, f, Productions(g, top)[k]) <= f[top]
    ensures forall k :: 0 <= k < j && (Ranked(g, rank) || top !in Reads(g, Productions(g, top)[k])) ==>
      ProductionSettled(g, f', Productions(g, top)[k]) && ProductionFirst(g, f', Productions(g, top)[k]) <= f'[top]
  {
    var ps := Productions(g, top);
    forall k | 0 <= k < j && (Ranked(g, rank) || top !in Reads(g, ps[k]))
      ensures ProductionSettled(g, f', ps[k]) && ProductionFirst(g, f', ps[k]) <= f'[top]
    {
      forall x | x in Reads(g, ps[k]) ensures x !in {top} {
        if Ranked(g, rank) && x in g.nonTerminals {
          RankedMention(g, rank, top, ps[k], x);
        }
      }
      ProductionFirstStable(g, f, f', ps[k], {top});
    }
  }

  lemma FinishHeads(g: Grammar, rank: map<Symbol, nat>, entry: SetMap, f: SetMap, symbol: Symbol)
    requires KeyedInv(g, rank, f, entry, symbol, |Productions(g, symbol)|)
    ensures HeadFacts(g, f, symbol)
  {
    var ps := Productions(g, symbol);
    forall p | p in ps ensures HeadFact(g, f, symbol, p) {
      var k :| 0 <= k < |ps| && ps[k] == p;
    }
  }

  /** Once every production of `symbol` is expanded, the call that keyed
      it has done all it promises. */
  lemma FinishCall(g: Grammar, rank: map<Symbol, nat>, entry: SetMap, f: SetMap, symbol: Symbol)
    requires Valid(g) && KeysIn(g, f) && symbol in g.nonTerminals && symbol != Epsilon
    requires KeyedInv(g, rank, f, entry, symbol, |Productions(g, symbol)|)
    ensures CallOk(g, entry, f, symbol, rank)
  {
    var ps := Productions(g, symbol);
    FinishHeads(g, rank, entry, f, symbol);
    forall p | p in ps && (Ranked(g, rank) || symbol !in Reads(g, p))
      ensures ProductionSettled(g, f, p) && ProductionFirst(g, f, p) <= f[symbol]
    {
      var k :| 0 <= k < |ps| && ps[k] == p;
    }
  }

  /** Where the walk over `p`'s tail stands after `i` symbols, relative to
      the table `entry` it started from: `top`'s set has gained nothing
      outside `TailFirst`. */
  ghost predicate WalkInv(g: Grammar, rank: map<Symbol, nat>, f: SetMap, entry: SetMap, top: Symbol, p: Production, i: nat)
  {
    && top in g.nonTerminals && top != Epsilon
    && top in f && |p| > 0 && !IsLower(p[0]) && i <= |p[1..]|
    && StepOk(entry, f, top) && NewKeysOk(g, f, entry, top, rank)
    && Epsilon in Get(f, p[0])
    && WalkFacts(g, f, top, p[1..], i)
    && f[top] <= entry[top] + TailFirst(g, f, p[1..])
  }

  lemma WalkAfterCall(g: Grammar, rank: map<Symbol, nat>, entry: SetMap, f: SetMap, f': SetMap, top: Symbol, p: Production, i: nat)
    requires EpsilonSound(g, f)
    requires Valid(g) && KeysIn(g, f) && p in Productions(g, top)
    requires WalkInv(g, rank, f, entry, top, p, i) && i < |p[1..]|
    requires CallOk(g, f, f', p[1..][i], rank)
    ensures WalkInv(g, rank, f', entry, top, p, i)
  {
    var x := p[1..][i];
    if Ranked(g, rank) && x in g.nonTerminals {
      WalkReads(g, f, top, p, i);
      RankedMention(g, rank, top, p, x);
    }
    CallIsStep(g, f, f', x, rank, top);
    StepTransitive(entry, f, f', top);
    NewKeysAfterCall(g, rank, entry, f, f', top, x);
    StepGrows(f, f', top);
    GrowsGet(f, f', p[0]);
    WalkFactsStep(g, f, f', top, p[1..], i);
    TailFirstGrows(g, f, f', p[1..]);
  }

  lemma WalkAfterAdd(g: Grammar, rank: map<Symbol, nat>, entry: SetMap, f: SetMap, top: Symbol, p: Production, i: nat, extra: set<Symbol>)
    requires EpsilonSound(g, f)
    requires Valid(g) && KeysIn(g, f)
    requires WalkInv(g, rank, f, entry, top, p, i) && extra <= TailFirst(g, f, p[1..])
    ensures WalkInv(g, rank, Add(f, top, extra), entry, top, p, i)
  {
    var f' := Add(f, top, extra);
    assert StepOk(f, f', top);
    StepTransitive(entry, f, f', top);
    NewKeysAfterAdd(g, rank, entry, f, top, extra);
    StepGrows(f, f', top);
    GrowsGet(f, f', p[0]);
    WalkFactsStep(g, f, f', top, p[1..], i);
    TailFirstGrows(g, f, f', p[1..]);
  }

  /** Adding part of a symbol's FIRST set to `top`'s leaves that symbol's
      FIRST set as it was, even when the symbol is `top`. */
  lemma AddedKeepsFst(g: Grammar, f: SetMap, top: Symbol, x: Symbol, extra: set<Symbol>)
    requires extra <= Fst(g, f, x)
    ensures Fst(g, Add(f, top, extra), x) == Fst(g, f, x)
  {
  }

  lemma WalkPasses(g: Grammar, rank: map<Symbol, nat>, entry: SetMap, f: SetMap, top: Symbol, p: Production, i: nat)
    requires WalkInv(g, rank, f, entry, top, p, i) && i < |p[1..]|
    requires SymSettled(g, f, p[1..][i])
    requires Epsilon in Fst(g, f, p[1..][i]) && Fst(g, f, p[1..][i]) - {Epsilon} <= f[top]
    ensures WalkInv(g, rank, f, entry, top, p, i + 1)
  {
    WalkFactsExtend(g, f, top, p[1..], i);
  }

  /** Once the walk has stopped with all of `TailFirst` in `top`'s set,
      that is exactly what the set has gained. */
  lemma WalkFinished(g: Grammar, rank: map<Symbol, nat>, entry: SetMap, f: SetMap, top: Symbol, p: Production, i: nat)
    requires WalkInv(g, rank, f, entry, top, p, i) && TailFirst(g, f, p[1..]) <= f[top]
    ensures f[top] == entry[top] + TailFirst(g, f, p[1..])
  {
  }

  /** The first `find_first` call of a walk step and the addition of its
      result less epsilon (lines 32-33). */
  lemma WalkStepAdd(g: Grammar, rank: map<Symbol, nat>, entry: SetMap, f0: SetMap, f: SetMap, top: Symbol, p: Production, i: nat)
    requires Valid(g) && KeysIn(g, f0) && EpsilonSound(g, f0) && p in Productions(g, top)
    requires WalkInv(g, rank, f0, entry, top, p, i) && i < |p[1..]|
    requires CallOk(g, f0, f, p[1..][i], rank) && Sound(g, f) && EpsilonSound(g, f)
    ensures var f' := Add(f, top, Fst(g, f, p[1..][i]) - {Epsilon});
      && KeysIn(g, f') && Sound(g, f') && EpsilonSound(g, f')
      && WalkInv(g, rank, f', entry, top, p, i)
      && Fst(g, f', p[1..][i]) == Fst(g, f, p[1..][i])
  {
    var x := p[1..][i];
    var next := Fst(g, f, x) - {Epsilon};
    WalkAfterCall(g, rank, entry, f0, f, top, p, i);
    WalkAddSound(g, f, top, p, i, next);
    WalkAfterAdd(g, rank, entry, f, top, p, i, next);
    AddedKeepsFst(g, f, top, x, next);
    AddKeepsEpsilonSound(g, f, top, next);
  }

  /** What expanding one production of `top` leaves behind, relative to
      the table `entry` it started from: `top`'s set has gained exactly
      what the production contributes. */
  ghost predicate ExpandedOk(g: Grammar, rank: map<Symbol, nat>, f: SetMap, entry: SetMap, top: Symbol, p: Production)
  {
    && StepOk(entry, f, top) && NewKeysOk(g, f, entry, top, rank)
    && HeadFact(g, f, top, p) && ProductionSettled(g, f, p)
    && f[top] == entry[top] + ProductionFirst(g, f, p)
  }

  /** A lower-case head adds its first character (lines 22-24). */
  lemma LowerHeadStep(g: Grammar, rank: map<Symbol, nat>, f: SetMap, top: Symbol, p: Production)
    requires Valid(g) && KeysIn(g, f) && Sound(g, f) && top in f && top in g.nonTerminals
    requires p in Productions(g, top) && IsLower(p[0]) && EpsilonSound(g, f)
    ensures |p[0]| > 0
    ensures Sound(g, Add(f, top, {[p[0][0]]})) && EpsilonSound(g, Add(f, top, {[p[0][0]]}))
    ensures ExpandedOk(g, rank, Add(f, top, {[p[0][0]]}), f, top, p)
  {
    IsLowerNonEmpty(p[0]);
    if [p[0][0]] == Epsilon {
      HeadAddsEpsilon(g, f, top, p);
    }
    AddKeepsEpsilonSound(g, f, top, {[p[0][0]]});
    ContributionsMember(g, f, Productions(g, top), p);
    AddKeepsSound(g, f, top, {[p[0][0]]});
    NewKeysInitially(g, f, top, rank);
    NewKeysAfterAdd(g, rank, f, f, top, {[p[0][0]]});
  }

  /** Any other head adds its whole FIRST set (line 27). */
  lemma HeadStep(g: Grammar, rank: map<Symbol, nat>, entry: SetMap, f: SetMap, top: Symbol, p: Production, r: set<Symbol>)
    requires EpsilonSound(g, entry) && EpsilonSound(g, f)
    requires Valid(g) && KeysIn(g, entry) && top in entry && top in g.nonTerminals && top != Epsilon
    requires p in Productions(g, top) && !IsLower(p[0])
    requires CallOk(g, entry, f, p[0], rank) && Sound(g, f) && r == Fst(g, f, p[0])
    requires p[0] in g.nonTerminals && p[0] != Epsilon ==> p[0] in f
    ensures Sound(g, Add(f, top, r)) && KeysIn(g, Add(f, top, r)) && EpsilonSound(g, Add(f, top, r))
    ensures StepOk(entry, Add(f, top, r), top) && NewKeysOk(g, Add(f, top, r), entry, top, rank)
    ensures HeadFact(g, Add(f, top, r), top, p) && SymSettled(g, Add(f, top, r), p[0])
    ensures Add(f, top, r)[top] == entry[top] + Fst(g, Add(f, top, r), p[0])
  {
    var head := p[0];
    if Epsilon in r {
      assert IsLower(Epsilon) by { assert IsLowerChar(Epsilon[0]); }
      HeadAddsEpsilon(g, f, top, p);
    }
    AddKeepsEpsilonSound(g, f, top, r);
    if Ranked(g, rank) && head in g.nonTerminals {
      assert head in Reads(g, p);
      RankedMention(g, rank, top, p, head);
    }
    CallIsStep(g, entry, f, head, rank, top);
    NewKeysInitially(g, entry, top, rank);
    NewKeysAfterCall(g, rank, entry, entry, f, top, head);
    ContributionsMember(g, f, Productions(g, top), p);
    AddKeepsSound(g, f, top, r);
    NewKeysAfterAdd(g, rank, entry, f, top, r);
    assert StepOk(f, Add(f, top, r), top);
    StepTransitive(entry, f, Add(f, top, r), top);
    AddedKeepsFst(g, f, top, head, r);
  }

  /** The production is finished, with or without the tail walk: `top`'s
      set has gained the head's FIRST set and, when the head's entry holds
      epsilon, what the walk adds. */
  lemma HeadFinish(g: Grammar, rank: map<Symbol, nat>, entry: SetMap, f: SetMap, f': SetMap, top: Symbol, p: Production)
    requires EpsilonSound(g, f)
    requires Valid(g) && KeysIn(g, f) && KeysIn(g, f') && top in g.nonTerminals && top != Epsilon
    requires p in Productions(g, top) && !IsLower(p[0])
    requires StepOk(entry, f, top) && NewKeysOk(g, f, entry, top, rank) && HeadFact(g, f, top, p)
    requires SymSettled(g, f, p[0]) && f[top] == entry[top] + Fst(g, f, p[0])
    requires StepOk(f, f', top) && NewKeysOk(g, f', f, top, rank)
    requires Epsilon !in Get(f, p[0]) ==> f' == f
    requires Epsilon in Get(f, p[0]) ==>
      TailSettled(g, f', p[1..]) && f'[top] == f[top] + TailFirst(g, f', p[1..])
    ensures ExpandedOk(g, rank, f', entry, top, p)
  {
    StepTransitive(entry, f, f', top);
    NewKeysCompose(g, rank, entry, f, f', top);
    StepGrows(f, f', top);
    GrowsGet(f, f', top);
    GrowsGet(f, f', p[0]);
    if p[0] == top {
      assert Fst(g, f', p[0]) == f'[top];
    } else {
      assert Fst(g, f', p[0]) == Fst(g, f, p[0]);
    }
  }

  /** Where the loop of lines 18-37 stands after `j` productions of `top`:
      every head fact holds, and every expanded production that does not
      read `top` (each one, in a ranked grammar) is done. */
  ghost predicate KeyedInv(g: Grammar, rank: map<Symbol, nat>, f: SetMap, entry: SetMap, top: Symbol, j: nat)
  {
    && j <= |Productions(g, top)|
    && top in f && top !in entry && entry.Keys + {top} <= f.Keys && Frozen(entry, f, {})
    && NewKeysOk(g, f, entry, top, rank)
    && (forall k :: 0 <= k < j ==> HeadFact(g, f, top, Productions(g, top)[k]))
    && (forall k :: 0 <= k < j && (Ranked(g, rank) || top !in Reads(g, Productions(g, top)[k])) ==>
          ProductionSettled(g, f, Productions(g, top)[k]) &&
          ProductionFirst(g, f, Productions(g, top)[k]) <= f[top])
  }

  /** Keying a new nonterminal with an empty set (line 17). */
  lemma KeyNew(g: Grammar, rank: map<Symbol, nat>, f: SetMap, top: Symbol)
    requires KeysIn(g, f) && Sound(g, f) && top !in f && top in g.nonTerminals
    ensures KeysIn(g, f[top := {}]) && Sound(g, f[top := {}])
    ensures Ranked(g, rank) ==> top in rank
    ensures KeyedInv(g, rank, f[top := {}], f, top, 0)
  {
    var f' := f[top := {}];
    assert Grows(f, f');
    forall m | m in f' ensures f'[m] <= Contributions(g, f', Productions(g, m)) {
      ContributionsGrow(g, f, f', Productions(g, m));
    }
  }

  lemma KeyedStep(g: Grammar, rank: map<Symbol, nat>, entry: SetMap, f: SetMap, f': SetMap, top: Symbol, j: nat)
    requires EpsilonSound(g, f)
    requires Valid(g) && KeysIn(g, f) && KeysIn(g, f') && top in g.nonTerminals
    requires KeyedInv(g, rank, f, entry, top, j) && j < |Productions(g, top)|
    requires ExpandedOk(g, rank, f', f, top, Productions(g, top)[j])
    ensures KeyedInv(g, rank, f', entry, top, j + 1)
  {
    var ps := Productions(g, top);
    NewKeysCompose(g, rank, entry, f, f', top);
    StepGrows(f, f', top);
    GrowsGet(f, f', top);
    ExpandedStayDone(g, rank, f, f', top, j);
    assert ProductionFirst(g, f', ps[j]) <= f'[top];
    forall k | 0 <= k < j + 1 ensures HeadFact(g, f', top, ps[k]) {
      if k < j {
        assert HeadFact(g, f, top, ps[k]);
      }
    }
  }

  /** The state of one `compute_first` call: the grammar and the shared
      `defaultdict(set)` that `find_first` fills in. */
  class FirstBuilder {
    const g: Grammar
    var first: SetMap

    ghost predicate Inv()
      reads this
    {
      Valid(g) && KeysIn(g, first) && Epsilon !in first && Sound(g, first) && EpsilonSound(g, first)
    }

    constructor (g: Grammar)
      requires Valid(g)
      ensures this.g == g && first == map[] && Inv()
    {
      this.g := g;
      first := map[];
    }

    /** `find_first` (lines 10-39): a terminal or `e` is its own FIRST set;
        a nonterminal seen for the first time is keyed with an empty set
        and then every production of it is expanded. Every production of
        the symbol that does not read the symbol itself comes out done; the
        ghost `rank`, when it ranks the grammar, lets the contract say that
        every set keyed by the call comes out complete. */
    method FindFirst(symbol: Symbol, ghost rank: map<Symbol, nat>) returns (r: set<Symbol>)
      requires Inv()
      modifies this
      decreases NonTerminalSet(g) - first.Keys, 0
      ensures Inv() && CallOk(g, old(first), first, symbol, rank)
      ensures r == Fst(g, first, symbol)
      ensures symbol in g.nonTerminals && symbol != Epsilon ==> symbol in first
    {
      if symbol !in g.nonTerminals || symbol == Epsilon {
        return {symbol};
      }
      if symbol !in first {
        ghost var entry := first;
        KeyNew(g, rank, first, symbol);
        first := first[symbol := {}];
        var ps := g.rules[symbol];
        var j := 0;
        while j < |ps|
          invariant 0 <= j <= |ps| && ps == Productions(g, symbol)
          invariant Inv() && KeyedInv(g, rank, first, entry, symbol, j)
        {
          ghost var before := first;
          ExpandProduction(symbol, ps[j], rank);
          KeyedStep(g, rank, entry, before, first, symbol, j);
          j := j + 1;
        }
        FinishCall(g, rank, entry, first, symbol);
      }
      r := first[symbol];
    }

    /** One pass of the loop of lines 18-37 over `production`: the
        symbol's set gains exactly what the production contributes. */
    method ExpandProduction(symbol: Symbol, production: Production, ghost rank: map<Symbol, nat>)
      requires Inv() && symbol in first && symbol in g.nonTerminals && symbol != Epsilon
      requires production in Productions(g, symbol)
      modifies this
      decreases NonTerminalSet(g) - first.Keys, 3
      ensures Inv() && ExpandedOk(g, rank, first, old(first), symbol, production)
      ensures first[symbol] == old(first)[symbol] + ProductionFirst(g, first, production)
    {
      assert symbol in g.rules;
      var head := production[0];
      ghost var entry := first;
      if IsLower(head) {
        LowerHeadStep(g, rank, first, symbol, production);
        first := Add(first, symbol, {[head[0]]});
        return;
      }
      var r := FindFirst(head, rank);
      HeadStep(g, rank, entry, first, symbol, production, r);
      first := Add(first, symbol, r);
      ghost var beforeWalk := first;
      NewKeysInitially(g, first, symbol, rank);
      if Epsilon in Get(first, head) {
        WalkTail(symbol, production, rank);
      }
      HeadFinish(g, rank, entry, beforeWalk, first, symbol, production);
    }

    /** The walk of lines 31-37 over the symbols after a head whose FIRST
        set holds epsilon, with the `for ... else` that adds epsilon when
        no symbol stops it: the symbol's set gains exactly `TailFirst`. */
    method WalkTail(symbol: Symbol, production: Production, ghost rank: map<Symbol, nat>)
      requires Inv() && symbol in first && symbol in g.nonTerminals && symbol != Epsilon
      requires production in Productions(g, symbol)
      requires |production| > 0 && !IsLower(production[0]) && Epsilon in Get(first, production[0])
      modifies this
      decreases NonTerminalSet(g) - first.Keys, 2
      ensures Inv() && StepOk(old(first), first, symbol)
      ensures NewKeysOk(g, first, old(first), symbol, rank)
      ensures TailSettled(g, first, production[1..])
      ensures first[symbol] == old(first)[symbol] + TailFirst(g, first, production[1..])
    {
      ghost var entry := first;
      NewKeysInitially(g, first, symbol, rank);
      var rest := production[1..];
      var i := 0;
      var exhausted := true;
      while i < |rest|
        invariant Inv() && WalkInv(g, rank, first, entry, symbol, production, i)
        invariant exhausted
        decreases |rest| - i
      {
        var stop := WalkStep(symbol, production, i, entry, rank);
        if stop {
          exhausted := false;
          break;
        }
        i := i + 1;
      }
      if exhausted {
        WalkAddSound(g, first, symbol, production, i, {Epsilon});
        WalkAfterAdd(g, rank, entry, first, symbol, production, i, {Epsilon});
        HeadAddsEpsilon(g, first, symbol, production);
        AddKeepsEpsilonSound(g, first, symbol, {Epsilon});
        first := Add(first, symbol, {Epsilon});
        WalkEnds(g, first, symbol, rest);
        WalkFinished(g, rank, entry, first, symbol, production, i);
      }
    }

    /** One symbol of the walk (lines 32-35): its FIRST set less epsilon is
        added, and the walk stops (`stop`) exactly when that set lacks
        epsilon. */
    method WalkStep(symbol: Symbol, production: Production, i: nat, ghost entry: SetMap, ghost rank: map<Symbol, nat>)
      returns (stop: bool)
      requires Inv() && production in Productions(g, symbol)
      requires WalkInv(g, rank, first, entry, symbol, production, i) && i < |production[1..]|
      modifies this
      decreases NonTerminalSet(g) - first.Keys, 1
      ensures Inv() && symbol in first
      ensures stop <==> Epsilon !in Fst(g, first, production[1..][i])
      ensures Fst(g, first, production[1..][i]) - {Epsilon} <= first[symbol]
      ensures stop ==>
        StepOk(entry, first, symbol) && NewKeysOk(g, first, entry, symbol, rank) &&
        TailSettled(g, first, production[1..]) &&
        first[symbol] == entry[symbol] + TailFirst(g, first, production[1..])
      ensures !stop ==> WalkInv(g, rank, first, entry, symbol, production, i + 1)
    {
      var x := production[1..][i];
      ghost var before := first;
      var found := FindFirst(x, rank);
      var next := found - {Epsilon};
      WalkStepAdd(g, rank, entry, before, first, symbol, production, i);
      first := Add(first, symbol, next);
      ghost var added := first;
      var again := FindFirst(x, rank);
      assert first == added && again == found;
      if Epsilon !in again {
        WalkStops(g, first, symbol, production[1..], i);
        WalkFinished(g, rank, entry, first, symbol, production, i);
        return true;
      }
      WalkPasses(g, rank, entry, first, symbol, production, i);
      return false;
    }
  }

  /** What the top-level loop of lines 42-43 has established once the
      first `i` nonterminals have been passed to `find_first`. */
  ghost predicate Progress(g: Grammar, rank: map<Symbol, nat>, f: SetMap, i: nat)
    requires i <= |g.nonTerminals|
  {
    && (forall k :: 0 <= k < i && g.nonTerminals[k] != Epsilon ==> g.nonTerminals[k] in f)
    && (forall n :: n in f ==> HeadFacts(g, f, n))
    && (Ranked(g, rank) ==> forall n :: n in f ==> Done(g, f, n))
  }

  /** One call `find_first(g.nonTerminals[i])` of the top-level loop. */
  lemma ProgressStep(g: Grammar, rank: map<Symbol, nat>, f: SetMap, f': SetMap, i: nat)
    requires EpsilonSound(g, f)
    requires i < |g.nonTerminals| && Progress(g, rank, f, i)
    requires KeysIn(g, f) && CallOk(g, f, f', g.nonTerminals[i], rank)
    requires g.nonTerminals[i] != Epsilon ==> g.nonTerminals[i] in f'
    ensures Progress(g, rank, f', i + 1)
  {
    assert Grows(f, f');
    AllHeadFactsGrow(g, f, f', f.Keys);
    if Ranked(g, rank) {
      DoneKeysStayDone(g, f, f', f.Keys);
    }
  }

  /** The FIRST equations: the table is keyed by exactly the declared
      nonterminals other than `e`, and each set is the union of what the
      nonterminal's productions contribute. */
  ghost predicate Solves(g: Grammar, f: SetMap)
  {
    && KeysIn(g, f) && Epsilon !in f
    && (forall n :: n in g.nonTerminals && n != Epsilon ==> n in f)
    && (forall n :: n in f ==> f[n] == Contributions(g, f, Productions(g, n)))
  }

  /** `compute_first` (lines 6-45): `find_first` for every nonterminal in
      declaration order. Every set is justified by its productions and
      every head fact holds; on a grammar whose reads can be ranked, the
      table solves the FIRST equations, whose solution is then unique
      (`FirstUnique`). */
  method ComputeFirst(g: Grammar, ghost rank: map<Symbol, nat>) returns (first: SetMap)
    requires Valid(g)
    ensures KeysIn(g, first) && Epsilon !in first && Sound(g, first) && EpsilonSound(g, first)
    ensures forall n :: n in g.nonTerminals && n != Epsilon ==> n in first
    ensures forall n :: n in first ==> HeadFacts(g, first, n)
    ensures Ranked(g, rank) ==> Solves(g, first)
  {
    var b := new FirstBuilder(g);
    var i := 0;
    while i < |g.nonTerminals|
      invariant 0 <= i <= |g.nonTerminals|
      invariant b.g == g && b.Inv()
      invariant Progress(g, rank, b.first, i)
    {
      ghost var before := b.first;
      var _ := b.FindFirst(g.nonTerminals[i], rank);
      ProgressStep(g, rank, before, b.first, i);
      i := i + 1;
    }
    first := b.first;
    ghost var f := first;
    assert forall k :: 0 <= k < |g.nonTerminals| && g.nonTerminals[k] != Epsilon ==> g.nonTerminals[k] in f;
    if Ranked(g, rank) {
      forall n | n in first ensures first[n] == Contributions(g, first, Productions(g, n)) {
        ContributionsBounded(g, first, Productions(g, n), first[n]);
      }
    }
  }

  // ---------------------------------------------------------------------
  // On a ranked grammar the FIRST equations have one solution.

  lemma {:induction false} TailFirstAgree(g: Grammar, f: SetMap, f': SetMap, rest: seq<Symbol>)
    requires EpsilonSound(g, f)
    requires forall x :: x in Reach(g, rest) ==> Get(f, x) == Get(f', x)
    ensures TailFirst(g, f, rest) == TailFirst(g, f', rest)
    decreases |rest|
  {
    if rest != [] {
      assert rest[0] in Reach(g, rest);
      if Epsilon in Fst(g, f, rest[0]) {
        assert Reach(g, rest) == [rest[0]] + Reach(g, rest[1..]);
        forall x | x in Reach(g, rest[1..]) ensures Get(f, x) == Get(f', x) {
          assert x in Reach(g, rest);
        }
        TailFirstAgree(g, f, f', rest[1..]);
      }
    }
  }

  lemma ProductionFirstAgree(g: Grammar, f: SetMap, f': SetMap, p: Production)
    requires KeysIn(g, f) && KeysIn(g, f') && EpsilonSound(g, f)
    requires forall x :: x in Reads(g, p) ==> Get(f, x) == Get(f', x)
    ensures ProductionFirst(g, f, p) == ProductionFirst(g, f', p)
  {
    if |p| > 0 && !IsLower(p[0]) {
      assert p[0] in Reads(g, p);
      if Epsilon in Get(f, p[0]) {
        assert Reads(g, p) == [p[0]] + Reach(g, p[1..]);
        forall x | x in Reach(g, p[1..]) ensures Get(f, x) == Get(f', x) {
          assert x in Reads(g, p);
        }
        TailFirstAgree(g, f, f', p[1..]);
      }
    }
  }

  lemma {:induction false} ContributionsAgree(g: Grammar, f: SetMap, f': SetMap, ps: seq<Production>)
    requires KeysIn(g, f) && KeysIn(g, f') && EpsilonSound(g, f)
    requires forall p, x :: p in ps && x in Reads(g, p) ==> Get(f, x) == Get(f', x)
    ensures Contributions(g, f, ps) == Contributions(g, f', ps)
  {
    if ps != [] {
      ProductionFirstAgree(g, f, f', ps[0]);
      ContributionsAgree(g, f, f', ps[1..]);
    }
  }

  lemma {:induction false} ContributionsWitness(g: Grammar, f: SetMap, ps: seq<Production>, y: Symbol)
    requires y in Contributions(g, f, ps)
    ensures exists p :: p in ps && y in ProductionFirst(g, f, p)
  {
    if y !in ProductionFirst(g, f, ps[0]) {
      ContributionsWitness(g, f, ps[1..], y);
      var p :| p in ps[1..] && y in ProductionFirst(g, f, p);
      assert p in ps;
    }
  }

  /** In a solution on a ranked grammar, only nullable nonterminals hold
      `e`, by induction on the rank. */
  lemma SolutionEpsilonAt(g: Grammar, rank: map<Symbol, nat>, f: SetMap, n: Symbol)
    requires Valid(g) && Ranked(g, rank) && Solves(g, f)
    requires n in f && Epsilon in f[n]
    ensures n in Nullable(g)
    decreases rank[n]
  {
    assert n in g.rules;
    var ps := g.rules[n];
    ContributionsWitness(g, f, ps, Epsilon);
    var p :| p in ps && Epsilon in ProductionFirst(g, f, p);
    assert IsLower(Epsilon) by { assert IsLowerChar(Epsilon[0]); }
    if !IsLower(p[0]) {
      assert Epsilon in Get(f, p[0]);
      assert p[0] in Reads(g, p);
      RankedMention(g, rank, n, p, p[0]);
      SolutionEpsilonAt(g, rank, f, p[0]);
    }
    NullableClosed(g);
    assert HeadMayAddEpsilon(Nullable(g), p);
  }

  lemma SolutionEpsilonSound(g: Grammar, rank: map<Symbol, nat>, f: SetMap)
    requires Valid(g) && Ranked(g, rank) && Solves(g, f)
    ensures EpsilonSound(g, f)
  {
    forall n | n in f && Epsilon in f[n] ensures n in Nullable(g) {
      SolutionEpsilonAt(g, rank, f, n);
    }
  }

  /** Two solutions agree on `n`, by induction on its rank. */
  lemma SolutionsAgreeAt(g: Grammar, rank: map<Symbol, nat>, f: SetMap, f': SetMap, n: Symbol)
    requires Valid(g) && Ranked(g, rank) && Solves(g, f) && Solves(g, f') && EpsilonSound(g, f)
    requires n in g.nonTerminals
    ensures Get(f, n) == Get(f', n)
    decreases rank[n]
  {
    if n != Epsilon {
      var ps := Productions(g, n);
      forall p, x | p in ps && x in Reads(g, p) ensures Get(f, x) == Get(f', x) {
        if x in g.nonTerminals {
          RankedMention(g, rank, n, p, x);
          SolutionsAgreeAt(g, rank, f, f', x);
        }
      }
      ContributionsAgree(g, f, f', ps);
    }
  }

  /** On a ranked grammar the FIRST equations have exactly one solution,
      so `ComputeFirst`'s table is determined by the grammar. */
  lemma FirstUnique(g: Grammar, rank: map<Symbol, nat>, f: SetMap, f': SetMap)
    requires Valid(g) && Ranked(g, rank) && Solves(g, f) && Solves(g, f')
    ensures f == f'
  {
    SolutionEpsilonSound(g, rank, f);
    forall n | n in g.nonTerminals ensures Get(f, n) == Get(f', n) {
      SolutionsAgreeAt(g, rank, f, f', n);
    }
    assert f.Keys == f'.Keys;
  }

  // ---------------------------------------------------------------------
  // A right-recursive expression grammar is ranked.

  /** E -> T X, X -> + T X | e, T -> F Y, Y -> * F Y | e, F -> ( E ) | id. */
  function ExpressionGrammar(): Grammar
  {
    Grammar(["E", "X", "T", "Y", "F"],
      map["E" := [["T", "X"]], "X" := [["+", "T", "X"], ["e"]], "T" := [["F", "Y"]],
          "Y" := [["*", "F", "Y"], ["e"]], "F" := [["(", "E", ")"], ["id"]]])
  }

  function ExpressionRank(): map<Symbol, nat>
  {
    map["E" := 2, "X" := 0, "T" := 1, "Y" := 0, "F" := 0]
  }

  /** Which heads of the expression grammar `islower` accepts. */
  lemma ExpressionHeads()
    ensures !IsLower("T") && !IsLower("F") && !IsLower("+") && !IsLower("*") && !IsLower("(")
    ensures IsLower("e") && IsLower("id")
  {
    assert IsLowerChar("e"[0]);
    assert IsLowerChar("id"[0]);
  }

  lemma ExpressionRules()
    ensures ExpressionGrammar().rules.Keys == {"E", "X", "T", "Y", "F"}
    ensures ExpressionGrammar().rules["E"] == [["T", "X"]]
    ensures ExpressionGrammar().rules["X"] == [["+", "T", "X"], ["e"]]
    ensures ExpressionGrammar().rules["T"] == [["F", "Y"]]
    ensures ExpressionGrammar().rules["Y"] == [["*", "F", "Y"], ["e"]]
    ensures ExpressionGrammar().rules["F"] == [["(", "E", ")"], ["id"]]
  {
  }

  lemma ExpressionGrammarValid()
    ensures Valid(ExpressionGrammar())
  {
    var g := ExpressionGrammar();
    ExpressionRules();
    assert forall c :: c in g.nonTerminals <==> c in {"E", "X", "T", "Y", "F"};
    forall i, j | 0 <= i < j < |g.nonTerminals| ensures g.nonTerminals[i] != g.nonTerminals[j] {
      assert g.nonTerminals[i][0] != g.nonTerminals[j][0];
    }
  }

  lemma ExpressionTerminals()
    ensures "+" !in ExpressionGrammar().nonTerminals && "*" !in ExpressionGrammar().nonTerminals
    ensures "(" !in ExpressionGrammar().nonTerminals
  {
  }

  /** The other productions read at most a terminal head. */
  lemma ExpressionReadsTerminal()
    ensures Reads(ExpressionGrammar(), ["+", "T", "X"]) == ["+"]
    ensures Reads(ExpressionGrammar(), ["*", "F", "Y"]) == ["*"]
    ensures Reads(ExpressionGrammar(), ["(", "E", ")"]) == ["("]
    ensures Reads(ExpressionGrammar(), ["e"]) == [] && Reads(ExpressionGrammar(), ["id"]) == []
  {
    ExpressionHeads();
    ExpressionTerminals();
  }

  /** The productions of `X`, `Y` and `F` read no nonterminal. */
  lemma ExpressionReadsNoNonTerminal(n: Symbol)
    requires n == "X" || n == "Y" || n == "F"
    ensures n in ExpressionGrammar().rules
    ensures forall p, x :: p in ExpressionGrammar().rules[n] && x in Reads(ExpressionGrammar(), p) ==>
      x !in ExpressionGrammar().nonTerminals
  {
    var g := ExpressionGrammar();
    ExpressionRules();
    ExpressionReadsTerminal();
    ExpressionTerminals();
    forall p | p in g.rules[n] ensures forall x :: x in Reads(g, p) ==> x !in g.nonTerminals {
      if n == "X" {
        assert p == ["+", "T", "X"] || p == ["e"];
      } else if n == "Y" {
        assert p == ["*", "F", "Y"] || p == ["e"];
      } else {
        assert p == ["(", "E", ")"] || p == ["id"];
      }
    }
  }

  /** The productions of one nonterminal of the expression grammar read
      only nonterminals of lower rank. */
  lemma ExpressionRankedAt(n: Symbol)
    requires n in ExpressionGrammar().rules
    ensures forall p, x ::
      (p in ExpressionGrammar().rules[n] && x in Reads(ExpressionGrammar(), p) && x in ExpressionGrammar().nonTerminals) ==>
        n in ExpressionRank() && x in ExpressionRank() && ExpressionRank()[x] < ExpressionRank()[n]
  {
    ExpressionRules();
    if n == "E" || n == "T" {
      ReadsWithin(ExpressionGrammar(), ["T", "X"]);
      ReadsWithin(ExpressionGrammar(), ["F", "Y"]);
    } else {
      ExpressionReadsNoNonTerminal(n);
    }
  }

  /** `E` is read again only behind `(`, which never derives epsilon, so
      the grammar is ranked although it is recursive. */
  lemma ExpressionGrammarRanked()
    ensures Ranked(ExpressionGrammar(), ExpressionRank())
  {
    forall n | n in ExpressionGrammar().rules {
      ExpressionRankedAt(n);
    }
  }

  lemma ExpressionFactorFirst(f: SetMap)
    requires Solves(ExpressionGrammar(), f)
    ensures f["F"] == {"(", "i"}
  {
    var g := ExpressionGrammar();
    ExpressionHeads();
    ExpressionRules();
    assert "(" !in f;
    assert ProductionFirst(g, f, ["(", "E", ")"]) == {"("};
    assert ProductionFirst(g, f, ["id"]) == {"i"};
    assert Contributions(g, f, [["id"]]) == {"i"};
    assert [["(", "E", ")"], ["id"]][1..] == [["id"]];
    assert f["F"] == Contributions(g, f, [["(", "E", ")"], ["id"]]);
  }

  /** Any solution of the FIRST equations of the expression grammar, and so
      the table `ComputeFirst` builds for it, gives `E`, `T` and `F` the
      set `{(, i}`: a lower-case head such as `id` contributes only its
      first character (line 23). */
  lemma ExpressionGrammarFirst(f: SetMap)
    requires Solves(ExpressionGrammar(), f)
    ensures f["F"] == f["T"] == f["E"] == {"(", "i"}
  {
    var g := ExpressionGrammar();
    ExpressionFactorFirst(f);
    ExpressionHeads();
    ExpressionRules();
    assert f["T"] == Contributions(g, f, [["F", "Y"]]) == ProductionFirst(g, f, ["F", "Y"]) == f["F"];
    assert f["E"] == Contributions(g, f, [["T", "X"]]) == ProductionFirst(g, f, ["T", "X"]) == f["T"];
  }

  lemma ExpressionSumFirst(f: SetMap)
    requires Solves(ExpressionGrammar(), f)
    ensures f["X"] == {"+", "e"}
  {
    var g := ExpressionGrammar();
    ExpressionHeads();
    ExpressionRules();
    assert "+" !in f;
    assert ProductionFirst(g, f, ["e"]) == {"e"} && Contributions(g, f, [["e"]]) == {"e"};
    assert ProductionFirst(g, f, ["+", "T", "X"]) == {"+"};
    assert [["+", "T", "X"], ["e"]][1..] == [["e"]];
    assert f["X"] == Contributions(g, f, [["+", "T", "X"], ["e"]]);
  }

  /** The nullable nonterminals of the expression grammar: their
      productions `e` put `e` in their sets. */
  lemma ExpressionGrammarNullableFirst(f: SetMap)
    requires Solves(ExpressionGrammar(), f)
    ensures f["X"] == {"+", "e"} && f["Y"] == {"*", "e"}
  {
    ExpressionSumFirst(f);
    ExpressionProductFirst(f);
  }

  lemma ExpressionProductFirst(f: SetMap)
    requires Solves(ExpressionGrammar(), f)
    ensures f["Y"] == {"*", "e"}
  {
    var g := ExpressionGrammar();
    ExpressionHeads();
    ExpressionRules();
    assert "*" !in f;
    assert ProductionFirst(g, f, ["e"]) == {"e"} && Contributions(g, f, [["e"]]) == {"e"};
    assert ProductionFirst(g, f, ["*", "F", "Y"]) == {"*"};
    assert [["*", "F", "Y"], ["e"]][1..] == [["e"]];
    assert f["Y"] == Contributions(g, f, [["*", "F", "Y"], ["e"]]);
  }

  // ---------------------------------------------------------------------
  // A statement list: right recursion behind a nonterminal whose set
  // cannot hold `e`.

  /** L -> S L | e, S -> a. */
  function ListGrammar(): Grammar
  {
    Grammar(["L", "S"], map["L" := [["S", "L"], ["e"]], "S" := [["a"]]])
  }

  function ListRank(): map<Symbol, nat>
  {
    map["L" := 1, "S" := 0]
  }

  lemma ListRules()
    ensures ListGrammar().rules.Keys == {"L", "S"}
    ensures ListGrammar().rules["L"] == [["S", "L"], ["e"]] && ListGrammar().rules["S"] == [["a"]]
    ensures ListGrammar().nonTerminals == ["L", "S"]
  {
  }

  lemma ListGrammarValid()
    ensures Valid(ListGrammar())
  {
    ListRules();
  }

  /** Only `L` can come to hold `e`: `{L}` is closed. */
  lemma ListNullable()
    ensures "S" !in Nullable(ListGrammar())
  {
    var g := ListGrammar();
    ListRules();
    assert IsLowerChar("e"[0]) && IsLowerChar("a"[0]);
    assert !IsLower("S") by { assert IsUpperChar("S"[0]); }
    forall n, p | n in g.rules && p in g.rules[n] ensures HeadMayAddEpsilon({"L"}, p) ==> n in {"L"} {
      if n == "S" {
        assert p == ["a"];
      }
    }
    assert EpsilonClosed(g, {"L"});
  }

  /** `L -> S L` reads only `S`, so the grammar is ranked although `L` is
      right-recursive. */
  lemma ListGrammarRanked()
    ensures Ranked(ListGrammar(), ListRank())
  {
    var g := ListGrammar();
    ListRules();
    ListNullable();
    assert !IsLower("S") by { assert IsUpperChar("S"[0]); }
    assert IsLower("e") && IsLower("a") by {
      assert IsLowerChar("e"[0]) && IsLowerChar("a"[0]);
    }
    assert Reads(g, ["S", "L"]) == ["S"];
    assert Reads(g, ["e"]) == [] && Reads(g, ["a"]) == [];
    forall n, p | n in g.rules && p in g.rules[n]
      ensures forall x :: x in Reads(g, p) && x in g.nonTerminals ==> n in ListRank() && x in ListRank() && ListRank()[x] < ListRank()[n]
    {
      if n == "L" {
        assert p == ["S", "L"] || p == ["e"];
      } else {
        assert p == ["a"];
      }
    }
  }

  /** Every solution, and so the table `ComputeFirst` builds, gives
      FIRST(L) = `{a, e}`: the list can start with a statement or be empty. */
  lemma ListGrammarFirst(f: SetMap)
    requires Solves(ListGrammar(), f)
    ensures f["S"] == {"a"} && f["L"] == {"a", "e"}
  {
    var g := ListGrammar();
    ListRules();
    assert !IsLower("S") by { assert IsUpperChar("S"[0]); }
    assert IsLower("e") && IsLower("a") by {
      assert IsLowerChar("e"[0]) && IsLowerChar("a"[0]);
    }
    assert ProductionFirst(g, f, ["a"]) == {"a"};
    assert f["S"] == Contributions(g, f, [["a"]]) == {"a"};
    assert ProductionFirst(g, f, ["S", "L"]) == {"a"};
    assert ProductionFirst(g, f, ["e"]) == {"e"} && Contributions(g, f, [["e"]]) == {"e"};
    assert [["S", "L"], ["e"]][1..] == [["e"]];
    assert f["L"] == Contributions(g, f, [["S", "L"], ["e"]]) == {"a", "e"};
  }
}
