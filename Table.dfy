/** `construct_parsing_table`: the predictive parsing table, a map from a
    nonterminal and a terminal to the text of the production to apply. */
module ParsingTable {
  import opened Symbols
  import opened StringFirst
  import opened LL1Check

  /** One row of the table: terminal to production text. */
  type Row = map<Symbol, string>
  /** The table: a `defaultdict(dict)`; a row exists once a cell of it is written. */
  type Table = map<Symbol, Row>

  /** The same text `s` in the cell of every terminal of `ts`. */
  function Cells(ts: set<Symbol>, s: string): Row
  {
    map t | t in ts :: s
  }

  /** Row `a` after the productions `ps` have been written in order: each
      production writes its text into every cell it claims, over what an
      earlier production wrote there. */
  function RowAfter(first: SetMap, follow: SetMap, a: Symbol, ps: seq<Production>): Row
  {
    if ps == [] then map[]
    else
      var p := ps[|ps| - 1];
      RowAfter(first, follow, a, ps[..|ps| - 1]) + Cells(Claims(first, follow, a, p), JoinSpaces(p))
  }

  /** A cell of the row exists exactly when some production claims it. */
  lemma {:induction false} RowAfterKeys(first: SetMap, follow: SetMap, a: Symbol, ps: seq<Production>, t: Symbol)
    ensures t in RowAfter(first, follow, a, ps) <==>
      exists i :: 0 <= i < |ps| && t in Claims(first, follow, a, ps[i])
  {
    if ps != [] {
      var init := ps[..|ps| - 1];
      RowAfterKeys(first, follow, a, init, t);
      if exists i :: 0 <= i < |init| && t in Claims(first, follow, a, init[i]) {
        var i :| 0 <= i < |init| && t in Claims(first, follow, a, init[i]);
        assert ps[i] == init[i];
      }
      if exists i :: 0 <= i < |ps| && t in Claims(first, follow, a, ps[i]) {
        var i :| 0 <= i < |ps| && t in Claims(first, follow, a, ps[i]);
        if i < |init| {
          assert init[i] == ps[i];
        }
      }
    }
  }

  /** Production `i` claims `t`, and no later one does. */
  ghost predicate LastClaimer(first: SetMap, follow: SetMap, a: Symbol, ps: seq<Production>, t: Symbol, i: int)
  {
    && 0 <= i < |ps|
    && t in Claims(first, follow, a, ps[i])
    && forall j :: i < j < |ps| ==> t !in Claims(first, follow, a, ps[j])
  }

  /** The text in a cell is that of the last production claiming the cell. */
  lemma {:induction false} RowAfterValue(first: SetMap, follow: SetMap, a: Symbol, ps: seq<Production>, t: Symbol)
    requires t in RowAfter(first, follow, a, ps)
    ensures exists i ::
      LastClaimer(first, follow, a, ps, t, i) && RowAfter(first, follow, a, ps)[t] == JoinSpaces(ps[i])
  {
    var n := |ps| - 1;
    var init := ps[..n];
    if t in Claims(first, follow, a, ps[n]) {
      assert RowAfter(first, follow, a, ps)[t] == JoinSpaces(ps[n]);
      assert LastClaimer(first, follow, a, ps, t, n);
    } else {
      RowAfterValue(first, follow, a, init, t);
      var i :| LastClaimer(first, follow, a, init, t, i) &&
        RowAfter(first, follow, a, init)[t] == JoinSpaces(init[i]);
      assert init[i] == ps[i];
      forall j | i < j < |ps| ensures t !in Claims(first, follow, a, ps[j]) {
        if j < n {
          assert init[j] == ps[j];
        }
      }
      assert LastClaimer(first, follow, a, ps, t, i);
    }
  }

  /** When no two productions of `a` claim a common cell (the corrected
      LL(1) condition), no cell is overwritten: each production's text is
      in every cell it claims. */
  lemma RowAfterDeterministic(first: SetMap, follow: SetMap, a: Symbol, ps: seq<Production>, i: nat, t: Symbol)
    requires forall j, k :: 0 <= j < k < |ps| ==>
      Claims(first, follow, a, ps[j]) * Claims(first, follow, a, ps[k]) == {}
    requires i < |ps| && t in Claims(first, follow, a, ps[i])
    ensures t in RowAfter(first, follow, a, ps)
    ensures RowAfter(first, follow, a, ps)[t] == JoinSpaces(ps[i])
  {
    RowAfterKeys(first, follow, a, ps, t);
    RowAfterValue(first, follow, a, ps, t);
    var k :| LastClaimer(first, follow, a, ps, t, k) &&
      RowAfter(first, follow, a, ps)[t] == JoinSpaces(ps[k]);
  }

  /** Under the corrected LL(1) condition the table built from a grammar
      holds, in row `a`, the text of every production of `a` at every
      terminal it claims. */
  lemma TableDeterministic(g: Grammar, first: SetMap, follow: SetMap, table: Table, a: Symbol, i: nat, t: Symbol)
    requires CorrectedLL1(g, first, follow)
    requires forall b :: b in table ==> table[b] == RowAfter(first, follow, b, Productions(g, b))
    requires forall b :: b in table <==> b in g.nonTerminals && RowAfter(first, follow, b, Productions(g, b)) != map[]
    requires a in g.nonTerminals && i < |Productions(g, a)| && t in Claims(first, follow, a, Productions(g, a)[i])
    ensures a in table && t in table[a] && table[a][t] == JoinSpaces(Productions(g, a)[i])
  {
    RowAfterDeterministic(first, follow, a, Productions(g, a), i, t);
  }

  /** The inner loops of lines 138-143 for one production: `s` goes into
      the cell of every terminal of `ts`, in whatever order the set gives. */
  method WriteCells(row: Row, ts: set<Symbol>, s: string) returns (row': Row)
    ensures row' == row + Cells(ts, s)
  {
    row' := row;
    var todo := ts;
    while todo != {}
      invariant todo <= ts
      invariant row' == row + Cells(ts - todo, s)
      decreases |todo|
    {
      var t :| t in todo;
      row' := row'[t := s];
      todo := todo - {t};
      assert row' == row + Cells(ts - todo, s);
    }
    assert ts - todo == ts;
  }

  /** Writing one more production onto a row. */
  lemma RowAfterSnoc(first: SetMap, follow: SetMap, a: Symbol, ps: seq<Production>, j: nat)
    requires j < |ps|
    ensures RowAfter(first, follow, a, ps[..j + 1]) ==
      RowAfter(first, follow, a, ps[..j]) + Cells(Claims(first, follow, a, ps[j]), JoinSpaces(ps[j]))
  {
    assert ps[..j + 1][..j] == ps[..j] && ps[..j + 1][j] == ps[j];
  }

  /** The two write loops of one production together write its claims. */
  lemma WritesAreClaims(first: SetMap, follow: SetMap, a: Symbol, p: Production, row: Row, pf: set<Symbol>)
    requires pf == FirstOfString(p, first)
    ensures row + Cells(Claims(first, follow, a, p), JoinSpaces(p)) ==
      row + Cells(pf - {Epsilon}, JoinSpaces(p)) + Cells(if Epsilon in pf then Get(follow, a) else {}, JoinSpaces(p))
  {
  }

  lemma UnionAssociative(x: Row, y: Row, z: Row)
    ensures (x + y) + z == x + (y + z)
  {
  }

  /** The writes of production `ps[j]` (lines 138-143) take row `a` from
      its state after `ps[..j]` to its state after `ps[..j + 1]`. */
  lemma FillStep(first: SetMap, follow: SetMap, a: Symbol, ps: seq<Production>, j: nat,
                 row: Row, cur: Row, pf: set<Symbol>)
    requires j < |ps| && pf == FirstOfString(ps[j], first)
    requires cur == row + RowAfter(first, follow, a, ps[..j])
    ensures cur + Cells(pf - {Epsilon}, JoinSpaces(ps[j])) +
      Cells(if Epsilon in pf then Get(follow, a) else {}, JoinSpaces(ps[j])) ==
      row + RowAfter(first, follow, a, ps[..j + 1])
  {
    var s := JoinSpaces(ps[j]);
    var before := RowAfter(first, follow, a, ps[..j]);
    var written := Cells(Claims(first, follow, a, ps[j]), s);
    calc {
      cur + Cells(pf - {Epsilon}, s) + Cells(if Epsilon in pf then Get(follow, a) else {}, s);
      { WritesAreClaims(first, follow, a, ps[j], cur, pf); }
      cur + written;
      { UnionAssociative(row, before, written); }
      row + (before + written);
      { RowAfterSnoc(first, follow, a, ps, j); }
      row + RowAfter(first, follow, a, ps[..j + 1]);
    }
  }

  /** Row `a` written production by production over what is already there
      (lines 135-143). */
  method FillRow(first: SetMap, follow: SetMap, a: Symbol, ps: seq<Production>, row: Row) returns (row': Row)
    ensures row' == row + RowAfter(first, follow, a, ps)
  {
    row' := row;
    var j := 0;
    while j < |ps|
      invariant 0 <= j <= |ps|
      invariant row' == row + RowAfter(first, follow, a, ps[..j])
    {
      ghost var cur := row';
      var p := ps[j];
      var productionFirst := ComputeFirstOfString(p, first);
      var productionStr := JoinSpaces(p);
      row' := WriteCells(row', productionFirst - {Epsilon}, productionStr);
      if Epsilon in productionFirst {
        row' := WriteCells(row', Get(follow, a), productionStr);
      } else {
        assert row' + Cells({}, productionStr) == row';
      }
      FillStep(first, follow, a, ps, j, row, cur, productionFirst);
      j := j + 1;
    }
    assert ps[..j] == ps;
  }

  /** The rows of the table are the finished rows of the nonterminals
      in `nts` that have a cell. */
  ghost predicate TableOf(g: Grammar, first: SetMap, follow: SetMap, table: Table, nts: seq<Symbol>)
  {
    && (forall a :: a in table <==> a in nts && RowAfter(first, follow, a, Productions(g, a)) != map[])
    && (forall a :: a in table ==> table[a] == RowAfter(first, follow, a, Productions(g, a)))
  }

  /** Writing a nonterminal's productions over its existing row, which is
      empty or already the finished row, gives the finished row. */
  lemma RowRewritten(r: Row, old_row: Row)
    requires old_row == map[] || old_row == r
    ensures old_row + r == r
  {
  }

  /** Processing nonterminal `a` (lines 134-143): its row is written
      from what it already holds, and the row appears once a cell is in it. */
  lemma TableStep(g: Grammar, first: SetMap, follow: SetMap, table: Table, nts: seq<Symbol>, a: Symbol, row: Row)
    requires TableOf(g, first, follow, table, nts)
    requires row == RowAfter(first, follow, a, Productions(g, a))
    ensures TableOf(g, first, follow, if row != map[] then table[a := row] else table, nts + [a])
  {
    var next := if row != map[] then table[a := row] else table;
    forall b
      ensures b in next <==> b in nts + [a] && RowAfter(first, follow, b, Productions(g, b)) != map[]
    {
      assert b in nts + [a] <==> b in nts || b == a;
    }
  }

  /** `construct_parsing_table` (lines 131-144): a row for every declared
      nonterminal some production of which claims a cell, holding the
      table `RowAfter` describes. A nonterminal listed twice writes the
      same cells again and leaves its row as it was. */
  method ConstructParsingTable(g: Grammar, first: SetMap, follow: SetMap) returns (table: Table)
    ensures forall a :: a in table <==>
      a in g.nonTerminals && RowAfter(first, follow, a, Productions(g, a)) != map[]
    ensures forall a :: a in table ==> table[a] == RowAfter(first, follow, a, Productions(g, a))
  {
    table := map[];
    var n := 0;
    while n < |g.nonTerminals|
      invariant 0 <= n <= |g.nonTerminals|
      invariant TableOf(g, first, follow, table, g.nonTerminals[..n])
    {
      var a := g.nonTerminals[n];
      var old_row: Row := if a in table then table[a] else map[];
      var row := FillRow(first, follow, a, Productions(g, a), old_row);
      RowRewritten(RowAfter(first, follow, a, Productions(g, a)), old_row);
      TableStep(g, first, follow, table, g.nonTerminals[..n], a, row);
      assert g.nonTerminals[..n + 1] == g.nonTerminals[..n] + [a];
      if row != map[] {
        table := table[a := row];
      }
      n := n + 1;
    }
    assert g.nonTerminals[..n] == g.nonTerminals;
  }

  /** On the grammar S -> a | a B, B -> b, which `is_ll1` as written
      accepts, the second production overwrites the first in cell (S, a). */
  lemma CommonPrefixOverwrites(first: SetMap, follow: SetMap)
    requires Get(first, "a") == {}
    ensures "a" in RowAfter(first, follow, "S", [["a"], ["a", "B"]])
    ensures RowAfter(first, follow, "S", [["a"], ["a", "B"]])["a"] == "a B"
  {
    IsLL1AcceptsCommonPrefix(first, follow);
    var ps: seq<Production> := [["a"], ["a", "B"]];
    assert ps[..1] == [["a"]] && ps[..1][..0] == [];
    assert JoinSpaces(["a", "B"]) == "a B" by {
      assert JoinSpaces(["B"]) == "B";
    }
  }
}
