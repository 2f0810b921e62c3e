/** `compute_first_of_string`: FIRST of a sequence of symbols, read from a
    FIRST table, walking left to right and stopping at the first symbol that
    is a lower-case terminal or whose FIRST set lacks the epsilon token. */
module StringFirst {
  import opened Symbols

  /** The walk of lines 116-127, one symbol at a time. */
  function FirstOfString(s: seq<Symbol>, first: SetMap): set<Symbol>
  {
    if s == [] then {Epsilon}
    else if IsLower(s[0]) then {s[0]}
    else (Get(first, s[0]) - {Epsilon}) +
         (if Epsilon in Get(first, s[0]) then FirstOfString(s[1..], first) else {})
  }

  /** The first `k` symbols of `s` are all passed over by the walk: none is
      lower-case and each has epsilon in its FIRST set. */
  ghost predicate NullablePrefix(s: seq<Symbol>, first: SetMap, k: nat)
    requires k <= |s|
  {
    forall i :: 0 <= i < k ==> !IsLower(s[i]) && Epsilon in Get(first, s[i])
  }

  /** What symbol `x` puts into the result when the walk reaches it. */
  ghost predicate Contributes(x: Symbol, first: SetMap, y: Symbol)
  {
    if IsLower(x) then y == x else y in Get(first, x) && y != Epsilon
  }

  /** The result, described without the walk: `y` is in FIRST(s) exactly
      when some symbol reached by the walk contributes it, or `y` is epsilon
      and the walk passed over every symbol. */
  lemma {:induction false} FirstOfStringMembers(s: seq<Symbol>, first: SetMap, y: Symbol)
    ensures y in FirstOfString(s, first) <==>
      (y == Epsilon && NullablePrefix(s, first, |s|)) ||
      (exists k :: 0 <= k < |s| && NullablePrefix(s, first, k) && Contributes(s[k], first, y))
  {
    if s == [] {
    } else if IsLower(s[0]) {
      if y in FirstOfString(s, first) {
        assert NullablePrefix(s, first, 0) && Contributes(s[0], first, y);
      }
      forall k | 0 < k <= |s| ensures !NullablePrefix(s, first, k) {
      }
    } else {
      FirstOfStringMembers(s[1..], first, y);
      var t := s[1..];
      if Epsilon in Get(first, s[0]) {
        // Prefixes of s are the symbol s[0] followed by prefixes of t.
        forall k | 0 <= k <= |t|
          ensures NullablePrefix(s, first, k + 1) == NullablePrefix(t, first, k)
        {
          if NullablePrefix(t, first, k) {
            forall i | 0 <= i < k + 1 ensures !IsLower(s[i]) && Epsilon in Get(first, s[i]) {
              if i > 0 { assert s[i] == t[i - 1]; }
            }
          }
          if NullablePrefix(s, first, k + 1) {
            forall i | 0 <= i < k ensures !IsLower(t[i]) && Epsilon in Get(first, t[i]) {
              assert t[i] == s[i + 1];
            }
          }
        }
        if y in FirstOfString(s, first) {
          if y in Get(first, s[0]) - {Epsilon} {
            assert NullablePrefix(s, first, 0) && Contributes(s[0], first, y);
          } else if y == Epsilon && NullablePrefix(t, first, |t|) {
            assert NullablePrefix(s, first, |t| + 1);
          } else {
            var k :| 0 <= k < |t| && NullablePrefix(t, first, k) && Contributes(t[k], first, y);
            assert NullablePrefix(s, first, k + 1) && s[k + 1] == t[k];
          }
        } else {
          if y == Epsilon {
            assert !NullablePrefix(t, first, |t|);
            assert !NullablePrefix(s, first, |s|);
          }
          forall k | 0 <= k < |s| && NullablePrefix(s, first, k)
            ensures !Contributes(s[k], first, y)
          {
            if k > 0 {
              assert NullablePrefix(t, first, k - 1) && s[k] == t[k - 1];
            }
          }
        }
      } else {
        forall k | 0 < k <= |s| ensures !NullablePrefix(s, first, k) {
          assert !(!IsLower(s[0]) && Epsilon in Get(first, s[0]));
        }
        if y in FirstOfString(s, first) {
          assert NullablePrefix(s, first, 0) && Contributes(s[0], first, y);
        }
      }
    }
  }

  /** Epsilon enters the result only through a literal `e` symbol or by
      passing over every symbol of the sequence. */
  lemma {:induction false} EpsilonInFirstOfString(s: seq<Symbol>, first: SetMap)
    ensures Epsilon in FirstOfString(s, first) <==>
      NullablePrefix(s, first, |s|) ||
      (exists k :: 0 <= k < |s| && NullablePrefix(s, first, k) && s[k] == Epsilon)
  {
    FirstOfStringMembers(s, first, Epsilon);
    assert IsLower(Epsilon) by { assert IsLowerChar(Epsilon[0]); }
    if exists k :: 0 <= k < |s| && NullablePrefix(s, first, k) && Contributes(s[k], first, Epsilon) {
      var k :| 0 <= k < |s| && NullablePrefix(s, first, k) && Contributes(s[k], first, Epsilon);
      assert s[k] == Epsilon;
    }
    if exists k :: 0 <= k < |s| && NullablePrefix(s, first, k) && s[k] == Epsilon {
      var k :| 0 <= k < |s| && NullablePrefix(s, first, k) && s[k] == Epsilon;
      assert Contributes(s[k], first, Epsilon);
    }
  }

  /** Lines 114-128 as written: a `for` loop with `break` and a `for ... else`. */
  method ComputeFirstOfString(s: seq<Symbol>, first: SetMap) returns (result: set<Symbol>)
    ensures result == FirstOfString(s, first)
  {
    result := {};
    var i := 0;
    var exhausted := true;
    while i < |s|
      invariant 0 <= i <= |s|
      invariant result + FirstOfString(s[i..], first) == FirstOfString(s, first)
      invariant exhausted
    {
      var symbol := s[i];
      if IsLower(symbol) {
        result := result + {symbol};
        exhausted := false;
        break;
      }
      result := result + (Get(first, symbol) - {Epsilon});
      if Epsilon !in Get(first, symbol) {
        exhausted := false;
        break;
      }
      i := i + 1;
    }
    if exhausted {
      result := result + {Epsilon};
    }
  }
}
