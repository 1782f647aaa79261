/** Python's ordering of `str` values (code point by code point, a proper
    prefix first) and `sorted` over a collection of column names. */
module StringOrder {
  import opened Seqs

  /** Python's `a <= b` on strings. */
  predicate LessEq(a: string, b: string) {
    a == [] || (b != [] && (a[0] < b[0] || (a[0] == b[0] && LessEq(a[1..], b[1..]))))
  }

  /** Python's `a < b` on strings. */
  predicate Less(a: string, b: string) {
    LessEq(a, b) && a != b
  }

  lemma {:induction false} LessEqTotal(a: string, b: string)
    ensures LessEq(a, b) || LessEq(b, a)
  {
    if a != [] && b != [] && a[0] == b[0] {
      LessEqTotal(a[1..], b[1..]);
    }
  }

  lemma {:induction false} LessEqAntisymmetric(a: string, b: string)
    requires LessEq(a, b) && LessEq(b, a)
    ensures a == b
  {
    if a != [] && b != [] {
      LessEqAntisymmetric(a[1..], b[1..]);
      assert a == [a[0]] + a[1..] && b == [b[0]] + b[1..];
    }
  }

  lemma {:induction false} LessEqTransitive(a: string, b: string, c: string)
    requires LessEq(a, b) && LessEq(b, c)
    ensures LessEq(a, c)
  {
    if a != [] && b != [] && c != [] && a[0] == b[0] && b[0] == c[0] {
      LessEqTransitive(a[1..], b[1..], c[1..]);
    }
  }

  /** Ascending, with no name twice. */
  predicate StrictlySorted(s: seq<string>) {
    forall i, j :: 0 <= i < j < |s| ==> Less(s[i], s[j])
  }

  /** Insert `x` into a strictly sorted list, keeping it strictly sorted. */
  function Insert(x: string, s: seq<string>): (r: seq<string>)
    requires StrictlySorted(s)
    ensures StrictlySorted(r)
    ensures ToSet(r) == ToSet(s) + {x}
  {
    if s == [] then [x]
    else if x == s[0] then s
    else if LessEq(x, s[0]) then
      InsertFront(x, s)
    else
      LessEqTotal(x, s[0]);
      var rest := Insert(x, s[1..]);
      assert forall y :: y in rest ==> Less(s[0], y) by {
        forall y | y in rest ensures Less(s[0], y) {
          if y != x {
            var k :| 0 <= k < |s[1..]| && s[1..][k] == y;
            assert s[k + 1] == y;
          }
        }
      }
      var r := [s[0]] + rest;
      assert StrictlySorted(r) by {
        forall i, j | 0 <= i < j < |r| ensures Less(r[i], r[j]) {
          if i > 0 {
            assert r[i] == rest[i - 1] && r[j] == rest[j - 1];
          } else {
            assert r[j] in rest;
          }
        }
      }
      assert ToSet(r) == ToSet(s) + {x} by {
        assert s == [s[0]] + s[1..];
      }
      r
  }

  /** Putting a smaller element in front keeps a list strictly sorted. */
  function InsertFront(x: string, s: seq<string>): (r: seq<string>)
    requires StrictlySorted(s) && s != [] && Less(x, s[0])
    ensures StrictlySorted(r)
    ensures ToSet(r) == ToSet(s) + {x}
  {
    var r := [x] + s;
    assert StrictlySorted(r) by {
      forall i, j | 0 <= i < j < |r| ensures Less(r[i], r[j]) {
        if i > 0 {
          assert r[i] == s[i - 1] && r[j] == s[j - 1];
        } else if j > 1 {
          assert r[j] == s[j - 1];
          LessEqTransitive(x, s[0], s[j - 1]);
          if x == s[j - 1] {
            LessEqAntisymmetric(x, s[0]);
          }
        }
      }
    }
    r
  }

  /** `sorted(set(s))`: the distinct names of `s`, ascending. */
  function SortedSet(s: seq<string>): (r: seq<string>)
    ensures StrictlySorted(r)
    ensures ToSet(r) == ToSet(s)
  {
    if s == [] then []
    else
      assert ToSet(s) == {s[0]} + ToSet(s[1..]);
      Insert(s[0], SortedSet(s[1..]))
  }
}
