/** The order standing for `Array.prototype.sort()` without a comparator:
    strings compared character by character, a proper prefix first. A
    `char` is a Unicode scalar value, so this is code-point order, which
    differs from the engine's UTF-16 code-unit order only between characters
    above U+FFFF and those in U+E000 to U+FFFF. The model also uses it for
    the city list, whose `localeCompare` it approximates. */
module TextOrder {

  /** `a` sorts strictly before `b`. */
  predicate StrLt(a: string, b: string) {
    if |a| == 0 then |b| > 0
    else if |b| == 0 then false
    else a[0] < b[0] || (a[0] == b[0] && StrLt(a[1..], b[1..]))
  }

  lemma {:induction false} StrLtIrreflexive(a: string)
    ensures !StrLt(a, a)
  {
    if |a| > 0 {
      StrLtIrreflexive(a[1..]);
    }
  }

  lemma {:induction false} StrLtTransitive(a: string, b: string, c: string)
    requires StrLt(a, b) && StrLt(b, c)
    ensures StrLt(a, c)
  {
    if |a| > 0 && a[0] == b[0] && b[0] == c[0] {
      StrLtTransitive(a[1..], b[1..], c[1..]);
    }
  }

  lemma {:induction false} StrLtTotal(a: string, b: string)
    requires a != b
    ensures StrLt(a, b) || StrLt(b, a)
  {
    if |a| > 0 && |b| > 0 && a[0] == b[0] {
      assert a == [a[0]] + a[1..] && b == [b[0]] + b[1..];
      StrLtTotal(a[1..], b[1..]);
    }
  }

  /** The strings a list holds. */
  ghost function Elements(s: seq<string>): set<string> {
    set y | y in s
  }

  /** Every pair of the list is in strict order, so it holds no repeats. */
  ghost predicate StrictlySorted(s: seq<string>) {
    forall i, j :: 0 <= i < j < |s| ==> StrLt(s[i], s[j])
  }

  /** Inserts `x` into a strictly sorted list unless it is already there. */
  function InsertUnique(x: string, s: seq<string>): (r: seq<string>)
    requires StrictlySorted(s)
    ensures StrictlySorted(r)
    ensures Elements(r) == Elements(s) + {x}
  {
    if s == [] then [x]
    else if x == s[0] then s
    else if StrLt(x, s[0]) then
      assert StrictlySorted([x] + s) by {
        forall j | 0 < j < |s| ensures StrLt(x, s[j]) {
          StrLtTransitive(x, s[0], s[j]);
        }
      }
      [x] + s
    else
      StrLtTotal(x, s[0]);
      var rest := InsertUnique(x, s[1..]);
      assert forall y :: y in rest ==> StrLt(s[0], y) by {
        forall y | y in rest ensures StrLt(s[0], y) {
          assert y in Elements(rest);
          assert y in s[1..] || y == x;
          if y in s[1..] {
            var j :| 0 <= j < |s[1..]| && s[1..][j] == y;
            assert s[j + 1] == y;
          }
        }
      }
      assert s == [s[0]] + s[1..];
      assert Elements([s[0]] + rest) == {s[0]} + Elements(rest);
      [s[0]] + rest
  }

  /** The distinct strings of `s`, in order: `[...new Set(s)].sort()`. */
  function SortedDistinct(s: seq<string>): (r: seq<string>)
    ensures StrictlySorted(r)
    ensures Elements(r) == Elements(s)
  {
    if s == [] then []
    else
      assert s == [s[0]] + s[1..];
      InsertUnique(s[0], SortedDistinct(s[1..]))
  }

  /** The tail of a strictly sorted list holds everything but its head. */
  lemma TailElements(r: seq<string>)
    requires StrictlySorted(r) && r != []
    ensures Elements(r[1..]) == Elements(r) - {r[0]}
  {
    assert r == [r[0]] + r[1..];
    forall y | y in r[1..] ensures y != r[0] {
      var k :| 0 <= k < |r[1..]| && r[1..][k] == y;
      assert r[k + 1] == y;
      StrLtIrreflexive(y);
    }
  }

  /** A strictly sorted list is determined by its elements. */
  lemma {:induction false} StrictlySortedUnique(r1: seq<string>, r2: seq<string>)
    requires StrictlySorted(r1) && StrictlySorted(r2)
    requires Elements(r1) == Elements(r2)
    ensures r1 == r2
  {
    if r1 != [] {
      assert r1[0] in Elements(r1);
    }
    if r2 != [] {
      assert r2[0] in Elements(r2);
    }
    if r1 != [] && r2 != [] {
      if r1[0] != r2[0] {
        var i :| 0 <= i < |r2| && r2[i] == r1[0];
        var j :| 0 <= j < |r1| && r1[j] == r2[0];
        StrLtIrreflexive(r1[0]);
        StrLtTransitive(r1[0], r2[0], r1[0]);
      }
      TailElements(r1);
      TailElements(r2);
      StrictlySortedUnique(r1[1..], r2[1..]);
    }
  }
}
