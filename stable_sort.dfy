/**
 * `Array.prototype.sort` with a three-way comparator on one key, as the price
 * table and the alerts list use it: the sort is stable (elements whose keys
 * compare equal keep their order), and it works in place on a copy.
 *
 * A key is a text, compared as JavaScript compares strings, or a number.
 */
module StableSort {
  import opened Text

  datatype Key = Text(s: string) | Number(n: int)

  datatype Direction = Ascending | Descending

  /** `a < b` on keys of one column. Keys of different kinds never meet; numbers are put first. */
  predicate KeyLess(a: Key, b: Key) {
    match (a, b)
    case (Number(x), Number(y)) => x < y
    case (Text(x), Text(y)) => StrLess(x, y)
    case (Number(_), Text(_)) => true
    case (Text(_), Number(_)) => false
  }

  lemma KeyLessIrreflexive(a: Key)
    ensures !KeyLess(a, a)
  {
    if a.Text? {
      StrLessIrreflexive(a.s);
    }
  }

  lemma KeyLessTransitive(a: Key, b: Key, c: Key)
    requires KeyLess(a, b) && KeyLess(b, c)
    ensures KeyLess(a, c)
  {
    if a.Text? && b.Text? && c.Text? {
      StrLessTransitive(a.s, b.s, c.s);
    }
  }

  lemma KeyLessTotal(a: Key, b: Key)
    requires a != b
    ensures KeyLess(a, b) || KeyLess(b, a)
  {
    if a.Text? && b.Text? {
      StrLessTotal(a.s, b.s);
    }
  }

  /** The comparator returns a negative number: `x` goes before `y`. */
  predicate Before<T>(key: T -> Key, dir: Direction, x: T, y: T) {
    match dir
    case Ascending => KeyLess(key(x), key(y))
    case Descending => KeyLess(key(y), key(x))
  }

  /** In order: no element goes before one that precedes it. */
  predicate Sorted<T>(key: T -> Key, dir: Direction, s: seq<T>) {
    forall i, j :: 0 <= i < j < |s| ==> !Before(key, dir, s[j], s[i])
  }

  /**
   * Inserting `x` after a list: it moves left past the elements it goes
   * before, and stops at the first it does not go before, so that it stays
   * behind every element with an equal key.
   */
  function Insert<T>(key: T -> Key, dir: Direction, t: seq<T>, x: T): seq<T> {
    if t == [] then [x]
    else if Before(key, dir, x, t[|t| - 1]) then Insert(key, dir, t[..|t| - 1], x) + [t[|t| - 1]]
    else t + [x]
  }

  /** Insertion sort: each element in turn is inserted into the sorted prefix before it. */
  function SortBy<T>(key: T -> Key, dir: Direction, s: seq<T>): seq<T> {
    if s == [] then []
    else Insert(key, dir, SortBy(key, dir, s[..|s| - 1]), s[|s| - 1])
  }

  // ---------------------------------------------------------------------------
  // The sort is a permutation
  // ---------------------------------------------------------------------------

  lemma {:induction false} InsertPermutes<T>(key: T -> Key, dir: Direction, t: seq<T>, x: T)
    ensures multiset(Insert(key, dir, t, x)) == multiset(t) + multiset{x}
    ensures |Insert(key, dir, t, x)| == |t| + 1
    decreases |t|
  {
    if t != [] && Before(key, dir, x, t[|t| - 1]) {
      InsertPermutes(key, dir, t[..|t| - 1], x);
      assert t == t[..|t| - 1] + [t[|t| - 1]];
    }
  }

  lemma {:induction false} SortPermutes<T>(key: T -> Key, dir: Direction, s: seq<T>)
    ensures multiset(SortBy(key, dir, s)) == multiset(s)
    ensures |SortBy(key, dir, s)| == |s|
    decreases |s|
  {
    if s != [] {
      SortPermutes(key, dir, s[..|s| - 1]);
      InsertPermutes(key, dir, SortBy(key, dir, s[..|s| - 1]), s[|s| - 1]);
      assert s == s[..|s| - 1] + [s[|s| - 1]];
    }
  }

  // ---------------------------------------------------------------------------
  // The sort orders the list
  // ---------------------------------------------------------------------------

  /** "Does not go before" is transitive, because the order on keys is total. */
  lemma NotBeforeTransitive<T>(key: T -> Key, dir: Direction, a: T, b: T, c: T)
    requires !Before(key, dir, b, a) && !Before(key, dir, c, b)
    ensures !Before(key, dir, c, a)
  {
    if Before(key, dir, c, a) {
      if key(a) != key(b) {
        KeyLessTotal(key(a), key(b));
      }
      if key(b) != key(c) {
        KeyLessTotal(key(b), key(c));
      }
      KeyLessIrreflexive(key(a));
      KeyLessIrreflexive(key(c));
      match dir
      case Ascending =>
        if key(a) != key(b) && key(b) != key(c) {
          KeyLessTransitive(key(a), key(b), key(c));
          KeyLessTransitive(key(c), key(a), key(c));
        } else if key(a) != key(b) {
          KeyLessTransitive(key(c), key(a), key(b));
        } else if key(b) != key(c) {
          KeyLessTransitive(key(b), key(c), key(a));
        }
      case Descending =>
        if key(a) != key(b) && key(b) != key(c) {
          KeyLessTransitive(key(c), key(b), key(a));
          KeyLessTransitive(key(a), key(c), key(a));
        } else if key(a) != key(b) {
          KeyLessTransitive(key(b), key(a), key(c));
        } else if key(b) != key(c) {
          KeyLessTransitive(key(a), key(c), key(b));
        }
    }
  }

  /** Every element of the insertion result is `x` or an element of `t`. */
  lemma {:induction false} InsertElements<T>(key: T -> Key, dir: Direction, t: seq<T>, x: T, k: nat)
    requires k < |Insert(key, dir, t, x)|
    ensures Insert(key, dir, t, x)[k] == x || Insert(key, dir, t, x)[k] in t
    decreases |t|
  {
    InsertPermutes(key, dir, t, x);
    var r := Insert(key, dir, t, x);
    assert r[k] in multiset(r);
  }

  lemma {:induction false} InsertSorted<T>(key: T -> Key, dir: Direction, t: seq<T>, x: T)
    requires Sorted(key, dir, t)
    ensures Sorted(key, dir, Insert(key, dir, t, x))
    decreases |t|
  {
    if t != [] {
      var last := t[|t| - 1];
      var init := t[..|t| - 1];
      if Before(key, dir, x, last) {
        InsertSorted(key, dir, init, x);
        var r := Insert(key, dir, init, x);
        InsertPermutes(key, dir, init, x);
        var r' := r + [last];
        forall i, j | 0 <= i < j < |r'|
          ensures !Before(key, dir, r'[j], r'[i])
        {
          if j == |r'| - 1 {
            InsertElements(key, dir, init, x, i);
            if r[i] == x {
              // x goes before last, so last cannot go before x.
              if Before(key, dir, last, x) {
                KeyLessIrreflexive(key(x));
                match dir
                case Ascending => KeyLessTransitive(key(x), key(last), key(x));
                case Descending => KeyLessTransitive(key(x), key(last), key(x));
              }
            } else {
              var m :| 0 <= m < |init| && init[m] == r[i];
            }
          }
        }
      } else {
        var r' := t + [x];
        forall i, j | 0 <= i < j < |r'|
          ensures !Before(key, dir, r'[j], r'[i])
        {
          if j == |r'| - 1 && i < |t| - 1 {
            NotBeforeTransitive(key, dir, t[i], last, x);
          }
        }
      }
    }
  }

  lemma {:induction false} SortSorted<T>(key: T -> Key, dir: Direction, s: seq<T>)
    ensures Sorted(key, dir, SortBy(key, dir, s))
    decreases |s|
  {
    if s != [] {
      SortSorted(key, dir, s[..|s| - 1]);
      InsertSorted(key, dir, SortBy(key, dir, s[..|s| - 1]), s[|s| - 1]);
    }
  }

  // ---------------------------------------------------------------------------
  // The sort is stable
  // ---------------------------------------------------------------------------

  /** The elements of `s` whose key is `v`, in order. */
  function WithKey<T>(key: T -> Key, v: Key, s: seq<T>): seq<T> {
    if s == [] then []
    else WithKey(key, v, s[..|s| - 1]) + (if key(s[|s| - 1]) == v then [s[|s| - 1]] else [])
  }

  lemma {:induction false} WithKeyAppend<T>(key: T -> Key, v: Key, a: seq<T>, b: seq<T>)
    ensures WithKey(key, v, a + b) == WithKey(key, v, a) + WithKey(key, v, b)
    decreases |b|
  {
    if b == [] {
      assert a + b == a;
    } else {
      var ab := a + b;
      assert ab[..|ab| - 1] == a + b[..|b| - 1];
      WithKeyAppend(key, v, a, b[..|b| - 1]);
    }
  }

  /** An element that goes before another has a different key, so at most one of the two has key `v`. */
  lemma BeforeKeysApart<T>(key: T -> Key, dir: Direction, x: T, y: T, v: Key)
    requires Before(key, dir, x, y)
    ensures WithKey(key, v, [x]) == [] || WithKey(key, v, [y]) == []
  {
    KeyLessIrreflexive(key(x));
    assert [x][..0] == [] && [y][..0] == [];
  }

  /**
   * The step of InsertStable where `x` goes before the last element: it is
   * inserted into the rest, and the last element stays behind it.
   */
  lemma InsertStableBefore<T>(key: T -> Key, dir: Direction, init: seq<T>, last: T, x: T, v: Key)
    requires Before(key, dir, x, last)
    requires WithKey(key, v, Insert(key, dir, init, x)) == WithKey(key, v, init) + WithKey(key, v, [x])
    ensures WithKey(key, v, Insert(key, dir, init + [last], x)) == WithKey(key, v, init + [last]) + WithKey(key, v, [x])
  {
    var inserted := Insert(key, dir, init, x);
    InsertBeforeLast(key, dir, init, last, x);
    WithKeyAppend(key, v, inserted, [last]);
    WithKeyAppend(key, v, init, [last]);
    BeforeKeysApart(key, dir, x, last, v);
    SwapEmpty(WithKey(key, v, init), WithKey(key, v, [x]), WithKey(key, v, [last]));
  }

  /** Inserting before a last element that `x` goes before inserts into the rest. */
  lemma InsertBeforeLast<T>(key: T -> Key, dir: Direction, init: seq<T>, last: T, x: T)
    requires Before(key, dir, x, last)
    ensures Insert(key, dir, init + [last], x) == Insert(key, dir, init, x) + [last]
  {
    var t := init + [last];
    assert t[..|t| - 1] == init && t[|t| - 1] == last;
  }

  /** Two pieces one of which is empty can be appended in either order. */
  lemma SwapEmpty<U>(a: seq<U>, b: seq<U>, c: seq<U>)
    requires b == [] || c == []
    ensures a + b + c == a + c + b
  {
    if b == [] {
      assert a + b == a;
    } else {
      assert a + c == a;
    }
  }

  /** Inserting `x` puts it behind every element with its key, and moves no other. */
  lemma {:induction false} InsertStable<T>(key: T -> Key, dir: Direction, t: seq<T>, x: T, v: Key)
    ensures WithKey(key, v, Insert(key, dir, t, x)) == WithKey(key, v, t) + WithKey(key, v, [x])
    decreases |t|
  {
    if t == [] {
      assert [x][..0] == [];
    } else {
      var init := t[..|t| - 1];
      assert t == init + [t[|t| - 1]];
      if Before(key, dir, x, t[|t| - 1]) {
        InsertStable(key, dir, init, x, v);
        InsertStableBefore(key, dir, init, t[|t| - 1], x, v);
      } else {
        WithKeyAppend(key, v, t, [x]);
      }
    }
  }

  /** Elements with equal keys come out in the order they went in. */
  lemma {:induction false} SortStable<T>(key: T -> Key, dir: Direction, s: seq<T>, v: Key)
    ensures WithKey(key, v, SortBy(key, dir, s)) == WithKey(key, v, s)
    decreases |s|
  {
    if s != [] {
      var init := s[..|s| - 1];
      SortStable(key, dir, init, v);
      InsertStable(key, dir, SortBy(key, dir, init), s[|s| - 1], v);
      assert s == init + [s[|s| - 1]];
      WithKeyAppend(key, v, init, [s[|s| - 1]]);
    }
  }

  // ---------------------------------------------------------------------------
  // The in-place sort on a copy
  // ---------------------------------------------------------------------------

  /** One step of moving `x` left: past `t[j - 1]` when it goes before it. */
  lemma InsertStep<T>(key: T -> Key, dir: Direction, t: seq<T>, x: T, j: nat)
    requires 0 < j <= |t|
    ensures Before(key, dir, x, t[j - 1]) ==> Insert(key, dir, t[..j], x) == Insert(key, dir, t[..j - 1], x) + [t[j - 1]]
    ensures !Before(key, dir, x, t[j - 1]) ==> Insert(key, dir, t[..j], x) == t[..j] + [x]
  {
    assert t[..j][..j - 1] == t[..j - 1];
  }

  /** Where `x` stops moving left, the insertion result is known outright. */
  lemma InsertStops<T>(key: T -> Key, dir: Direction, t: seq<T>, x: T, j: nat)
    requires j <= |t|
    requires Insert(key, dir, t, x) == Insert(key, dir, t[..j], x) + t[j..]
    requires j == 0 || !Before(key, dir, x, t[j - 1])
    ensures Insert(key, dir, t, x) == t[..j] + [x] + t[j..]
  {
    if j > 0 {
      InsertStep(key, dir, t, x, j);
    } else {
      assert t[..j] == [];
    }
  }

  /**
   * The place where `x` goes when inserted after the sorted prefix `a[..i]`:
   * scanning left, the first element `x` does not go before.
   */
  method FindSlot<T>(a: array<T>, i: nat, x: T, key: T -> Key, dir: Direction) returns (j: nat)
    requires i <= a.Length
    ensures j <= i
    ensures Insert(key, dir, a[..i], x) == a[..j] + [x] + a[j..i]
  {
    ghost var t := a[..i];
    j := i;
    assert t[..j] == t && t[j..] == [];
    while j > 0 && Before(key, dir, x, a[j - 1])
      invariant 0 <= j <= i
      invariant Insert(key, dir, t, x) == Insert(key, dir, t[..j], x) + t[j..]
    {
      assert a[j - 1] == t[j - 1];
      InsertStep(key, dir, t, x, j);
      j := j - 1;
      assert t[j..] == [t[j]] + t[j + 1..];
    }
    assert j > 0 ==> a[j - 1] == t[j - 1];
    InsertStops(key, dir, t, x, j);
    assert t[..j] == a[..j] && t[j..] == a[j..i];
  }

  /** Moves `a[j..i]` one place right, over `a[i]`. */
  method ShiftRight<T>(a: array<T>, j: nat, i: nat)
    requires j <= i < a.Length
    modifies a
    ensures a[..j] == old(a[..j])
    ensures a[j + 1..i + 1] == old(a[j..i])
    ensures a[i + 1..] == old(a[i + 1..])
  {
    var k := i;
    while k > j
      invariant j <= k <= i
      invariant forall m :: 0 <= m <= k ==> a[m] == old(a[m])
      invariant forall m :: k < m <= i ==> a[m] == old(a[m - 1])
      invariant forall m :: i < m < a.Length ==> a[m] == old(a[m])
    {
      a[k] := a[k - 1];
      k := k - 1;
    }
  }

  /** Inserts `a[i]` into the sorted prefix `a[..i]`; the rest of the array is untouched. */
  method InsertLast<T>(a: array<T>, i: nat, key: T -> Key, dir: Direction)
    requires i < a.Length
    modifies a
    ensures a[..i + 1] == Insert(key, dir, old(a[..i]), old(a[i]))
    ensures a[i + 1..] == old(a[i + 1..])
  {
    var x := a[i];
    var j := FindSlot(a, i, x, key, dir);
    ghost var want := a[..j] + [x] + a[j..i];
    ShiftRight(a, j, i);
    a[j] := x;
    assert a[..i + 1] == a[..j] + [x] + a[j + 1..i + 1];
  }

  /**
   * Copies the list into an array and sorts the array in place by insertion;
   * the result is the stable sort of the list.
   */
  method SortedCopy<T>(s: seq<T>, key: T -> Key, dir: Direction) returns (r: seq<T>)
    ensures r == SortBy(key, dir, s)
  {
    var a := new T[|s|](i requires 0 <= i < |s| => s[i]);
    assert a[..] == s;
    var i := 0;
    while i < a.Length
      invariant 0 <= i <= a.Length
      invariant a[..i] == SortBy(key, dir, s[..i])
      invariant a[i..] == s[i..]
    {
      assert a[i] == s[i] by { assert a[i..][0] == s[i..][0]; }
      InsertLast(a, i, key, dir);
      assert s[..i + 1][..i] == s[..i] && s[..i + 1][i] == s[i];
      assert a[i + 1..] == s[i + 1..] by { assert s[i + 1..] == s[i..][1..]; }
      i := i + 1;
    }
    assert s[..i] == s;
    r := a[..];
  }
}
