/**
 * The report's entry order: `entries.sort((a, b) => new Date(a.date) - new Date(b.date))`,
 * which sorts the array it is given in place, stably.
 */
module DateOrder {
  import opened Entries
  import opened Seqs

  /**
   * Dates are the `YYYY-MM-DD` strings of the date input, for which chronological order
   * is the lexicographic order of the strings.
   */
  predicate DateLe(a: string, b: string)
    decreases |a|
  {
    if a == [] then true
    else if b == [] then false
    else if a[0] != b[0] then a[0] < b[0]
    else DateLe(a[1..], b[1..])
  }

  predicate EntryLe(x: Entry, y: Entry) {
    DateLe(x.form.date, y.form.date)
  }

  lemma {:induction false} DateLeReflexive(a: string)
    ensures DateLe(a, a)
    decreases |a|
  {
    if a != [] {
      DateLeReflexive(a[1..]);
    }
  }

  /** Any two dates are comparable. */
  lemma {:induction false} DateLeTotal(a: string, b: string)
    ensures DateLe(a, b) || DateLe(b, a)
    decreases |a|
  {
    if a != [] && b != [] && a[0] == b[0] {
      DateLeTotal(a[1..], b[1..]);
    }
  }

  lemma {:induction false} DateLeTransitive(a: string, b: string, c: string)
    requires DateLe(a, b) && DateLe(b, c)
    ensures DateLe(a, c)
    decreases |a|
  {
    if a != [] && b != [] && c != [] && a[0] == b[0] && b[0] == c[0] {
      DateLeTransitive(a[1..], b[1..], c[1..]);
    }
  }

  /** Ascending by date. */
  ghost predicate Sorted(s: seq<Entry>) {
    forall i, j :: 0 <= i < j < |s| ==> EntryLe(s[i], s[j])
  }

  /**
   * Inserts `x` into `s` from the back, after every element `le`-before it: the step a
   * stable insertion sort takes. `le` is the comparator `sort` is given.
   */
  function Insert<T>(s: seq<T>, x: T, le: (T, T) -> bool): seq<T>
    decreases |s|
  {
    if s == [] || le(s[|s| - 1], x) then s + [x]
    else Insert(s[..|s| - 1], x, le) + [s[|s| - 1]]
  }

  /** Insertion sort: the elements inserted one by one from the front. */
  function InsertionSort<T>(s: seq<T>, le: (T, T) -> bool): seq<T>
    decreases |s|
  {
    if s == [] then [] else Insert(InsertionSort(s[..|s| - 1], le), s[|s| - 1], le)
  }

  /** The order of the report's entries. */
  function SortByDate(s: seq<Entry>): seq<Entry> {
    InsertionSort(s, EntryLe)
  }

  lemma {:induction false} InsertPermutation<T>(s: seq<T>, x: T, le: (T, T) -> bool)
    ensures multiset(Insert(s, x, le)) == multiset(s) + multiset{x}
    decreases |s|
  {
    if !(s == [] || le(s[|s| - 1], x)) {
      var init, last := s[..|s| - 1], s[|s| - 1];
      SplitLast(s);
      InsertPermutation(init, x, le);
    }
  }

  lemma {:induction false} InsertSorted(s: seq<Entry>, x: Entry)
    requires Sorted(s)
    ensures Sorted(Insert(s, x, EntryLe))
    decreases |s|
  {
    if s == [] {
    } else if EntryLe(s[|s| - 1], x) {
      forall i | 0 <= i < |s| ensures EntryLe(s[i], x) {
        if i < |s| - 1 {
          DateLeTransitive(s[i].form.date, s[|s| - 1].form.date, x.form.date);
        }
      }
    } else {
      var init, last := s[..|s| - 1], s[|s| - 1];
      DateLeTotal(last.form.date, x.form.date);
      InsertSorted(init, x);
      InsertPermutation(init, x, EntryLe);
      var r := Insert(init, x, EntryLe);
      forall i | 0 <= i < |r| ensures EntryLe(r[i], last) {
        assert r[i] in multiset(r);
        assert r[i] == x || r[i] in init;
      }
    }
  }

  /** The report lists every entry exactly once, ascending by date. */
  lemma {:induction false} SortByDateCorrect(s: seq<Entry>)
    ensures Sorted(SortByDate(s))
    ensures multiset(SortByDate(s)) == multiset(s)
    decreases |s|
  {
    if s != [] {
      var init, last := s[..|s| - 1], s[|s| - 1];
      SplitLast(s);
      SortByDateCorrect(init);
      InsertSorted(SortByDate(init), last);
      InsertPermutation(SortByDate(init), last, EntryLe);
    }
  }

  /** The elements satisfying `p`, in their order. */
  function Keep<T>(s: seq<T>, p: T -> bool): seq<T>
    decreases |s|
  {
    if s == [] then [] else Keep(s[..|s| - 1], p) + KeepOne(s[|s| - 1], p)
  }

  function KeepOne<T>(x: T, p: T -> bool): seq<T> {
    if p(x) then [x] else []
  }

  lemma KeepSnoc<T>(a: seq<T>, x: T, p: T -> bool)
    ensures Keep(a + [x], p) == Keep(a, p) + KeepOne(x, p)
  {
    assert (a + [x])[..|a|] == a;
  }

  /** `le` holds between any two elements of the group `p`: they have the same key. */
  ghost predicate SameKey<T(!new)>(le: (T, T) -> bool, p: T -> bool) {
    forall a, b :: p(a) && p(b) ==> le(a, b)
  }

  /** Inserting `x` puts it after every element of its group. */
  lemma {:induction false} InsertStable<T(!new)>(s: seq<T>, x: T, le: (T, T) -> bool, p: T -> bool)
    requires SameKey(le, p)
    ensures Keep(Insert(s, x, le), p) == Keep(s, p) + KeepOne(x, p)
    decreases |s|
  {
    if s == [] || le(s[|s| - 1], x) {
      KeepSnoc(s, x, p);
    } else {
      var init, last := s[..|s| - 1], s[|s| - 1];
      InsertStable(init, x, le, p);
      SplitLast(s);
      assert KeepOne(x, p) + KeepOne(last, p) == KeepOne(last, p) + KeepOne(x, p);
      InsertStableBack(Insert(init, x, le), init, last, x, p);
    }
  }

  /** The inductive step of `InsertStable`, where `x` moves in front of `last`. */
  lemma InsertStableBack<T>(r: seq<T>, init: seq<T>, last: T, x: T, p: T -> bool)
    requires KeepOne(x, p) + KeepOne(last, p) == KeepOne(last, p) + KeepOne(x, p)
    requires Keep(r, p) == Keep(init, p) + KeepOne(x, p)
    ensures Keep(r + [last], p) == Keep(init + [last], p) + KeepOne(x, p)
  {
    KeepSnoc(r, last, p);
    KeepSnoc(init, last, p);
    var a, xk, lk := Keep(init, p), KeepOne(x, p), KeepOne(last, p);
    Associative(a, xk, lk);
    Associative(a, lk, xk);
  }

  /** Insertion sort is stable: each group of equal keys keeps its relative order. */
  lemma {:induction false} InsertionSortStable<T(!new)>(s: seq<T>, le: (T, T) -> bool, p: T -> bool)
    requires SameKey(le, p)
    ensures Keep(InsertionSort(s, le), p) == Keep(s, p)
    decreases |s|
  {
    if s != [] {
      var init, last := s[..|s| - 1], s[|s| - 1];
      InsertionSortStable(init, le, p);
      InsertStable(InsertionSort(init, le), last, le, p);
      SplitLast(s);
      KeepSnoc(init, last, p);
    }
  }

  /**
   * The report's sort is stable: the entries of any one date keep their relative order,
   * as `Array.prototype.sort` guarantees.
   */
  lemma SortByDateStable(s: seq<Entry>, d: string)
    ensures Keep(SortByDate(s), (e: Entry) => e.form.date == d) == Keep(s, (e: Entry) => e.form.date == d)
  {
    var p := (e: Entry) => e.form.date == d;
    forall a: Entry, b: Entry | p(a) && p(b)
      ensures EntryLe(a, b)
    {
      DateLeReflexive(d);
    }
    InsertionSortStable(s, EntryLe, p);
  }

  /** `a.sort(le)`: insertion sort in place, leaving `a` in the order `InsertionSort` gives. */
  method SortInPlace<T>(a: array<T>, le: (T, T) -> bool)
    modifies a
    ensures a[..] == InsertionSort(old(a[..]), le)
  {
    ghost var input := a[..];
    var i := 0;
    while i < a.Length
      invariant 0 <= i <= a.Length
      invariant a[..] == InsertionSort(input[..i], le) + input[i..]
    {
      SortStep(input, i, le);
      ConcatParts(a[..], InsertionSort(input[..i], le), input[i..]);
      InsertAt(a, i, le);
      i := i + 1;
    }
    assert input[..a.Length] == input;
  }

  /** Sorting one more element is inserting it into the sorted prefix. */
  lemma SortStep<T>(input: seq<T>, i: int, le: (T, T) -> bool)
    requires 0 <= i < |input|
    ensures |InsertionSort(input[..i], le)| == i
    ensures InsertionSort(input[..i + 1], le) == Insert(InsertionSort(input[..i], le), input[i], le)
    ensures input[i..] == [input[i]] + input[i + 1..]
  {
    assert input[..i + 1][..i] == input[..i];
    InsertionSortLength(input[..i], le);
  }

  lemma {:induction false} InsertionSortLength<T>(s: seq<T>, le: (T, T) -> bool)
    ensures |InsertionSort(s, le)| == |s|
    decreases |s|
  {
    if s != [] {
      InsertionSortLength(s[..|s| - 1], le);
      InsertPermutation(InsertionSort(s[..|s| - 1], le), s[|s| - 1], le);
      assert |multiset(InsertionSort(s, le))| == |s|;
    }
  }

  /** One step of the sort: moves `a[i]` back into the sorted prefix `a[..i]`. */
  method InsertAt<T>(a: array<T>, i: int, le: (T, T) -> bool)
    requires 0 <= i < a.Length
    modifies a
    ensures a[..] == Insert(old(a[..i]), old(a[i]), le) + old(a[i + 1..])
  {
    ghost var before := a[..];
    var x := a[i];
    var j := ShiftLater(a, i, x, le);
    InsertSplit(before[..i], x, le, j);
    a[j] := x;
    Placed(before, a[..], i, j, x);
    assert before[..i][..j] == before[..j] && before[..i][j..] == before[j..i];
  }

  /** The array after the shift and the final write, as a sequence. */
  lemma Placed<T>(before: seq<T>, after: seq<T>, i: int, j: int, x: T)
    requires |before| == |after| && 0 <= j <= i < |before|
    requires forall k :: 0 <= k < j ==> after[k] == before[k]
    requires after[j] == x
    requires forall k :: j < k <= i ==> after[k] == before[k - 1]
    requires forall k :: i < k < |before| ==> after[k] == before[k]
    ensures after == before[..j] + [x] + before[j..i] + before[i + 1..]
  {
    var r := before[..j] + [x] + before[j..i] + before[i + 1..];
    forall k | 0 <= k < |after|
      ensures after[k] == r[k]
    {
      if k > i {
        assert r[k] == before[i + 1..][k - i - 1];
      }
    }
  }

  /**
   * The inner loop of the insertion: moves every element of the sorted prefix `a[..i]`
   * that is not `le`-before `x` one place up, and returns the place left free for `x`:
   * just after the last element that is `le`-before `x`.
   */
  method ShiftLater<T>(a: array<T>, i: int, x: T, le: (T, T) -> bool) returns (j: int)
    requires 0 <= i < a.Length
    modifies a
    ensures 0 <= j <= i
    ensures forall k :: 0 <= k < j ==> a[k] == old(a[..])[k]
    ensures forall k :: j < k <= i ==> a[k] == old(a[..])[k - 1]
    ensures forall k :: i < k < a.Length ==> a[k] == old(a[..])[k]
    ensures forall k :: j <= k < i ==> !le(old(a[..])[k], x)
    ensures j > 0 ==> le(old(a[..])[j - 1], x)
  {
    ghost var before := a[..];
    j := i;
    while j > 0 && !le(a[j - 1], x)
      invariant 0 <= j <= i
      invariant forall k :: 0 <= k < j ==> a[k] == before[k]
      invariant forall k :: j < k <= i ==> a[k] == before[k - 1]
      invariant forall k :: i < k < a.Length ==> a[k] == before[k]
      invariant forall k :: j <= k < i ==> !le(before[k], x)
    {
      a[j] := a[j - 1];
      j := j - 1;
    }
  }

  /**
   * Inserting into `s` places `x` at `j` when every element from `j` on is not `le`-before
   * `x` and the one before `j`, if any, is.
   */
  lemma {:induction false} InsertSplit<T>(s: seq<T>, x: T, le: (T, T) -> bool, j: int)
    requires 0 <= j <= |s|
    requires forall k :: j <= k < |s| ==> !le(s[k], x)
    requires j > 0 ==> le(s[j - 1], x)
    ensures Insert(s, x, le) == s[..j] + [x] + s[j..]
    decreases |s|
  {
    if j < |s| {
      var init, last := s[..|s| - 1], s[|s| - 1];
      InsertSplit(init, x, le, j);
      assert init[..j] == s[..j];
      assert s[j..] == init[j..] + [last];
      Associative(s[..j] + [x], init[j..], [last]);
    } else {
      assert s[..j] == s && s[j..] == [];
    }
  }
}
