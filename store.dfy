/**
 * The tracker's state and the handlers that change it: adding an entry from the form,
 * deleting entries by id, editing the contractor's profile, and exporting the report.
 * Each handler replaces the state and then writes it to local storage, where a failed
 * write is caught and only logged.
 */
module Store {
  import opened Wrappers
  import opened Entries
  import opened Totals
  import opened DateOrder
  import opened Report
  import opened Seqs

  /** `entries.filter(e => e.id !== id)`. */
  function Without(xs: seq<Entry>, id: int): (r: seq<Entry>)
    ensures |r| <= |xs|
    decreases |xs|
  {
    if xs == [] then []
    else (if xs[0].id != id then [xs[0]] else []) + Without(xs[1..], id)
  }

  /** An entry is kept exactly when it was in the list and its id differs. */
  lemma {:induction false} WithoutMembers(xs: seq<Entry>, id: int)
    ensures forall e :: e in Without(xs, id) <==> e in xs && e.id != id
    decreases |xs|
  {
    if xs != [] {
      WithoutMembers(xs[1..], id);
      SplitFirst(xs);
    }
  }

  /** Deleting an id that no entry carries changes nothing. */
  lemma {:induction false} WithoutAbsent(xs: seq<Entry>, id: int)
    requires forall e :: e in xs ==> e.id != id
    ensures Without(xs, id) == xs
    decreases |xs|
  {
    if xs != [] {
      assert xs[0] in xs;
      WithoutAbsent(xs[1..], id);
      SplitFirst(xs);
    }
  }

  /** `a` is `b` with some elements left out, the rest in their order. */
  predicate IsSubsequence(a: seq<Entry>, b: seq<Entry>)
    decreases |b|
  {
    if a == [] then true
    else if b == [] then false
    else if a[0] == b[0] then IsSubsequence(a[1..], b[1..])
    else IsSubsequence(a, b[1..])
  }

  /** The kept entries stay in their order: the result is a subsequence of the list. */
  lemma {:induction false} WithoutSubsequence(xs: seq<Entry>, id: int)
    ensures IsSubsequence(Without(xs, id), xs)
    decreases |xs|
  {
    if xs != [] {
      var w := Without(xs[1..], id);
      WithoutSubsequence(xs[1..], id);
      if xs[0].id == id {
        assert Without(xs, id) == [] + w == w;
        SkipFirst(w, xs);
      } else {
        assert Without(xs, id) == [xs[0]] + w;
        assert (Without(xs, id))[1..] == w;
      }
    }
  }

  /** A subsequence of the tail of `b` is a subsequence of `b`. */
  lemma {:induction false} SkipFirst(a: seq<Entry>, b: seq<Entry>)
    requires b != [] && IsSubsequence(a, b[1..])
    ensures IsSubsequence(a, b)
    decreases |b|, 1
  {
    if a != [] && a[0] == b[0] {
      var t := b[1..];
      if a[0] == t[0] {
        SkipFirst(a[1..], t);
      } else {
        DropFirst(a, t[1..]);
        SkipFirst(a[1..], t);
      }
    }
  }

  /** Leaving out the first element of a subsequence keeps it a subsequence. */
  lemma {:induction false} DropFirst(a: seq<Entry>, c: seq<Entry>)
    requires a != [] && IsSubsequence(a, c)
    ensures IsSubsequence(a[1..], c)
    decreases |c|, 2
  {
    if a[0] != c[0] {
      DropFirst(a, c[1..]);
    }
    SkipFirst(a[1..], c);
  }

  /**
   * Each entry is kept as often as it occurs, when its id differs, and not at all
   * otherwise: together with `WithoutSubsequence` this fixes the result.
   */
  lemma {:induction false} WithoutCounts(xs: seq<Entry>, id: int)
    ensures forall e :: multiset(Without(xs, id))[e] == if e.id != id then multiset(xs)[e] else 0
    decreases |xs|
  {
    if xs != [] {
      WithoutCounts(xs[1..], id);
      SplitFirst(xs);
      var head := if xs[0].id != id then [xs[0]] else [];
      assert multiset(Without(xs, id)) == multiset(head) + multiset(Without(xs[1..], id));
    }
  }

  /** The filter is `Keep` with the predicate "the id differs". */
  lemma {:induction false} WithoutIsKeep(xs: seq<Entry>, id: int)
    ensures Without(xs, id) == Keep(xs, (e: Entry) => e.id != id)
    decreases |xs|
  {
    if xs != [] {
      var init, last := xs[..|xs| - 1], xs[|xs| - 1];
      SplitLast(xs);
      WithoutConcat(init, [last], id);
      WithoutIsKeep(init, id);
      assert Without([last], id) == (if last.id != id then [last] else []) + Without([], id);
    }
  }

  /** Deleting twice by the same id deletes nothing more. */
  lemma {:induction false} WithoutIdempotent(xs: seq<Entry>, id: int)
    ensures Without(Without(xs, id), id) == Without(xs, id)
  {
    WithoutMembers(xs, id);
    WithoutAbsent(Without(xs, id), id);
  }

  /** Filtering a concatenation filters both parts. */
  lemma {:induction false} WithoutConcat(a: seq<Entry>, b: seq<Entry>, id: int)
    ensures Without(a + b, id) == Without(a, id) + Without(b, id)
    decreases |a|
  {
    ConcatFront(a, b);
    if a != [] {
      WithoutConcat(a[1..], b, id);
    }
  }

  /**
   * Deleting the entry just added, by the id it was stamped with, restores the list,
   * when no earlier entry carries that id.
   */
  lemma DeleteUndoesAdd(xs: seq<Entry>, e: Entry)
    requires forall x :: x in xs ==> x.id != e.id
    ensures Without(xs + [e], e.id) == xs
  {
    WithoutConcat(xs, [e], e.id);
    WithoutAbsent(xs, e.id);
    assert Without([e], e.id) == [] + Without([], e.id);
  }

  /** `{ ...contractorInfo, [field]: value }`. */
  function UpdateInfo(info: map<string, string>, field: string, value: string): (r: map<string, string>)
    ensures field in r && r[field] == value
    ensures forall k :: k in info && k != field ==> k in r && r[k] == info[k]
    ensures r.Keys == info.Keys + {field}
  {
    info[field := value]
  }

  /** The last edit of a field wins, and the report shows the edited value. */
  lemma UpdateInfoWrites(info: map<string, string>, f: string, a: string, b: string)
    ensures UpdateInfo(UpdateInfo(info, f, a), f, b) == UpdateInfo(info, f, b)
    ensures InfoField(UpdateInfo(info, f, a), f) == a
  {
  }

  /** Edits of two different fields commute. */
  lemma UpdateInfoCommutes(info: map<string, string>, f: string, g: string, a: string, b: string)
    requires f != g
    ensures UpdateInfo(UpdateInfo(info, f, a), g, b) == UpdateInfo(UpdateInfo(info, g, b), f, a)
  {
  }

  /** The component's state, and what local storage last received. */
  class Tracker {
    var entries: seq<Entry>
    var currentEntry: EntryForm
    var contractorInfo: map<string, string>
    /** The entries last written to local storage, `None` before the first write. */
    var savedEntries: Option<seq<Entry>>
    var savedInfo: Option<map<string, string>>

    /** The initial state: no entries, a blank form dated `today`, an empty profile. */
    constructor(today: string)
      ensures entries == [] && currentEntry == BlankForm(today)
      ensures contractorInfo == map["name" := "", "business" := ""]
      ensures savedEntries == None && savedInfo == None
    {
      entries := [];
      currentEntry := BlankForm(today);
      contractorInfo := map["name" := "", "business" := ""];
      savedEntries := None;
      savedInfo := None;
    }

    /** `saveEntries`: stores the list when the write succeeds (`storageOk`). */
    method SaveEntries(newEntries: seq<Entry>, storageOk: bool)
      modifies this`savedEntries
      ensures savedEntries == if storageOk then Some(newEntries) else old(savedEntries)
    {
      if storageOk {
        savedEntries := Some(newEntries);
      }
    }

    /** `saveContractorInfo`: stores the profile when the write succeeds. */
    method SaveContractorInfo(info: map<string, string>, storageOk: bool)
      modifies this`savedInfo
      ensures savedInfo == if storageOk then Some(info) else old(savedInfo)
    {
      if storageOk {
        savedInfo := Some(info);
      }
    }

    /**
     * `addEntry`: without a date it alerts and changes nothing. Otherwise it appends the
     * form, stamped with `id` and `timestamp`, saves the new list and resets the form.
     */
    method AddEntry(id: int, timestamp: string, today: string, storageOk: bool) returns (alerted: bool)
      modifies this
      ensures alerted <==> old(currentEntry.date) == ""
      ensures alerted ==> entries == old(entries) && currentEntry == old(currentEntry) && savedEntries == old(savedEntries)
      ensures !alerted ==> entries == old(entries) + [Entry(old(currentEntry), id, timestamp)]
      ensures !alerted ==> currentEntry == BlankForm(today)
      ensures !alerted ==> savedEntries == if storageOk then Some(entries) else old(savedEntries)
      ensures contractorInfo == old(contractorInfo) && savedInfo == old(savedInfo)
    {
      if !Truthy(currentEntry.date) {
        return true;
      }
      var newEntry := Entry(currentEntry, id, timestamp);
      var updatedEntries := entries + [newEntry];
      entries := updatedEntries;
      SaveEntries(updatedEntries, storageOk);
      currentEntry := BlankForm(today);
      return false;
    }

    /** `deleteEntry`: keeps the entries whose id differs, and saves them. */
    method DeleteEntry(id: int, storageOk: bool)
      modifies this
      ensures entries == Without(old(entries), id)
      ensures savedEntries == if storageOk then Some(entries) else old(savedEntries)
      ensures currentEntry == old(currentEntry)
      ensures contractorInfo == old(contractorInfo) && savedInfo == old(savedInfo)
    {
      var updatedEntries := Without(entries, id);
      entries := updatedEntries;
      SaveEntries(updatedEntries, storageOk);
    }

    /** `updateContractorInfo`: sets one profile field and saves the profile. */
    method UpdateContractorInfo(field: string, value: string, storageOk: bool)
      modifies this
      ensures contractorInfo == UpdateInfo(old(contractorInfo), field, value)
      ensures savedInfo == if storageOk then Some(contractorInfo) else old(savedInfo)
      ensures entries == old(entries) && currentEntry == old(currentEntry) && savedEntries == old(savedEntries)
    {
      var updatedInfo := UpdateInfo(contractorInfo, field, value);
      contractorInfo := updatedInfo;
      SaveContractorInfo(updatedInfo, storageOk);
    }

    /**
     * The export button: `generatePDF(entries, contractorInfo)` receives the state's own
     * array, so its in-place sort leaves the entries in report order. Nothing is saved,
     * and the dashboard totals do not change.
     */
    method ExportReport(parse: Parser, pageHeight: int) returns (items: seq<Item>)
      modifies this
      ensures items == ReportOf(parse, old(entries), contractorInfo, pageHeight)
      ensures entries == SortByDate(old(entries))
      ensures TotalsOf(parse, entries) == TotalsOf(parse, old(entries))
      ensures currentEntry == old(currentEntry) && contractorInfo == old(contractorInfo)
      ensures savedEntries == old(savedEntries) && savedInfo == old(savedInfo)
    {
      var es := entries;
      var a := new Entry[|es|](i requires 0 <= i < |es| => es[i]);
      assert a[..] == es;
      items := GenerateReport(parse, a, contractorInfo, pageHeight);
      entries := a[..];
      SortKeepsTotals(parse, es);
    }
  }
}
