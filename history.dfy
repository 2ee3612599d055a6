/** The dashboard's history file as a list of records: the lookup of the record
    closest to a reference date, the upsert of today's snapshot and the trim to
    the 400 latest records before the list is written back. */
module History {
  import opened Common
  import Sorting

  /** A key of a stored record: absent, holding JSON null, or holding a value.
      `dict.get(key, default)` answers the default only for an absent key. */
  datatype Field<+T> = Absent | JsonNull | Present(v: T)

  /** One record of the history file. `date` is the day number of a well-formed
      "YYYY-MM-DD" date, and `None` when the key is absent, null, empty or not a date. */
  datatype Record = Record(
    date: Option<int>, nlYoy: Field<real>, repoLevel: Field<int>, ycSpread: Field<real>,
    stage: Field<string>, cycleLabel: Field<string>)

  /** Today's snapshot as the run builds it; an indicator that could not be
      computed is `None`. */
  datatype Snapshot = Snapshot(
    date: int, nlYoy: Option<real>, repoLevel: Option<int>, ycSpread: Option<real>,
    stage: string, cycleLabel: string)

  /** How an optional value is stored: `None` becomes JSON null. */
  function FieldOf<T>(x: Option<T>): (f: Field<T>)
    ensures f.Absent? == false
    ensures f.JsonNull? <==> x.None?
    ensures x.Some? ==> f == Present(x.value)
  {
    match x
    case None => JsonNull
    case Some(v) => Present(v)
  }

  /** The record a snapshot is stored as. */
  function ToRecord(s: Snapshot): Record
  {
    Record(Some(s.date), FieldOf(s.nlYoy), FieldOf(s.repoLevel), FieldOf(s.ycSpread),
           Present(s.stage), Present(s.cycleLabel))
  }

  /** `abs((d - target).days)`. */
  function Distance(d: int, target: int): nat
  {
    if d >= target then d - target else target - d
  }

  /** The index `find_reference_entry` settles on: among the dated records, one
      closest to `target`; on a tie the earlier record stays, because only a
      strictly smaller distance replaces the current best. */
  function ReferenceIndex(h: seq<Record>, target: int): (r: Option<nat>)
    ensures r.None? <==> forall i :: 0 <= i < |h| ==> h[i].date.None?
    ensures r.Some? ==> r.value < |h| && h[r.value].date.Some?
    ensures r.Some? ==> forall i :: 0 <= i < |h| && h[i].date.Some? ==>
      Distance(h[r.value].date.value, target) <= Distance(h[i].date.value, target)
    ensures r.Some? ==> forall i :: 0 <= i < r.value && h[i].date.Some? ==>
      Distance(h[r.value].date.value, target) < Distance(h[i].date.value, target)
  {
    if h == [] then None
    else
      var n := |h| - 1;
      var r := ReferenceIndex(h[..n], target);
      if h[n].date.None? then r
      else if r.None? then Some(n)
      else if Distance(h[n].date.value, target) < Distance(h[r.value].date.value, target) then Some(n)
      else r
  }

  /** The record `find_reference_entry` returns, if any. */
  function ReferenceEntry(h: seq<Record>, target: int): Option<Record>
  {
    match ReferenceIndex(h, target)
    case None => None
    case Some(k) => Some(h[k])
  }

  /** The closest record is unique up to ties, and among tied records the first
      in list order is chosen. */
  lemma ReferenceIndexIsFirstClosest(h: seq<Record>, target: int, k: nat)
    requires k < |h| && h[k].date.Some?
    requires forall i :: 0 <= i < |h| && h[i].date.Some? ==> Distance(h[k].date.value, target) <= Distance(h[i].date.value, target)
    requires forall i :: 0 <= i < k && h[i].date.Some? ==> Distance(h[k].date.value, target) < Distance(h[i].date.value, target)
    ensures ReferenceIndex(h, target) == Some(k)
  {
  }

  /** `find_reference_entry`: the scan with `best` and `best_diff`. */
  method FindReferenceEntry(history: seq<Record>, today: int, lookbackDays: int) returns (best: Option<Record>)
    ensures best == ReferenceEntry(history, today - lookbackDays)
  {
    if history == [] {
      return None;
    }
    var target := today - lookbackDays;
    best := None;
    var bestDiff := 0;
    ghost var bestIndex: Option<nat> := None;
    var i := 0;
    while i < |history|
      invariant 0 <= i <= |history|
      invariant bestIndex == ReferenceIndex(history[..i], target)
      invariant bestIndex.None? ==> best.None?
      invariant bestIndex.Some? ==>
        (bestIndex.value < i && best == Some(history[bestIndex.value])
         && bestDiff == Distance(history[bestIndex.value].date.value, target))
    {
      assert history[..i + 1][..i] == history[..i];
      var h := history[i];
      if h.date.Some? {
        var diff := Distance(h.date.value, target);
        if best.None? || diff < bestDiff {
          best := Some(h);
          bestDiff := diff;
          bestIndex := Some(i);
        }
      }
      i := i + 1;
    }
    assert history[..i] == history;
  }

  /** The first index whose record is dated `d`. */
  function DateIndex(h: seq<Record>, d: int): (r: Option<nat>)
    ensures r.None? <==> forall i :: 0 <= i < |h| ==> h[i].date != Some(d)
    ensures r.Some? ==>
      (r.value < |h| && h[r.value].date == Some(d) && forall i :: 0 <= i < r.value ==> h[i].date != Some(d))
  {
    if h == [] then None
    else if h[0].date == Some(d) then Some(0)
    else
      match DateIndex(h[1..], d)
      case None => None
      case Some(i) => Some(i + 1)
  }

  /** The history after today's upsert: the first record with today's date takes
      today's values, and when there is none today's record is appended. */
  function Upserted(h: seq<Record>, s: Snapshot): (u: seq<Record>)
    ensures |h| <= |u| <= |h| + 1
    ensures ToRecord(s) in u
  {
    match DateIndex(h, s.date)
    case Some(k) =>
      assert h[k := ToRecord(s)][k] == ToRecord(s);
      h[k := ToRecord(s)]
    case None => h + [ToRecord(s)]
  }

  /** The upsert touches exactly one position: it grows the list only when no
      record carried today's date, and every other record stays as it was. */
  lemma UpsertedChangesOnlyToday(h: seq<Record>, s: Snapshot)
    ensures |Upserted(h, s)| == if DateIndex(h, s.date).Some? then |h| else |h| + 1
    ensures DateIndex(Upserted(h, s), s.date).Some?
    ensures Upserted(h, s)[DateIndex(Upserted(h, s), s.date).value] == ToRecord(s)
    ensures forall i :: 0 <= i < |h| && Some(i) != DateIndex(h, s.date) ==> Upserted(h, s)[i] == h[i]
  {
    var u := Upserted(h, s);
    match DateIndex(h, s.date)
    case Some(k) =>
      assert u[k].date == Some(s.date);
    case None =>
      assert u[|h|].date == Some(s.date);
  }

  /** Upserting the same snapshot twice is the same as upserting it once. */
  lemma UpsertedIdempotent(h: seq<Record>, s: Snapshot)
    ensures Upserted(Upserted(h, s), s) == Upserted(h, s)
  {
    var u := Upserted(h, s);
    match DateIndex(h, s.date)
    case Some(k) =>
      assert DateIndex(u, s.date) == Some(k) by {
        assert u[k].date == Some(s.date);
        assert forall i :: 0 <= i < k ==> u[i] == h[i];
      }
    case None =>
      assert DateIndex(u, s.date) == Some(|h|) by {
        assert u[|h|].date == Some(s.date);
        assert forall i :: 0 <= i < |h| ==> u[i] == h[i];
      }
  }

  /** The in-memory history of one run. */
  class HistoryList {
    var records: seq<Record>

    constructor (loaded: seq<Record>)
      ensures records == loaded
    {
      records := loaded;
    }

    /** The end of the run: update the first record dated today in place (or
        append today's record) and stop at the first match. */
    method Upsert(s: Snapshot)
      modifies this
      ensures records == Upserted(old(records), s)
    {
      var updated := false;
      var i := 0;
      while i < |records|
        invariant 0 <= i <= |records|
        invariant records == old(records)
        invariant forall j :: 0 <= j < i ==> records[j].date != Some(s.date)
      {
        if records[i].date == Some(s.date) {
          assert DateIndex(records, s.date) == Some(i);
          records := records[i := ToRecord(s)];
          updated := true;
          break;
        }
        i := i + 1;
      }
      if !updated {
        records := records + [ToRecord(s)];
      }
    }

    /** Upsert today's snapshot and hand back what `save_history` writes. */
    method UpsertAndSave(s: Snapshot) returns (written: seq<Record>)
      modifies this
      ensures records == Upserted(old(records), s)
      ensures written == Trimmed(records)
    {
      Upsert(s);
      written := Trimmed(records);
    }
  }

  /** The records kept by `save_history`. */
  const MaxRecords: nat := 400

  /** `_parse_date` as a sort key: the record's day number, or 1900-01-01 (day -25567)
      when the date is missing or unparseable. */
  function SortKey(r: Record): (k: int)
    ensures r.date.Some? ==> k == r.date.value
    ensures r.date.None? ==> k == -25567
  {
    match r.date
    case Some(d) => d
    case None => -25567
  }

  /** `save_history`'s trim: longer lists are stably sorted by date and the last
      400 kept; shorter lists are written as they are. */
  function Trimmed(h: seq<Record>): (t: seq<Record>)
    ensures |t| == if |h| > MaxRecords then MaxRecords else |h|
    ensures |h| <= MaxRecords ==> t == h
    ensures multiset(t) <= multiset(h)
  {
    if |h| > MaxRecords then
      var sorted := Sorting.SortBy(h, SortKey);
      var n := |sorted|;
      assert sorted == sorted[..n - MaxRecords] + sorted[n - MaxRecords..];
      sorted[n - MaxRecords..]
    else h
  }

  /** A trimmed long history is sorted by date, and every record dated after the
      earliest kept one is kept: only the oldest records are dropped. */
  lemma TrimmedKeepsLatest(h: seq<Record>)
    requires |h| > MaxRecords
    ensures Sorting.SortedBy(Trimmed(h), SortKey)
    ensures forall r :: r in h && SortKey(r) > SortKey(Trimmed(h)[0]) ==> r in Trimmed(h)
  {
    var sorted := Sorting.SortBy(h, SortKey);
    Sorting.SortByIsSorted(h, SortKey);
    var m := |sorted| - MaxRecords;
    var t := Trimmed(h);
    assert t == sorted[m..];
    Sorting.SortedSuffix(sorted, m, SortKey);
    forall r | r in h && SortKey(r) > SortKey(t[0]) ensures r in t {
      assert r in multiset(h);
      Sorting.SortedSuffixKeepsLarger(sorted, m, SortKey, r);
    }
  }

  /** Records sharing a date keep their relative order, and for each date the kept
      ones are the last of that date in the original list. */
  lemma TrimmedKeepsLastOfEachDate(h: seq<Record>, k: int)
    ensures var all, kept := Sorting.KeyClass(h, SortKey, k), Sorting.KeyClass(Trimmed(h), SortKey, k);
      |kept| <= |all| && kept == all[|all| - |kept|..]
  {
    if |h| > MaxRecords {
      var sorted := Sorting.SortBy(h, SortKey);
      var m := |sorted| - MaxRecords;
      Sorting.SortByIsStable(h, SortKey, k);
      assert sorted == sorted[..m] + sorted[m..];
      Sorting.KeyClassAppend(sorted[..m], sorted[m..], SortKey, k);
    }
  }
}
