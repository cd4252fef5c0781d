/**
 * The record store `HealthDataStore` (app.js:32-182). `data` is the log held
 * in memory; `storage` is what was last written under the storage key
 * `'healthTrackerData'` (None when nothing has been written). The
 * JSON encoding of the snapshot and the browser's localStorage are outside
 * the model: a snapshot is the log value itself.
 */
module Store {
  import opened Wrappers
  import opened Entries
  import opened Zones
  import opened History
  import Markdown

  /** `profile`: reference ranges, shown to the user and not used for classification. */
  datatype Profile = Profile(normalSystolic: Range, normalDiastolic: Range, normalPulse: Range)

  /** `this.data`: the entries, most recently added first, and the profile. */
  datatype StoreData = StoreData(entries: seq<Entry>, profile: Profile)

  /**
   * `loadData`: a stored snapshot is taken as it is; with nothing stored the
   * log starts empty with the default reference ranges.
   */
  function LoadData(stored: Option<StoreData>): (d: StoreData)
    ensures stored.Some? ==> d == stored.value
    ensures stored.None? ==> d.entries == []
    ensures stored.None? ==> d.profile.normalSystolic == Range(128, 140)
    ensures stored.None? ==> d.profile.normalDiastolic == Range(78, 90)
    ensures stored.None? ==> d.profile.normalPulse == Range(65, 85)
  {
    match stored
    case Some(snapshot) => snapshot
    case None => StoreData([], Profile(Range(128, 140), Range(78, 90), Range(65, 85)))
  }

  /** What `addEntry` stores: the draft with `id` set to the clock reading and its zone filled in. */
  function Stamp(draft: Entry, now: int): (e: Entry)
    ensures e.id == now && e.zone == CalculateZone(draft).Key()
    ensures e.(id := draft.id, zone := draft.zone) == draft
  {
    draft.(id := now, zone := CalculateZone(draft).Key())
  }

  /**
   * Whether `slice(0, end)` on an array of `length` elements keeps index
   * `i`: an index before `end`, or, for a negative `end`, an index before
   * the `-end` last ones.
   */
  predicate KeptBySlice(i: int, end: int, length: int)
  {
    0 <= i < length && (i < end || (end < 0 && i < length + end))
  }

  /**
   * ECMAScript's `slice(0, end)` end index: the kept indices are exactly
   * those below it.
   */
  function SliceEnd(end: int, length: nat): (k: nat)
    ensures k <= length
    ensures forall i :: 0 <= i < length ==> (i < k <==> KeptBySlice(i, end, length))
  {
    if end < 0 then (if length + end > 0 then length + end else 0)
    else if end < length then end else length
  }

  class HealthDataStore {
    var data: StoreData
    var storage: Option<StoreData>

    /** The in-memory log and the last persisted snapshot agree. */
    ghost predicate Persisted()
      reads this
    {
      storage == Some(data)
    }

    /** `constructor`: the log is whatever `loadData` finds in storage. */
    constructor (stored: Option<StoreData>)
      ensures storage == stored
      ensures data == LoadData(stored)
      ensures stored.Some? ==> Persisted()
    {
      storage := stored;
      data := LoadData(stored);
    }

    /** `saveData`: the whole log is written, replacing the previous snapshot. */
    method SaveData()
      modifies this
      ensures data == old(data)
      ensures Persisted()
    {
      storage := Some(data);
    }

    /**
     * `addEntry`: stamp the draft with the clock reading `now` and its zone,
     * put it at the head of the log and persist the whole log.
     */
    method AddEntry(draft: Entry, now: int)
      modifies this
      ensures data.entries == [Stamp(draft, now)] + old(data.entries)
      ensures |data.entries| == |old(data.entries)| + 1
      ensures data.entries[0].id == now && data.entries[0].zone == CalculateZone(draft).Key()
      ensures data.entries[1..] == old(data.entries)
      ensures data.profile == old(data.profile)
      ensures Persisted()
      ensures GetEntries(Some(1)) == [Stamp(draft, now)]
    {
      var entry := draft.(id := now);
      entry := entry.(zone := CalculateZone(entry).Key());
      data := data.(entries := [entry] + data.entries);
      SaveData();
    }

    /**
     * `getEntries(limit)`: a truthy limit gives `slice(0, limit)`, a prefix of
     * the log; null or 0 gives the whole log.
     */
    function GetEntries(limit: Option<int>): (r: seq<Entry>)
      reads this
      ensures r <= data.entries
      ensures limit.None? || limit.value == 0 ==> r == data.entries
      ensures limit.Some? && limit.value > 0 ==>
                |r| == if limit.value < |data.entries| then limit.value else |data.entries|
      ensures limit.Some? && limit.value < 0 ==>
                |r| == if |data.entries| + limit.value > 0 then |data.entries| + limit.value else 0
    {
      if limit.Some? && limit.value != 0 then data.entries[..SliceEnd(limit.value, |data.entries|)]
      else data.entries
    }

    /**
     * `getLastNDays`: the entries stamped at or after `cutoff`, ascending by
     * timestamp, entries with equal timestamps in stored order. The log
     * itself is not touched: the sort works on the filtered copy.
     */
    function GetLastNDays(cutoff: int): (r: seq<Entry>)
      reads this
      ensures forall e :: multiset(r)[e] == if e.datetime >= cutoff then multiset(data.entries)[e] else 0
      ensures SortedByDatetime(r)
      ensures forall t :: WithDatetime(r, t) == if t >= cutoff then WithDatetime(data.entries, t) else []
    {
      var recent := FilterSince(data.entries, cutoff);
      var sorted := SortByDatetime(recent);
      assert forall t :: WithDatetime(sorted, t) == if t >= cutoff then WithDatetime(data.entries, t) else [] by {
        forall t
          ensures WithDatetime(sorted, t) == if t >= cutoff then WithDatetime(data.entries, t) else []
        {
          SortWithDatetime(recent, t);
          FilterSinceWithDatetime(data.entries, cutoff, t);
        }
      }
      sorted
    }

    /** `exportToMarkdown`: the header, then one section per entry in stored order. */
    method ExportToMarkdown(formatDate: int -> string) returns (md: string)
      ensures md == Markdown.Document(data.entries, formatDate)
    {
      md := Markdown.BuildDocument(data.entries, formatDate);
    }
  }
}
