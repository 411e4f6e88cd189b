/** The QR scan log: scans are classified by the kind of code they carry,
    kept newest first and at most fifty, shown through a type filter, and
    persisted under one key of the browser's key-value storage. */
module QRHistory {
  import opened Seqs
  import opened Text

  /** The storage key of the log. */
  const HistoryKey: string := "qrScanHistory"

  /** At most this many scans are kept. */
  const MaxScans: nat := 50

  datatype Scan = Scan(id: int, data: string, timestamp: string, scanType: string, status: string)

  function Min(a: int, b: int): int {
    if a <= b then a else b
  }

  /** `s.slice(0, n)` for `n >= 0`: the first n elements, or all of them. */
  function Take<T>(s: seq<T>, n: nat): (r: seq<T>)
    ensures |r| == Min(|s|, n)
    ensures r == s[..|r|]
  {
    if n < |s| then s[..n] else s
  }

  /** The kind of code a scan carries, judged by the first marker found, in
      the order product, shipment, batch. The markers are case-sensitive. */
  function DetectScanType(data: string): (t: string)
    ensures t == "product" <==> Includes(data, "product-")
    ensures t == "shipment" <==> !Includes(data, "product-") && Includes(data, "shipment-")
    ensures t == "batch" <==>
      !Includes(data, "product-") && !Includes(data, "shipment-") && Includes(data, "batch-")
    ensures t == "unknown" <==>
      !Includes(data, "product-") && !Includes(data, "shipment-") && !Includes(data, "batch-")
  {
    if Includes(data, "product-") then "product"
    else if Includes(data, "shipment-") then "shipment"
    else if Includes(data, "batch-") then "batch"
    else "unknown"
  }

  /** A code carrying two markers takes the kind of the earlier check, and
      a code that carries none is unknown. */
  lemma DetectScanTypeExamples()
    ensures DetectScanType("shipment-12/product-7") == "product"
    ensures DetectScanType("batch-3") == "batch"
    ensures DetectScanType("batch-3/shipment-9") == "shipment"
    ensures DetectScanType("") == "unknown"
  {
    assert OccursAt("shipment-12/product-7", "product-", 12);
    assert OccursAt("batch-3", "batch-", 0);
    assert OccursAt("batch-3/shipment-9", "shipment-", 8);
    var s := "batch-3/shipment-9";
    forall i: nat | i <= |s| ensures !OccursAt(s, "product-", i) {
      if i + 8 <= |s| {
        assert s[i..i + 8][0] == s[i];
        assert s[i..i + 8][1] == s[i + 1];
      }
    }
  }

  /** The record `addScanToHistory` builds for scanned text, given the clock
      readings `Date.now()` and `new Date().toISOString()`. */
  function NewScan(data: string, now: int, isoTime: string): (s: Scan)
    ensures s.id == now && s.data == data && s.timestamp == isoTime && s.status == "processed"
    ensures s.scanType == DetectScanType(data)
    ensures s.scanType in ["product", "shipment", "batch", "unknown"]
  {
    Scan(now, data, isoTime, DetectScanType(data), "processed")
  }

  /** `[scan, ...history].slice(0, 50)`: the new scan first, then the newest
      old scans, so that at most fifty remain and only the oldest are lost. */
  function PrependCapped(scan: Scan, history: seq<Scan>): (r: seq<Scan>)
    ensures |r| == Min(|history| + 1, MaxScans)
    ensures |r| <= MaxScans
    ensures r[0] == scan
    ensures r[1..] == history[..Min(|history|, MaxScans - 1)]
    ensures |history| < MaxScans ==> r[1..] == history
  {
    Take([scan] + history, MaxScans)
  }

  /** `history.filter(scan => filter === 'all' || scan.type === filter)`. */
  function FilterScans(history: seq<Scan>, filter: string): (r: seq<Scan>)
    ensures filter == "all" ==> r == history
    ensures IsSubsequence(r, history) && |r| <= |history|
    ensures filter != "all" ==>
      (forall i :: 0 <= i < |r| ==> r[i] in history && r[i].scanType == filter) &&
      (forall i :: 0 <= i < |history| && history[i].scanType == filter ==> history[i] in r)
  {
    var f := (s: Scan) => filter == "all" || s.scanType == filter;
    KeepIsSubsequence(history, f);
    Keep(history, f)
  }

  /** Under a type filter each scan of that type is shown as often as it is
      logged, and no other scan is shown. */
  lemma FilterScansCounts(history: seq<Scan>, filter: string, s: Scan)
    requires filter != "all"
    ensures multiset(FilterScans(history, filter))[s] ==
      if s.scanType == filter then multiset(history)[s] else 0
  {
    KeepCounts(history, (x: Scan) => filter == "all" || x.scanType == filter, s);
  }

  /** The browser's key-value storage, holding parsed values. */
  class Storage {
    var entries: map<string, seq<Scan>>

    constructor (entries: map<string, seq<Scan>>)
      ensures this.entries == entries
    {
      this.entries := entries;
    }
  }

  class State {
    var scanHistory: seq<Scan>
    var filter: string
    const storage: Storage

    /** The stored log equals the log in memory. */
    ghost predicate Persisted()
      reads this, storage
    {
      HistoryKey in storage.entries && storage.entries[HistoryKey] == scanHistory
    }

    /** Mounting the component: the filter starts at 'all' and the log is
        loaded from storage, or is empty when the key is absent. */
    constructor (storage: Storage)
      ensures this.storage == storage && filter == "all"
      ensures scanHistory ==
        if HistoryKey in storage.entries then storage.entries[HistoryKey] else []
    {
      this.storage := storage;
      filter := "all";
      scanHistory := if HistoryKey in storage.entries then storage.entries[HistoryKey] else [];
    }

    /** `addScanToHistory`: prepends the new scan, keeps at most fifty and
        writes the result under the log's key; other keys are untouched. */
    method AddScan(data: string, now: int, isoTime: string)
      modifies this, storage
      ensures filter == old(filter)
      ensures scanHistory == PrependCapped(NewScan(data, now, isoTime), old(scanHistory))
      ensures storage.entries == old(storage.entries)[HistoryKey := scanHistory]
      ensures Persisted()
    {
      var updated := PrependCapped(NewScan(data, now, isoTime), scanHistory);
      scanHistory := updated;
      storage.entries := storage.entries[HistoryKey := updated];
    }

    /** The filter drop-down. */
    method SetFilter(f: string)
      modifies this
      ensures filter == f && scanHistory == old(scanHistory)
    {
      filter := f;
    }

    /** The "Clear History" button: empties the log and removes its key. */
    method ClearHistory()
      modifies this, storage
      ensures filter == old(filter)
      ensures scanHistory == []
      ensures storage.entries == old(storage.entries) - {HistoryKey}
    {
      scanHistory := [];
      storage.entries := storage.entries - {HistoryKey};
    }

    /** The scans shown under the current filter. */
    function FilteredHistory(): (r: seq<Scan>)
      reads this
      ensures |r| <= |scanHistory|
      ensures filter == "all" ==> r == scanHistory
    {
      FilterScans(scanHistory, filter)
    }
  }

  /** A log reloaded after a scan was added is the log that was shown. */
  method ReloadAfterAdd(storage: Storage, data: string, now: int, isoTime: string)
    returns (shown: seq<Scan>, reloaded: seq<Scan>)
    modifies storage
    ensures reloaded == shown
    ensures |shown| >= 1 && shown[0] == NewScan(data, now, isoTime)
  {
    var log := new State(storage);
    log.AddScan(data, now, isoTime);
    shown := log.scanHistory;
    var again := new State(storage);
    reloaded := again.scanHistory;
  }

  /** A log reloaded after it was cleared is empty. */
  method ReloadAfterClear(storage: Storage) returns (reloaded: seq<Scan>)
    modifies storage
    ensures reloaded == []
  {
    var log := new State(storage);
    log.ClearHistory();
    var again := new State(storage);
    reloaded := again.scanHistory;
  }
}
