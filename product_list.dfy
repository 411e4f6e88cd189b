/** The product list of the tracking dashboard: a local projection of the
    products held by the supply-chain contract (the ledger), rebuilt in full by
    `FetchProducts`, changed optimistically by a confirmed status update, and
    searched and filtered for display. */
module ProductList {
  import opened Wrappers
  import opened Seqs
  import opened Text

  /** The display names of the status codes 0, 1 and 2. */
  const StatusNames: seq<string> := ["Created", "In Transit", "Delivered"]

  /** `StatusNames[status]`; `None` is the `undefined` an index outside the
      array yields. */
  function StatusName(status: int): (r: Option<string>)
    ensures r.Some? <==> 0 <= status < 3
    ensures r == Some("Created") <==> status == 0
    ensures r == Some("In Transit") <==> status == 1
    ensures r == Some("Delivered") <==> status == 2
  {
    if 0 <= status < |StatusNames| then Some(StatusNames[status]) else None
  }

  /** No two status codes share a name, and "All" names none of them, so a
      status-name filter selects exactly one status code. */
  lemma StatusNameSelectsOneCode(filter: string, status: int, k: nat)
    requires k < |StatusNames| && filter == StatusNames[k]
    ensures StatusName(status) == Some(filter) <==> status == k
    ensures filter != "All"
  {
  }

  // ---------------------------------------------------------------------
  // The local projection

  /** A timestamp in seconds. `NotANumber` is what `Number(times[idx])`
      yields when `times` is shorter than `statuses` (`Number(undefined)`). */
  datatype Timestamp = Seconds(value: int) | NotANumber

  datatype HistoryEntry = HistoryEntry(status: int, timestamp: Timestamp)

  datatype Product = Product(
    id: nat,
    name: string,
    origin: string,
    createdAt: int,
    status: int,
    history: seq<HistoryEntry>)

  // ---------------------------------------------------------------------
  // The ledger, seen from the client

  /** The outcome of one awaited contract call: a value, or an exception. */
  datatype Call<+T> = Returns(value: T) | Throws

  /** What `contract.products(i)` returns, already converted by `Number`. */
  datatype ProductRecord = ProductRecord(
    id: nat,
    name: string,
    origin: string,
    createdAt: int,
    currentStatus: int)

  /** What `contract.getHistory(i)` returns: two parallel arrays. */
  datatype HistoryArrays = HistoryArrays(statuses: seq<int>, times: seq<int>)

  /** The answers the ledger gives: to `nextId()`, and to `products(i)` and
      `getHistory(i)` for each index `i`; an index past the end throws. */
  datatype Ledger = Ledger(
    nextId: Call<nat>,
    records: seq<Call<ProductRecord>>,
    histories: seq<Call<HistoryArrays>>)

  function RecordAt(l: Ledger, i: nat): Call<ProductRecord> {
    if i < |l.records| then l.records[i] else Throws
  }

  function HistoryAt(l: Ledger, i: nat): Call<HistoryArrays> {
    if i < |l.histories| then l.histories[i] else Throws
  }

  /** Which call of a synchronisation threw. */
  datatype FetchError = CountFailed | RecordFailed(index: nat) | HistoryFailed(index: nat)

  // ---------------------------------------------------------------------
  // Building the projection

  /** `statuses.map((s, idx) => ({status: s, timestamp: times[idx]}))`:
      there is no check that the two arrays have the same length. */
  function ZipHistory(statuses: seq<int>, times: seq<int>): (h: seq<HistoryEntry>)
    ensures |h| == |statuses|
    ensures forall k :: 0 <= k < |h| ==> h[k].status == statuses[k]
    ensures forall k :: 0 <= k < |h| ==>
      h[k].timestamp == if k < |times| then Seconds(times[k]) else NotANumber
  {
    if statuses == [] then []
    else
      var first := HistoryEntry(statuses[0], if times == [] then NotANumber else Seconds(times[0]));
      var rest := if times == [] then [] else times[1..];
      assert forall k :: 1 <= k < |statuses| ==>
        (k < |times| <==> k - 1 < |rest|) && (k < |times| ==> times[k] == rest[k - 1]);
      [first] + ZipHistory(statuses[1..], rest)
  }

  /** Splits a history back into its status and timestamp arrays; `None` if
      some timestamp is not a number. */
  function Unzip(h: seq<HistoryEntry>): Option<(seq<int>, seq<int>)> {
    if h == [] then Some(([], []))
    else if h[0].timestamp.NotANumber? then None
    else match Unzip(h[1..])
      case None => None
      case Some((ss, ts)) => Some(([h[0].status] + ss, [h[0].timestamp.value] + ts))
  }

  /** When the ledger's arrays have the same length, the history loses nothing:
      unzipping it gives back both arrays. */
  lemma {:induction false} UnzipZipHistory(statuses: seq<int>, times: seq<int>)
    requires |statuses| == |times|
    ensures Unzip(ZipHistory(statuses, times)) == Some((statuses, times))
  {
    if statuses != [] {
      UnzipZipHistory(statuses[1..], times[1..]);
      var h := ZipHistory(statuses, times);
      assert h[1..] == ZipHistory(statuses[1..], times[1..]);
      assert statuses == [statuses[0]] + statuses[1..];
      assert times == [times[0]] + times[1..];
    }
  }

  /** The item pushed for one ledger index. */
  function BuildProduct(r: ProductRecord, h: HistoryArrays): (p: Product)
    ensures p.id == r.id && p.name == r.name && p.origin == r.origin
    ensures p.createdAt == r.createdAt && p.status == r.currentStatus
    ensures |p.history| == |h.statuses|
  {
    Product(r.id, r.name, r.origin, r.createdAt, r.currentStatus, ZipHistory(h.statuses, h.times))
  }

  /** Fetches index `i`: first the record, then the history. */
  function FetchEntry(l: Ledger, i: nat): (r: Result<Product, FetchError>)
    ensures r.Ok? <==> RecordAt(l, i).Returns? && HistoryAt(l, i).Returns?
    ensures r.Err? ==> r.error == (if RecordAt(l, i).Throws? then RecordFailed(i) else HistoryFailed(i))
  {
    match RecordAt(l, i)
    case Throws => Err(RecordFailed(i))
    case Returns(r) =>
      match HistoryAt(l, i)
      case Throws => Err(HistoryFailed(i))
      case Returns(h) => Ok(BuildProduct(r, h))
  }

  /** The items for the indices 0 .. n-1, fetched in ascending order; the
      first call that throws ends the attempt. */
  function Collect(l: Ledger, n: nat): (r: Result<seq<Product>, FetchError>)
    ensures r.Ok? ==> |r.value| == n
    ensures r.Err? ==> !r.error.CountFailed? && r.error.index < n
  {
    if n == 0 then Ok([])
    else match Collect(l, n - 1)
      case Err(e) => Err(e)
      case Ok(items) =>
        match FetchEntry(l, n - 1)
        case Err(e) => Err(e)
        case Ok(p) => Ok(items + [p])
  }

  /** A whole synchronisation: the count first, then every index below it. */
  function Synchronize(l: Ledger): (r: Result<seq<Product>, FetchError>)
    ensures l.nextId.Throws? ==> r == Err(CountFailed)
    ensures r.Ok? ==> l.nextId.Returns? && |r.value| == l.nextId.value
  {
    match l.nextId
    case Throws => Err(CountFailed)
    case Returns(total) => Collect(l, total)
  }

  /** Collecting n indices succeeds exactly when every one of them can be
      fetched, and the i-th item is then the one built from index i. */
  lemma {:induction false} CollectOk(l: Ledger, n: nat)
    ensures Collect(l, n).Ok? <==> forall i :: 0 <= i < n ==> FetchEntry(l, i).Ok?
    ensures Collect(l, n).Ok? ==>
      |Collect(l, n).value| == n &&
      forall i :: 0 <= i < n ==> FetchEntry(l, i) == Ok(Collect(l, n).value[i])
  {
    if n > 0 {
      CollectOk(l, n - 1);
      var prev := Collect(l, n - 1);
      var last := FetchEntry(l, n - 1);
      if prev.Ok? && last.Ok? {
        var items := prev.value + [last.value];
        assert Collect(l, n) == Ok(items);
        forall i | 0 <= i < n ensures FetchEntry(l, i) == Ok(items[i]) {
          if i < n - 1 {
            assert items[i] == prev.value[i];
          }
        }
      } else if prev.Ok? {
        assert Collect(l, n) == Err(last.error);
      } else {
        assert Collect(l, n) == Err(prev.error);
      }
    }
  }

  /** A failed collection reports the least index whose fetch throws. */
  lemma {:induction false} CollectErr(l: Ledger, n: nat)
    ensures Collect(l, n).Err? ==>
      var e := Collect(l, n).error;
      !e.CountFailed? && e.index < n && FetchEntry(l, e.index) == Err(e) &&
      forall j :: 0 <= j < e.index ==> FetchEntry(l, j).Ok?
  {
    if n > 0 {
      var prev := Collect(l, n - 1);
      if prev.Err? {
        CollectErr(l, n - 1);
        assert Collect(l, n) == prev;
      } else {
        var last := FetchEntry(l, n - 1);
        if last.Err? {
          CollectOk(l, n - 1);
          assert Collect(l, n) == Err(last.error);
          assert last.error.index == n - 1;
        }
      }
    }
  }

  /** A synchronisation succeeds exactly when the count and every record and
      history below it are fetched; it then yields exactly `total` products,
      the i-th built from ledger index i. */
  lemma SynchronizeSpec(l: Ledger)
    ensures Synchronize(l).Ok? <==>
      l.nextId.Returns? &&
      forall i :: 0 <= i < l.nextId.value ==> RecordAt(l, i).Returns? && HistoryAt(l, i).Returns?
    ensures Synchronize(l).Ok? ==>
      var items := Synchronize(l).value;
      |items| == l.nextId.value &&
      forall i :: 0 <= i < |items| ==>
        items[i] == BuildProduct(RecordAt(l, i).value, HistoryAt(l, i).value)
  {
    if l.nextId.Returns? {
      CollectOk(l, l.nextId.value);
      assert forall i: nat :: FetchEntry(l, i).Ok? <==> RecordAt(l, i).Returns? && HistoryAt(l, i).Returns?;
    }
  }

  /** When the ledger numbers its products by index, the projection holds
      exactly the ids 0 .. total-1, in ascending order. */
  lemma SynchronizeDenseIds(l: Ledger)
    requires forall i: nat :: RecordAt(l, i).Returns? ==> RecordAt(l, i).value.id == i
    ensures Synchronize(l).Ok? ==>
      forall i :: 0 <= i < |Synchronize(l).value| ==> Synchronize(l).value[i].id == i
  {
    SynchronizeSpec(l);
  }

  /** Each synchronised product carries one history entry per status in the
      ledger's array, entry k pairing `statuses[k]` with `times[k]`. */
  lemma SynchronizeHistories(l: Ledger, i: nat)
    requires Synchronize(l).Ok? && i < |Synchronize(l).value|
    ensures
      var h := HistoryAt(l, i);
      var history := Synchronize(l).value[i].history;
      h.Returns? && |history| == |h.value.statuses| &&
      forall k :: 0 <= k < |history| ==>
        history[k].status == h.value.statuses[k] &&
        history[k].timestamp == if k < |h.value.times| then Seconds(h.value.times[k]) else NotANumber
  {
    SynchronizeSpec(l);
  }

  // ---------------------------------------------------------------------
  // The optimistic update after a confirmed transaction

  /** One product after its update: the new status, and the new status
      appended to its history with the local time `floor(now / 1000)`
      (Dafny's `/` rounds down for a positive divisor). */
  function WithStatus(p: Product, newStatus: int, now: int): (q: Product)
    ensures q.id == p.id && q.name == p.name && q.origin == p.origin && q.createdAt == p.createdAt
    ensures q.status == newStatus
    ensures |q.history| == |p.history| + 1 && q.history[..|p.history|] == p.history
    ensures q.history[|p.history|] == HistoryEntry(newStatus, Seconds(now / 1000))
  {
    p.(status := newStatus, history := p.history + [HistoryEntry(newStatus, Seconds(now / 1000))])
  }

  /** `prev.map(p => p.id === id ? WithStatus(p) : p)`. */
  function ApplyStatus(ps: seq<Product>, id: nat, newStatus: int, now: int): (r: seq<Product>)
    ensures |r| == |ps|
    ensures forall j :: 0 <= j < |ps| && ps[j].id != id ==> r[j] == ps[j]
    ensures forall j :: 0 <= j < |ps| && ps[j].id == id ==> r[j] == WithStatus(ps[j], newStatus, now)
  {
    if ps == [] then []
    else [if ps[0].id == id then WithStatus(ps[0], newStatus, now) else ps[0]]
         + ApplyStatus(ps[1..], id, newStatus, now)
  }

  /** On a projection synchronised from a ledger that numbers its products by
      index, a confirmed update of id changes that one product and no other. */
  lemma ApplyStatusChangesOnlyTarget(l: Ledger, id: nat, newStatus: int, now: int)
    requires forall i: nat :: RecordAt(l, i).Returns? ==> RecordAt(l, i).value.id == i
    requires Synchronize(l).Ok? && id < |Synchronize(l).value|
    ensures
      var items := Synchronize(l).value;
      var r := ApplyStatus(items, id, newStatus, now);
      r[id] == WithStatus(items[id], newStatus, now) &&
      forall j :: 0 <= j < |items| && j != id ==> r[j] == items[j]
  {
    SynchronizeDenseIds(l);
    var items := Synchronize(l).value;
    assert forall j :: 0 <= j < |items| ==> (items[j].id == id <==> j == id);
  }

  /** The updated product's history is its old history plus one entry. */
  lemma HistoryGrowsByOne(ps: seq<Product>, k: nat, newStatus: int, now: int)
    requires k < |ps|
    ensures
      var r := ApplyStatus(ps, ps[k].id, newStatus, now);
      |r| == |ps| && r[k].id == ps[k].id && r[k].status == newStatus &&
      r[k].history == ps[k].history + [HistoryEntry(newStatus, Seconds(now / 1000))]
  {
  }

  /** Two confirmed updates of one product, as in Created, then In Transit,
      then Delivered: the history grows by two entries, in the order applied,
      and the status is the last one set. */
  lemma TwoConfirmedUpdates(ps: seq<Product>, k: nat, s1: int, t1: int, s2: int, t2: int)
    requires k < |ps|
    ensures
      var r := ApplyStatus(ApplyStatus(ps, ps[k].id, s1, t1), ps[k].id, s2, t2);
      |r| == |ps| && r[k].status == s2 &&
      r[k].history == ps[k].history + [HistoryEntry(s1, Seconds(t1 / 1000)), HistoryEntry(s2, Seconds(t2 / 1000))]
  {
    var id := ps[k].id;
    var mid := ApplyStatus(ps, id, s1, t1);
    var r := ApplyStatus(mid, id, s2, t2);
    var e1, e2 := HistoryEntry(s1, Seconds(t1 / 1000)), HistoryEntry(s2, Seconds(t2 / 1000));
    assert mid[k] == WithStatus(ps[k], s1, t1);
    assert mid[k].history == ps[k].history + [e1];
    assert r[k] == WithStatus(mid[k], s2, t2);
    assert r[k].history == mid[k].history + [e2];
    assert ps[k].history + [e1] + [e2] == ps[k].history + [e1, e2];
  }

  // ---------------------------------------------------------------------
  // Search and status filter

  /** The lowercased name contains the lowercased search text, or the id's
      decimal string equals the search text exactly. */
  predicate MatchesSearch(p: Product, search: string)
    ensures search == "" ==> MatchesSearch(p, search)
    ensures NatToString(p.id) == search ==> MatchesSearch(p, search)
  {
    IncludesEmpty(ToLower(p.name));
    Includes(ToLower(p.name), ToLower(search)) || NatToString(p.id) == search
  }

  /** "All", or the name of the product's status code. */
  predicate MatchesFilter(p: Product, filter: string)
    ensures filter == "All" ==> MatchesFilter(p, filter)
    ensures filter != "All" ==>
      (MatchesFilter(p, filter) <==> 0 <= p.status < |StatusNames| && StatusNames[p.status] == filter)
  {
    filter == "All" || StatusName(p.status) == Some(filter)
  }

  /** Both conditions must hold. */
  predicate Matches(p: Product, search: string, filter: string)
    ensures Matches(p, search, filter) ==> MatchesFilter(p, filter)
    ensures search == "" && filter == "All" ==> Matches(p, search, filter)
  {
    MatchesSearch(p, search) && MatchesFilter(p, filter)
  }

  /** With no search text and the "All" filter, every product matches. */
  lemma EmptyQueryMatchesAll(ps: seq<Product>)
    ensures forall i :: 0 <= i < |ps| ==> Matches(ps[i], "", "All")
  {
    forall i | 0 <= i < |ps| ensures Matches(ps[i], "", "All") {
      IncludesEmpty(ToLower(ps[i].name));
    }
  }

  /** `products.filter(p => matchesSearch && matchesFilter)`: the matching
      products, in list order, each as often as in the list. */
  function Query(ps: seq<Product>, search: string, filter: string): (r: seq<Product>)
    ensures IsSubsequence(r, ps)
    ensures forall i :: 0 <= i < |r| ==> r[i] in ps && Matches(r[i], search, filter)
    ensures forall i :: 0 <= i < |ps| && Matches(ps[i], search, filter) ==> ps[i] in r
    ensures search == "" && filter == "All" ==> r == ps
  {
    var f := (p: Product) => Matches(p, search, filter);
    KeepIsSubsequence(ps, f);
    EmptyQueryMatchesAll(ps);
    Keep(ps, f)
  }

  /** The query keeps every copy of a matching product and drops every other. */
  lemma QueryCounts(ps: seq<Product>, search: string, filter: string, p: Product)
    ensures multiset(Query(ps, search, filter))[p] ==
      if Matches(p, search, filter) then multiset(ps)[p] else 0
  {
    KeepCounts(ps, (q: Product) => Matches(q, search, filter), p);
  }

  /** Filtering by the name of status k selects the products whose status
      code is k (and that match the search). */
  lemma QueryByStatusName(ps: seq<Product>, search: string, k: nat)
    requires k < |StatusNames|
    ensures forall i :: 0 <= i < |Query(ps, search, StatusNames[k])| ==>
      Query(ps, search, StatusNames[k])[i].status == k
    ensures forall i :: 0 <= i < |ps| && ps[i].status == k && MatchesSearch(ps[i], search) ==>
      ps[i] in Query(ps, search, StatusNames[k])
  {
  }

  /** "wid" occurs in "Widget" once both are lowercased, "x" does not, and 3
      is written "3". */
  lemma WidgetText()
    ensures Includes(ToLower("Widget"), ToLower("wid"))
    ensures NatToString(3) == "3"
    ensures !Includes(ToLower("Widget"), ToLower("x"))
  {
    assert ToLower("Widget") == "widget";
    assert ToLower("wid") == "wid";
    assert ToLower("x") == "x";
    assert OccursAt("widget", "wid", 0);
    forall i: nat | i <= 6
      ensures !OccursAt("widget", "x", i)
    {
      if i < 6 {
        assert "widget"[i] != 'x';
      }
    }
  }

  /** A product named "Widget" with id 3 is found by the search text "wid"
      and by the search text "3", and never by ("x", "Delivered"): neither
      its name nor its id matches "x", whatever its status. */
  lemma WidgetExample(w: Product)
    requires w.id == 3 && w.name == "Widget"
    ensures Query([w], "wid", "All") == [w]
    ensures Query([w], "3", "All") == [w]
    ensures Query([w], "x", "Delivered") == []
  {
    WidgetText();
    assert Query([w], "wid", "All") == [w] by {
      assert Matches(w, "wid", "All");
      KeepSingleton(w, (p: Product) => Matches(p, "wid", "All"));
    }
    assert Query([w], "3", "All") == [w] by {
      assert Matches(w, "3", "All");
      KeepSingleton(w, (p: Product) => Matches(p, "3", "All"));
    }
    assert Query([w], "x", "Delivered") == [] by {
      assert !MatchesSearch(w, "x");
      KeepSingleton(w, (p: Product) => Matches(p, "x", "Delivered"));
    }
  }

  // ---------------------------------------------------------------------
  // The component's state

  /** The ledger write behind a status change: `updateStatus` throws, the
      transaction is submitted but `wait()` throws, or it is confirmed. */
  datatype Transaction = UpdateThrows | WaitThrows | Confirmed

  class State {
    var products: seq<Product>
    var isLoading: bool
    /** The one product id whose update is awaiting the ledger, or `null`. */
    var updatingId: Option<nat>

    /** The initial state: no products, loading, nothing updating. */
    constructor ()
      ensures products == [] && isLoading && updatingId == None
    {
      products := [];
      isLoading := true;
      updatingId := None;
    }

    /** `fetchProducts`: with no wallet provider only `isLoading` is cleared.
        Otherwise loads every product into a fresh list and publishes it in one
        step; if any call throws, the previous list stays. */
    method FetchProducts(ledger: Ledger, providerAvailable: bool)
      modifies this
      ensures !isLoading && updatingId == old(updatingId)
      ensures products ==
        if providerAvailable && Synchronize(ledger).Ok? then Synchronize(ledger).value
        else old(products)
    {
      if !providerAvailable {
        isLoading := false;
        return;
      }
      isLoading := true;
      if ledger.nextId.Throws? {
        isLoading := false;
        return;
      }
      var total := ledger.nextId.value;
      var items: seq<Product> := [];
      var i: nat := 0;
      while i < total
        invariant i <= total
        invariant Collect(ledger, i) == Ok(items)
        invariant products == old(products) && updatingId == old(updatingId)
      {
        var record := RecordAt(ledger, i);
        if record.Throws? {
          CollectFailurePersists(ledger, i + 1, total);
          isLoading := false;
          return;
        }
        var history := HistoryAt(ledger, i);
        if history.Throws? {
          CollectFailurePersists(ledger, i + 1, total);
          isLoading := false;
          return;
        }
        items := items + [BuildProduct(record.value, history.value)];
        i := i + 1;
      }
      products := items;
      isLoading := false;
    }

    /** The part of `changeStatus` before its first `await`: without a signer
        nothing changes; otherwise `id` is marked as updating. */
    method BeginChangeStatus(id: nat, hasSigner: bool) returns (started: bool)
      modifies this
      ensures started == hasSigner
      ensures products == old(products) && isLoading == old(isLoading)
      ensures updatingId == if hasSigner then Some(id) else old(updatingId)
    {
      if !hasSigner {
        return false;
      }
      updatingId := Some(id);
      return true;
    }

    /** The part of `changeStatus` after the ledger has answered: a confirmed
        transaction updates the products with that id; either way the mark is
        cleared, whichever id it holds by then. */
    method FinishChangeStatus(id: nat, newStatus: int, tx: Transaction, now: int)
      modifies this
      ensures isLoading == old(isLoading)
      ensures updatingId == None
      ensures products ==
        if tx == Confirmed then ApplyStatus(old(products), id, newStatus, now) else old(products)
    {
      if tx == Confirmed {
        products := ApplyStatus(products, id, newStatus, now);
      }
      updatingId := None;
    }

    /** `changeStatus` run with no other event in between. */
    method ChangeStatus(id: nat, newStatus: int, hasSigner: bool, tx: Transaction, now: int)
      modifies this
      ensures isLoading == old(isLoading)
      ensures !hasSigner ==> products == old(products) && updatingId == old(updatingId)
      ensures hasSigner ==> updatingId == None
      ensures hasSigner ==>
        products == (if tx == Confirmed then ApplyStatus(old(products), id, newStatus, now) else old(products))
    {
      var started := BeginChangeStatus(id, hasSigner);
      if started {
        FinishChangeStatus(id, newStatus, tx, now);
      }
    }
  }

  /** Once a synchronisation has failed at some index, fetching more indices
      cannot make it succeed. */
  lemma {:induction false} CollectFailurePersists(l: Ledger, m: nat, n: nat)
    requires m <= n && Collect(l, m).Err?
    ensures Collect(l, n).Err?
    decreases n - m
  {
    if m < n {
      CollectFailurePersists(l, m, n - 1);
    }
  }

  /** With one `updatingId` for the whole list, a second update started while
      the first awaits the ledger is unmarked when the first one finishes,
      although the second still awaits the ledger. */
  method SharedUpdatingId(a: nat, b: nat, s: int, now: int) returns (marked: Option<nat>)
    ensures marked == None
  {
    var list := new State();
    var _ := list.BeginChangeStatus(a, true);
    var _ := list.BeginChangeStatus(b, true);
    list.FinishChangeStatus(a, s, Confirmed, now);
    marked := list.updatingId;
  }
}
