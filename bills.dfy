/** The employee's bill list (src/containers/Bills.js): fetching the stored bills
    and formatting each one on its own, and the "new bill" button. */
module Bills {
  import opened Common
  import opened Records

  /** Why the store's `list()` promise was rejected. */
  datatype StoreError = StoreError(message: string)

  /** What `getBills()` returns: `undefined` right away when there is no store,
      otherwise a promise that resolves to the formatted bills, or to
      `undefined` when `list()` was rejected. */
  datatype Fetched = SyncUndefined | Resolves(bills: Option<seq<Bill>>)

  /** One record of the list. `formatDate` returns `None` where the real
      formatter throws; then the raw date is kept. The status is always
      formatted, and every other field is copied. */
  function FormatRecord(doc: Bill, formatDate: string -> Option<string>, formatStatus: string -> string): (r: Bill)
    ensures r.status == formatStatus(doc.status)
    ensures r.date == formatDate(doc.date).GetOr(doc.date)
    ensures r.(date := doc.date, status := doc.status) == doc
  {
    match formatDate(doc.date)
    case Some(formattedDate) => doc.(date := formattedDate, status := formatStatus(doc.status))
    case None => doc.(date := doc.date, status := formatStatus(doc.status))
  }

  /** `snapshot.map(...)`: every record formatted independently, in order. */
  function FormatAll(snapshot: seq<Bill>, formatDate: string -> Option<string>, formatStatus: string -> string): (r: seq<Bill>)
    ensures |r| == |snapshot|
    ensures forall i :: 0 <= i < |r| ==> r[i] == FormatRecord(snapshot[i], formatDate, formatStatus)
  {
    if snapshot == [] then []
    else [FormatRecord(snapshot[0], formatDate, formatStatus)] + FormatAll(snapshot[1..], formatDate, formatStatus)
  }

  /** A record whose date cannot be formatted affects no other record: the list
      of a concatenation is the concatenation of the lists. */
  lemma FormatAllAppend(a: seq<Bill>, b: seq<Bill>, formatDate: string -> Option<string>, formatStatus: string -> string)
    ensures FormatAll(a + b, formatDate, formatStatus) == FormatAll(a, formatDate, formatStatus) + FormatAll(b, formatDate, formatStatus)
  {
  }

  /** `getBills()` given what the store's `list()` does: no store gives
      `undefined` synchronously; a rejected list resolves to `undefined`; a
      resolved list gives one formatted record per stored record, in order. */
  function GetBills(store: Option<Result<seq<Bill>, StoreError>>, formatDate: string -> Option<string>, formatStatus: string -> string): (r: Fetched)
    ensures store.None? <==> r == SyncUndefined
    ensures store.Some? && store.value.Failure? ==> r == Resolves(None)
    ensures store.Some? && store.value.Success? ==>
      var snapshot := store.value.value;
      && r.Resolves? && r.bills.Some? && |r.bills.value| == |snapshot|
      && forall i :: 0 <= i < |snapshot| ==>
        && r.bills.value[i].status == formatStatus(snapshot[i].status)
        && r.bills.value[i].date == formatDate(snapshot[i].date).GetOr(snapshot[i].date)
        && r.bills.value[i].(date := snapshot[i].date, status := snapshot[i].status) == snapshot[i]
  {
    match store
    case None => SyncUndefined
    case Some(Failure(_)) => Resolves(None)
    case Some(Success(snapshot)) => Resolves(Some(FormatAll(snapshot, formatDate, formatStatus)))
  }

  /** The bills list container; `navigations` records the routes it asks for. */
  class BillsContainer {
    ghost var navigations: seq<Route>

    constructor ()
      ensures navigations == []
    {
      navigations := [];
    }

    /** `handleClickNewBill`: navigates to the new-bill page. */
    method HandleClickNewBill()
      modifies this
      ensures navigations == old(navigations) + [NewBillRoute]
    {
      navigations := navigations + [NewBillRoute];
    }
  }
}
