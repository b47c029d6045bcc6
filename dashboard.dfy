/** The administrator's review dashboard (src/containers/Dashboard.js): the
    status filter, the ticket cards, the status-list and edit-panel toggles
    that share one click counter, and the accept/refuse decisions. */
module Dashboard {
  import opened Common
  import opened Records
  import Text

  // ---------------------------------------------------------------------------
  // Filtering bills by status
  // ---------------------------------------------------------------------------

  /** Where the filter runs. Under the test runner only the status is compared.
      In production the bill's author must also be neither one of the
      designated test accounts nor the reviewer (read from local storage; a
      stored user without an `email` gives `None`). */
  datatype Mode = Jest | Production(usersTest: seq<string>, userEmail: Option<string>)

  /** The filter's callback: does `bill` belong in the list for `status`? */
  predicate Selected(bill: Bill, status: Option<string>, mode: Mode) {
    && status == Some(bill.status)
    && (mode.Production? ==> bill.email !in mode.usersTest && Some(bill.email) != mode.userEmail)
  }

  /** `filteredBills(data, status)`: `[]` for undefined or empty data, otherwise
      the bills the callback selects, each as often as it occurs, in order. */
  function FilteredBills(data: Option<seq<Bill>>, status: Option<string>, mode: Mode): (r: seq<Bill>)
    ensures data.GetOr([]) == [] ==> r == []
    ensures IsSubsequence(r, data.GetOr([]))
    ensures forall i :: 0 <= i < |r| ==> Selected(r[i], status, mode)
    ensures forall b {:trigger multiset(r)[b]} :: multiset(r)[b] == if Selected(b, status, mode) then multiset(data.GetOr([]))[b] else 0
    decreases |data.GetOr([])|
  {
    if data.None? || |data.value| == 0 then []
    else
      var bills := data.value;
      var rest := FilteredBills(Some(bills[1..]), status, mode);
      assert bills == [bills[0]] + bills[1..];
      if Selected(bills[0], status, mode) then [bills[0]] + rest else rest
  }

  /** A bill is listed exactly when it is in the data, has the requested status
      and, in production, is not by a test account or by the reviewer. */
  lemma FilteredBillsMembership(data: Option<seq<Bill>>, status: Option<string>, mode: Mode, b: Bill)
    ensures b in FilteredBills(data, status, mode) <==>
      && b in data.GetOr([])
      && status == Some(b.status)
      && (mode.Production? ==> b.email !in mode.usersTest && mode.userEmail != Some(b.email))
  {
    var r := FilteredBills(data, status, mode);
    assert b in r <==> multiset(r)[b] > 0;
    assert b in data.GetOr([]) <==> multiset(data.GetOr([]))[b] > 0;
  }

  /** The production list is obtained from the test-runner list by deleting
      the bills of excluded accounts. */
  lemma {:induction false} ProductionWithinJest(data: Option<seq<Bill>>, status: Option<string>, usersTest: seq<string>, userEmail: Option<string>)
    ensures IsSubsequence(FilteredBills(data, status, Production(usersTest, userEmail)), FilteredBills(data, status, Jest))
    decreases |data.GetOr([])|
  {
    if data.Some? && |data.value| > 0 {
      var bills := data.value;
      var prod := Production(usersTest, userEmail);
      ProductionWithinJest(Some(bills[1..]), status, usersTest, userEmail);
      var p := FilteredBills(Some(bills[1..]), status, prod);
      var j := FilteredBills(Some(bills[1..]), status, Jest);
      if Selected(bills[0], status, prod) {
        assert FilteredBills(data, status, prod) == [bills[0]] + p;
        assert FilteredBills(data, status, Jest) == [bills[0]] + j;
        assert ([bills[0]] + p)[1..] == p;
      } else if Selected(bills[0], status, Jest) {
        assert FilteredBills(data, status, Jest) == [bills[0]] + j;
        assert p == [] || p[0] != bills[0];
      }
    }
  }

  // ---------------------------------------------------------------------------
  // Status of each dashboard list
  // ---------------------------------------------------------------------------

  /** The review statuses of the three dashboard lists, in arrow-icon order. */
  const ReviewStatuses: seq<string> := ["pending", "accepted", "refused"]

  /** `getStatus(index)`: the status shown by list `index`, `undefined` for any
      index other than 1, 2 or 3. */
  function GetStatus(index: int): (status: Option<string>)
    ensures status.Some? <==> 1 <= index <= 3
    ensures status.Some? ==> status.value == ReviewStatuses[index - 1]
  {
    if index == 1 then Some("pending")
    else if index == 2 then Some("accepted")
    else if index == 3 then Some("refused")
    else None
  }

  /** Distinct lists show distinct statuses. */
  lemma GetStatusInjective(i: int, j: int)
    ensures GetStatus(i).Some? && GetStatus(i) == GetStatus(j) ==> i == j
  {
  }

  // ---------------------------------------------------------------------------
  // Cards
  // ---------------------------------------------------------------------------

  /** The part of an e-mail address before its first '@' (`email.split('@')[0]`). */
  function LocalPart(email: string): (local: string)
    ensures '@' !in local
    ensures local == email || local + ['@'] <= email
  {
    Text.JoinSplit(email, '@');
    Text.SplitPartsFree(email, '@');
    var parts := Text.Split(email, '@');
    assert |parts| > 1 ==> email == (parts[0] + ['@']) + Text.Join(parts[1..], '@');
    parts[0]
  }

  /** The first and last names a card shows for an author's address. When the
      local part contains a '.', they are the dot-free segments before the first
      dot and between the first and the second dot; otherwise the first name is
      empty and the last name is the whole local part. */
  function DisplayNames(email: string): (names: (string, string))
    ensures var local := LocalPart(email);
      if '.' in local then
        && '.' !in names.0 && '.' !in names.1
        && names.0 + ['.'] + names.1 <= local
        && (|names.0| + 1 + |names.1| == |local| || local[|names.0| + 1 + |names.1|] == '.')
      else names == ("", local)
  {
    var local := LocalPart(email);
    if '.' in local then
      Text.SplitCount(local, '.');
      Text.JoinSplit(local, '.');
      Text.SplitPartsFree(local, '.');
      var parts := Text.Split(local, '.');
      assert local == parts[0] + ['.'] + Text.Join(parts[1..], '.');
      assert |parts| == 2 ==> local == parts[0] + ['.'] + parts[1];
      assert |parts| > 2 ==> local == (parts[0] + ['.'] + parts[1]) + (['.'] + Text.Join(parts[2..], '.'));
      (parts[0], parts[1])
    else
      ("", local)
  }

  /** What a ticket card displays that the model keeps: the bill it opens and
      its author's names. */
  datatype Card = Card(billId: string, firstName: string, lastName: string)

  /** `card(bill)` (src/containers/Dashboard.js:30-53), reduced to the bill id
      and the author's names. */
  function CardOf(bill: Bill): Card {
    var names := DisplayNames(bill.email);
    Card(bill.id, names.0, names.1)
  }

  /** `cards(bills)`: nothing for undefined or empty input, otherwise one card
      per bill, in order. */
  function Cards(bills: Option<seq<Bill>>): (r: seq<Card>)
    ensures |r| == |bills.GetOr([])|
    ensures forall i :: 0 <= i < |r| ==> r[i] == CardOf(bills.GetOr([])[i])
    decreases |bills.GetOr([])|
  {
    if bills.None? || |bills.value| == 0 then []
    else [CardOf(bills.value[0])] + Cards(Some(bills.value[1..]))
  }

  /** Rendering a concatenation renders each part in turn. */
  lemma CardsAppend(a: seq<Bill>, b: seq<Bill>)
    ensures Cards(Some(a + b)) == Cards(Some(a)) + Cards(Some(b))
  {
  }

  // ---------------------------------------------------------------------------
  // The panel: one click counter shared by both toggles
  // ---------------------------------------------------------------------------

  /** The instance field `counter`: unset until the first click, and `NaN` once
      `++` has been applied to it while unset. */
  datatype Counter = Undefined | NaN | Count(n: int)

  /** JavaScript's `counter++`. */
  function Incremented(c: Counter): (r: Counter)
    ensures r.Count? <==> c.Count?
    ensures c.Count? ==> r.n == c.n + 1
    ensures !c.Count? ==> r == NaN
  {
    match c
    case Count(n) => Count(n + 1)
    case _ => NaN
  }

  /** What the right-hand side of the dashboard shows after a ticket click. */
  datatype View = DecisionForm(bill: Bill) | BigBilledIcon

  /** The dashboard's state: the shared counter, the id of the tracked bill,
      and the cards shown in each status list (keyed by list index). */
  datatype Panel = Panel(counter: Counter, id: Option<string>, containers: map<int, seq<Card>>)

  /** The counter is only NaN before any ticket was clicked, and is a
      non-negative number once a bill is tracked. */
  predicate Consistent(p: Panel) {
    && (p.counter.NaN? ==> p.id.None?)
    && (p.id.Some? ==> p.counter.Count?)
    && (p.counter.Count? ==> p.counter.n >= 0)
  }

  /** `handleEditTicket`: clicking the card of `bill`. The counter restarts at 0
      when unset or when another bill was tracked; the decision form is shown
      when the restarted counter is even, the big icon otherwise; the counter
      then advances by one and `bill` becomes the tracked bill. */
  function EditTicket(p: Panel, bill: Bill): (r: (View, Panel))
    ensures r.1.id == Some(bill.id) && r.1.containers == p.containers
    ensures r.0 == DecisionForm(bill) || r.0 == BigBilledIcon
    ensures p.counter.Undefined? || p.id != Some(bill.id) ==>
      r.0 == DecisionForm(bill) && r.1.counter == Count(1)
    ensures p.id == Some(bill.id) && p.counter.Count? ==>
      && r.1.counter == Count(p.counter.n + 1)
      && (r.0 == DecisionForm(bill) <==> p.counter.n % 2 == 0)
    ensures p.id == Some(bill.id) && p.counter.NaN? ==> r.0 == BigBilledIcon && r.1.counter == NaN
    ensures Consistent(p) ==> Consistent(r.1)
  {
    var counter := if p.counter.Undefined? || p.id != Some(bill.id) then Count(0) else p.counter;
    var view := if counter.Count? && counter.n % 2 == 0 then DecisionForm(bill) else BigBilledIcon;
    (view, p.(counter := Incremented(counter), id := Some(bill.id)))
  }

  /** Two consecutive clicks on the same card show the form once and the big
      icon once; from a dashboard where that bill is not tracked, the form comes
      first and the second click ends on the big icon. */
  lemma ClickTwiceAlternates(p: Panel, bill: Bill)
    requires Consistent(p)
    ensures var first := EditTicket(p, bill);
      var second := EditTicket(first.1, bill);
      && (first.0 == DecisionForm(bill) <==> second.0 == BigBilledIcon)
      && (p.id != Some(bill.id) ==> first.0 == DecisionForm(bill) && second.0 == BigBilledIcon)
  {
  }

  /** Whether list `index` currently shows cards. */
  predicate IsOpen(p: Panel, index: int) {
    index in p.containers && p.containers[index] != []
  }

  /** `handleShowTickets(bills, index)`: clicking the arrow of list `index`. An
      open list is emptied and nothing is returned; otherwise the list shows
      the cards of the bills filtered for its status, which are returned. Either
      way the shared counter advances. A list index with no container on the
      page changes nothing but the counter. */
  function ShowTickets(p: Panel, bills: Option<seq<Bill>>, index: int, mode: Mode): (r: (seq<Bill>, Panel))
    ensures r.1.id == p.id && r.1.counter == Incremented(p.counter)
    ensures r.1.containers.Keys == p.containers.Keys
    ensures forall k :: k in p.containers && k != index ==> r.1.containers[k] == p.containers[k]
    ensures index in p.containers ==> r.1.containers[index] == Cards(Some(r.0))
    ensures IsOpen(p, index) ==> r.0 == []
    ensures !IsOpen(p, index) ==> r.0 == FilteredBills(bills, GetStatus(index), mode)
    ensures Consistent(p) ==> Consistent(r.1)
  {
    var toDisplay := FilteredBills(bills, GetStatus(index), mode);
    var counter := Incremented(p.counter);
    if IsOpen(p, index) then ([], p.(containers := p.containers[index := []], counter := counter))
    else if index in p.containers then (toDisplay, p.(containers := p.containers[index := Cards(Some(toDisplay))], counter := counter))
    else (toDisplay, p.(counter := counter))
  }

  /** Opening a closed list and clicking its arrow again restores every list. */
  lemma ToggleTwiceRestores(p: Panel, bills: Option<seq<Bill>>, index: int, mode: Mode)
    requires !IsOpen(p, index)
    ensures ShowTickets(ShowTickets(p, bills, index, mode).1, bills, index, mode).1.containers == p.containers
  {
  }

  /** A list whose status selects no bill never opens: clicking its arrow
      shows nothing and leaves it closed. */
  lemma EmptyListNeverOpens(p: Panel, bills: Option<seq<Bill>>, index: int, mode: Mode)
    requires FilteredBills(bills, GetStatus(index), mode) == []
    requires !IsOpen(p, index)
    ensures var r := ShowTickets(p, bills, index, mode);
      r.0 == [] && !IsOpen(r.1, index) && r.1.containers == p.containers
  {
  }

  /** Because both toggles advance the same counter, an arrow click between
      two clicks on the same card makes the second click show the same view as
      the first, instead of switching between form and big icon. */
  lemma ShowTicketsRepeatsView(p: Panel, bill: Bill, bills: Option<seq<Bill>>, index: int, mode: Mode)
    ensures var first := EditTicket(p, bill);
      var between := ShowTickets(first.1, bills, index, mode);
      EditTicket(between.1, bill).0 == first.0
  {
  }

  // ---------------------------------------------------------------------------
  // Review decisions
  // ---------------------------------------------------------------------------

  /** The record an accept or refuse click sends: `bill` with `status` set to the
      verdict and `commentAdmin` set to the reviewer's comment. */
  function Decided(bill: Bill, verdict: string, comment: Option<string>): (r: Bill)
    ensures r.status == verdict && r.commentAdmin == comment
    ensures r.id == bill.id
    ensures r.(status := bill.status, commentAdmin := bill.commentAdmin) == bill
  {
    bill.(status := verdict, commentAdmin := comment)
  }

  /** A later decision on the same bill replaces an earlier one entirely. */
  lemma LastDecisionWins(bill: Bill, v1: string, c1: Option<string>, v2: string, c2: Option<string>)
    ensures Decided(Decided(bill, v1, c1), v2, c2) == Decided(bill, v2, c2)
  {
  }

  /** What the dashboard does outside the page: what it asks the store to
      update, and where it navigates. */
  datatype Effect = StoreUpdate(selector: string, record: Bill) | Navigated(route: Route)

  /** The dashboard container. `hasStore` says whether a store was given;
      `rightPanel` is what the right-hand side shows after a card click (`None`
      before any); `log` records the effects in the order they happen. */
  class DashboardContainer {
    const hasStore: bool
    var counter: Counter
    var id: Option<string>
    var containers: map<int, seq<Card>>
    var rightPanel: Option<View>
    ghost var log: seq<Effect>

    function State(): Panel
      reads this
    {
      Panel(counter, id, containers)
    }

    ghost predicate Valid()
      reads this
    {
      Consistent(State())
    }

    /** A fresh dashboard: no bill tracked, counter unset, the three status
        lists on the page and all closed. */
    constructor (hasStore: bool)
      ensures Valid()
      ensures this.hasStore == hasStore
      ensures State() == Panel(Undefined, None, map[1 := [], 2 := [], 3 := []])
      ensures rightPanel == None && log == []
    {
      this.hasStore := hasStore;
      counter := Undefined;
      id := None;
      containers := map[1 := [], 2 := [], 3 := []];
      rightPanel := None;
      log := [];
    }

    method HandleEditTicket(bill: Bill)
      requires Valid()
      modifies this
      ensures Valid()
      ensures var r := EditTicket(old(State()), bill);
        State() == r.1 && rightPanel == Some(r.0)
      ensures log == old(log)
    {
      if counter.Undefined? || id != Some(bill.id) {
        counter := Count(0);
      }
      if id.None? || id != Some(bill.id) {
        id := Some(bill.id);
      }
      var view: View;
      if counter.Count? && counter.n % 2 == 0 {
        view := DecisionForm(bill);
        counter := Incremented(counter);
      } else {
        view := BigBilledIcon;
        counter := Incremented(counter);
      }
      rightPanel := Some(view);
    }

    method HandleShowTickets(bills: Option<seq<Bill>>, index: int, mode: Mode) returns (shown: seq<Bill>)
      requires Valid()
      modifies this
      ensures Valid()
      ensures (shown, State()) == ShowTickets(old(State()), bills, index, mode)
      ensures rightPanel == old(rightPanel) && log == old(log)
    {
      var status := GetStatus(index);
      var billsToDisplay := FilteredBills(bills, status, mode);
      var isTicketsDisplayed := index in containers && |containers[index]| > 0;
      if isTicketsDisplayed {
        containers := containers[index := []];
        counter := Incremented(counter);
        return [];
      }
      if index in containers {
        containers := containers[index := Cards(Some(billsToDisplay))];
      }
      counter := Incremented(counter);
      shown := billsToDisplay;
    }

    /** `updateBill`: sends the record to the store, keyed by its id; without a
        store nothing happens. */
    method UpdateBill(bill: Bill)
      modifies this`log
      ensures log == old(log) + if hasStore then [StoreUpdate(bill.id, bill)] else []
    {
      if hasStore {
        log := log + [StoreUpdate(bill.id, bill)];
      }
    }

    method HandleAcceptSubmit(bill: Bill, comment: Option<string>)
      modifies this`log
      ensures log == old(log)
        + (if hasStore then [StoreUpdate(bill.id, Decided(bill, "accepted", comment))] else [])
        + [Navigated(DashboardRoute)]
    {
      var newBill := Decided(bill, "accepted", comment);
      UpdateBill(newBill);
      log := log + [Navigated(DashboardRoute)];
    }

    method HandleRefuseSubmit(bill: Bill, comment: Option<string>)
      modifies this`log
      ensures log == old(log)
        + (if hasStore then [StoreUpdate(bill.id, Decided(bill, "refused", comment))] else [])
        + [Navigated(DashboardRoute)]
    {
      var newBill := Decided(bill, "refused", comment);
      UpdateBill(newBill);
      log := log + [Navigated(DashboardRoute)];
    }
  }

  /** A fresh dashboard, the pending list opened, then the same card clicked
      twice: the first click renders the decision form for that bill, the
      second the big icon. The arrow click leaves the counter at `NaN`, which
      the first card click resets. */
  method OpenListAndClickTwice(bills: seq<Bill>, mode: Mode, k: nat) returns (first: View, second: View)
    requires k < |FilteredBills(Some(bills), Some("pending"), mode)|
    ensures first == DecisionForm(FilteredBills(Some(bills), Some("pending"), mode)[k])
    ensures second == BigBilledIcon
  {
    var dashboard := new DashboardContainer(false);
    assert !IsOpen(dashboard.State(), 1) && GetStatus(1) == Some("pending");
    var shown := dashboard.HandleShowTickets(Some(bills), 1, mode);
    assert shown == FilteredBills(Some(bills), Some("pending"), mode);
    assert dashboard.id == None;
    var bill := shown[k];
    dashboard.HandleEditTicket(bill);
    first := dashboard.rightPanel.value;
    assert dashboard.counter == Count(1);
    dashboard.HandleEditTicket(bill);
    second := dashboard.rightPanel.value;
  }
}
