/**
 * The application shell: which screen is shown, which order is selected, the search box and
 * status filter of the list screen, and the header title.
 */
module App {
  import opened Options
  import opened Types
  import opened Workflow
  import Seed
  import Sequences
  import Text

  /** The status filter of the list screen: every order, or one status. */
  datatype StatusFilter = All | Only(status: Status)

  predicate MatchesStatus(filter: StatusFilter, wo: WorkOrder)
  {
    filter.All? || wo.status == filter.status
  }

  /** The search over an already lowered query: an empty query matches everything; otherwise
      the query must occur in the decimal id, the lowered title or the lowered description. */
  predicate MatchesQuery(query: string, wo: WorkOrder, lowerChar: char -> char)
  {
    query == []
    || Text.IsSubstring(query, Text.DecimalString(wo.id))
    || Text.IsSubstring(query, Text.Lowered(wo.title, lowerChar))
    || Text.IsSubstring(query, Text.Lowered(wo.description, lowerChar))
  }

  /** The list screen's contents: the status filter, then the search, each keeping order. */
  function FilteredWorkOrders(orders: seq<WorkOrder>, filter: StatusFilter, searchQuery: string,
                              lowerChar: char -> char): (r: seq<WorkOrder>)
    ensures Sequences.IsSubsequence(r, orders)
    ensures forall wo :: wo in r <==> wo in orders && MatchesStatus(filter, wo)
                                      && MatchesQuery(Text.Lowered(searchQuery, lowerChar), wo, lowerChar)
    ensures forall wo :: multiset(r)[wo] ==
                         (if MatchesStatus(filter, wo) && MatchesQuery(Text.Lowered(searchQuery, lowerChar), wo, lowerChar)
                          then multiset(orders)[wo] else 0)
  {
    var query := Text.Lowered(searchQuery, lowerChar);
    var p := (wo: WorkOrder) => MatchesStatus(filter, wo);
    var q := (wo: WorkOrder) => MatchesQuery(query, wo, lowerChar);
    var both := (wo: WorkOrder) => p(wo) && q(wo);
    Sequences.FilterTwice(orders, p, q, both);
    Sequences.FilterMembers(orders, both);
    Sequences.FilterCount(orders, both);
    Sequences.FilterIsSubsequence(orders, both);
    Sequences.Filter(Sequences.Filter(orders, p), q)
  }

  /** With the filter on All and an empty search box the list shows every order, in order. */
  lemma NoFilterShowsAll(orders: seq<WorkOrder>, lowerChar: char -> char)
    ensures FilteredWorkOrders(orders, All, "", lowerChar) == orders
  {
    var query := Text.Lowered("", lowerChar);
    var p := (wo: WorkOrder) => MatchesStatus(All, wo);
    var q := (wo: WorkOrder) => MatchesQuery(query, wo, lowerChar);
    Sequences.FilterKeepsAll(orders, p);
    Sequences.FilterKeepsAll(orders, q);
  }

  /** With an empty search box the status filter alone decides: exactly the orders with that status. */
  lemma StatusFilterOnly(orders: seq<WorkOrder>, s: Status, lowerChar: char -> char)
    ensures forall wo :: wo in FilteredWorkOrders(orders, Only(s), "", lowerChar) <==> wo in orders && wo.status == s
  {
  }

  /** With every status admitted, typing an order's own number finds it, as long as lowering
      leaves digits alone. */
  lemma SearchByNumber(orders: seq<WorkOrder>, i: int, lowerChar: char -> char)
    requires 0 <= i < |orders| && orders[i].id >= 0
    requires forall c :: '0' <= c <= '9' ==> lowerChar(c) == c
    ensures orders[i] in FilteredWorkOrders(orders, All, Text.DecimalString(orders[i].id), lowerChar)
  {
    var digits := Text.DecimalString(orders[i].id);
    var query := Text.Lowered(digits, lowerChar);
    assert query == digits;
    assert Text.IsSubstring(query, digits);
  }

  /** The order the detail screen shows: the first with the selected id, if any. */
  function SelectedOrder(orders: seq<WorkOrder>, selected: Option<int>): (r: Option<WorkOrder>)
    ensures selected.None? ==> r.None?
    ensures selected.Some? ==> r == FindWorkOrder(orders, selected.value)
  {
    if selected.None? then None else FindWorkOrder(orders, selected.value)
  }

  /** `getHeaderTitle`. */
  function HeaderTitle(view: View, orders: seq<WorkOrder>, selected: Option<int>): (t: string)
    ensures view == DetailView && SelectedOrder(orders, selected).Some? ==>
              t == "WO-" + Text.DecimalString(SelectedOrder(orders, selected).value.id)
    ensures view == DetailView && SelectedOrder(orders, selected).None? ==> t == "Detail"
    ensures view == DashboardView ==> t == "Dashboard"
    ensures view == WorkOrdersView ==> t == "All Work Orders"
    ensures view == CreateView ==> t == "Create Work Order"
    ensures view == SettingsView ==> t == "Settings"
  {
    match view
    case DashboardView => "Dashboard"
    case WorkOrdersView => "All Work Orders"
    case DetailView =>
      (match SelectedOrder(orders, selected)
       case Some(wo) => "WO-" + Text.DecimalString(wo.id)
       case None => "Detail")
    case CreateView => "Create Work Order"
    case SettingsView => "Settings"
  }

  /** On the detail screen of a found order the header names it: reading the digits after
      "WO-" gives back the selected id. */
  lemma HeaderNamesSelection(orders: seq<WorkOrder>, id: nat)
    requires FindWorkOrder(orders, id).Some?
    ensures var t := HeaderTitle(DetailView, orders, Some(id));
      |t| > 3 && t[..3] == "WO-" && Text.ParseDigits(t[3..]) == id
  {
    var t := HeaderTitle(DetailView, orders, Some(id));
    assert t == "WO-" + Text.Digits(id);
    assert t[3..] == Text.Digits(id);
    Text.ParseDigitsRoundTrip(id);
  }

  /** The back button shows on every screen but the dashboard. */
  predicate ShowBackButton(view: View)
  {
    view != DashboardView
  }

  /** The shell's state. */
  class AppState {
    var currentView: View
    var selectedWorkOrderId: Option<int>
    var currentUser: User
    var searchQuery: string
    var statusFilter: StatusFilter

    /** An order is selected only while the detail screen is shown. */
    predicate Valid()
      reads this`currentView, this`selectedWorkOrderId
    {
      selectedWorkOrderId.Some? ==> currentView == DetailView
    }

    /** The dashboard, nothing selected, the third sample user (the property manager), an
        empty search and every status. */
    constructor()
      ensures currentView == DashboardView && selectedWorkOrderId == None
      ensures currentUser == Seed.Users[2] && currentUser.role == PropertyManager
      ensures searchQuery == "" && statusFilter == All
      ensures Valid() && !ShowBackButton(currentView)
    {
      currentView := DashboardView;
      selectedWorkOrderId := None;
      currentUser := Seed.Users[2];
      searchQuery := "";
      statusFilter := All;
    }

    /** `handleSelectWorkOrder`: select the order and open its detail screen. */
    method SelectWorkOrder(id: int)
      modifies this`selectedWorkOrderId, this`currentView
      ensures selectedWorkOrderId == Some(id) && currentView == DetailView
      ensures Valid() && ShowBackButton(currentView)
    {
      selectedWorkOrderId := Some(id);
      currentView := DetailView;
    }

    /** `handleViewChange`: any screen but the detail screen drops the selection. */
    method ChangeView(view: View)
      requires Valid()
      modifies this`selectedWorkOrderId, this`currentView
      ensures currentView == view
      ensures selectedWorkOrderId == if view == DetailView then old(selectedWorkOrderId) else None
      ensures Valid()
    {
      if view != DetailView {
        selectedWorkOrderId := None;
      }
      currentView := view;
    }

    method SetSearchQuery(text: string)
      modifies this`searchQuery
      ensures searchQuery == text
    {
      searchQuery := text;
    }

    method SetStatusFilter(filter: StatusFilter)
      modifies this`statusFilter
      ensures statusFilter == filter
    {
      statusFilter := filter;
    }

    /** The settings screen switches the signed-in user. */
    method SelectUser(user: User)
      modifies this`currentUser
      ensures currentUser == user
    {
      currentUser := user;
    }
  }
}
