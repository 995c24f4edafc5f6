/**
 * The state-transition engine: a pure function from the collection of work orders and an
 * action to the next collection. The four keyed actions rewrite every order whose id
 * matches and keep the rest; adding an order re-sorts the collection by id, newest first.
 */
module Reducer {
  import opened Options
  import opened Types
  import opened Actions
  import Lookup
  import Seed
  import Sequences

  /** The assignee goes into `vendorId` when the first user with that id is a Vendor; an id
      that names no user counts as non-vendor. */
  predicate IsVendor(assigneeId: int)
  {
    match Lookup.GetUserById(assigneeId)
    case Some(u) => u.role == Vendor
    case None => false
  }

  /** The copy the reducer makes of an order whose id matches a keyed action. */
  function Revise(wo: WorkOrder, action: Action): (r: WorkOrder)
    requires !action.AddWorkOrder?
  {
    match action
    case AddActivity(_, activity) => wo.(activity := [activity] + wo.activity)
    case AddMedia(_, media) => wo.(media := wo.media + [media])
    case UpdateWorkOrderStatus(_, newStatus, _) => wo.(status := newStatus)
    case AssignWorkOrder(_, assigneeId, _) =>
      if IsVendor(assigneeId) then wo.(vendorId := Some(assigneeId), assignedToId := None, status := Assigned)
      else wo.(assignedToId := Some(assigneeId), vendorId := None, status := Assigned)
  }

  /** `state.map(wo => wo.id === action.workOrderId ? Revise(wo, action) : wo)`. */
  function ReviseMatching(state: seq<WorkOrder>, action: Action): (r: seq<WorkOrder>)
    requires !action.AddWorkOrder?
    ensures |r| == |state|
    ensures forall i :: 0 <= i < |r| ==> r[i].id == state[i].id
  {
    if state == [] then []
    else [if state[0].id == action.workOrderId then Revise(state[0], action) else state[0]]
         + ReviseMatching(state[1..], action)
  }

  /** Position `i` of a keyed action's result is the revised order when its id matches and the
      untouched order otherwise. */
  lemma {:induction false} ReviseMatchingAt(state: seq<WorkOrder>, action: Action, i: int)
    requires !action.AddWorkOrder?
    requires 0 <= i < |state|
    ensures ReviseMatching(state, action)[i]
            == if state[i].id == action.workOrderId then Revise(state[i], action) else state[i]
  {
    if i > 0 {
      ReviseMatchingAt(state[1..], action, i - 1);
    }
  }

  /** Ids never increase along `s`. */
  predicate SortedByIdDescending(s: seq<WorkOrder>)
  {
    forall i, j :: 0 <= i < j < |s| ==> s[i].id >= s[j].id
  }

  /** Puts `x` in front of the first element whose id is not greater than its own. */
  function InsertById(x: WorkOrder, s: seq<WorkOrder>): (r: seq<WorkOrder>)
    ensures |r| == |s| + 1
    ensures multiset(r) == multiset(s) + multiset{x}
  {
    if s == [] || s[0].id <= x.id then [x] + s
    else
      assert s == [s[0]] + s[1..];
      [s[0]] + InsertById(x, s[1..])
  }

  /** Inserting into a sorted sequence keeps it sorted. */
  lemma {:induction false} InsertByIdSorted(x: WorkOrder, s: seq<WorkOrder>)
    requires SortedByIdDescending(s)
    ensures SortedByIdDescending(InsertById(x, s))
  {
    if s != [] && s[0].id > x.id {
      var rest := InsertById(x, s[1..]);
      InsertByIdSorted(x, s[1..]);
      InsertByIdBounded(x, s[1..], s[0].id);
      assert InsertById(x, s) == [s[0]] + rest;
    }
  }

  /** Inserting an order whose id is at most `b` into orders whose ids are at most `b` gives
      orders whose ids are at most `b`. */
  lemma {:induction false} InsertByIdBounded(x: WorkOrder, s: seq<WorkOrder>, b: int)
    requires x.id <= b && forall k :: 0 <= k < |s| ==> s[k].id <= b
    ensures forall k :: 0 <= k < |InsertById(x, s)| ==> InsertById(x, s)[k].id <= b
  {
    if s != [] && s[0].id > x.id {
      InsertByIdBounded(x, s[1..], b);
    }
  }

  /** A stable sort by id, largest first: `sort((a, b) => b.id - a.id)`. Among equal ids the
      earlier element stays earlier, since an element is inserted before its equals. */
  function SortByIdDescending(s: seq<WorkOrder>): (r: seq<WorkOrder>)
    ensures |r| == |s|
    ensures multiset(r) == multiset(s)
    ensures SortedByIdDescending(r)
  {
    if s == [] then [] else
      assert s == [s[0]] + s[1..];
      InsertByIdSorted(s[0], SortByIdDescending(s[1..]));
      InsertById(s[0], SortByIdDescending(s[1..]))
  }

  /** The test "has id `k`", as one function value so that every filter by it is the same. */
  function WithId(k: int): WorkOrder -> bool
  {
    (wo: WorkOrder) => wo.id == k
  }

  /** Insertion passes over larger ids only, so `x` lands in front of every element with its
      own id. */
  lemma {:induction false} InsertByIdStable(x: WorkOrder, s: seq<WorkOrder>, k: int)
    ensures Sequences.Filter(InsertById(x, s), WithId(k)) == Sequences.Filter([x] + s, WithId(k))
  {
    if s != [] && s[0].id > x.id {
      var p := WithId(k);
      var rest := s[1..];
      var hs := if p(s[0]) then [s[0]] else [];
      var hx := if p(x) then [x] else [];
      assert p(s[0]) == (s[0].id == k) && p(x) == (x.id == k);
      assert hs == [] || hx == [];
      var fr := Sequences.Filter(rest, p);
      calc {
        Sequences.Filter(InsertById(x, s), p);
        { assert InsertById(x, s) == [s[0]] + InsertById(x, rest); }
        Sequences.Filter([s[0]] + InsertById(x, rest), p);
        { Sequences.FilterCons(s[0], InsertById(x, rest), p); }
        hs + Sequences.Filter(InsertById(x, rest), p);
        { InsertByIdStable(x, rest, k); }
        hs + Sequences.Filter([x] + rest, p);
        { Sequences.FilterCons(x, rest, p); }
        hs + (hx + fr);
        hx + (hs + fr);
        { assert s == [s[0]] + rest; Sequences.FilterCons(s[0], rest, p); }
        hx + Sequences.Filter(s, p);
        { Sequences.FilterCons(x, s, p); }
        Sequences.Filter([x] + s, p);
      }
    }
  }

  /** The sort is stable: for every id, the orders carrying it appear in the same relative
      order before and after sorting. */
  lemma {:induction false} SortStable(s: seq<WorkOrder>, k: int)
    ensures Sequences.Filter(SortByIdDescending(s), WithId(k)) == Sequences.Filter(s, WithId(k))
  {
    if s != [] {
      var p := WithId(k);
      var sortedRest := SortByIdDescending(s[1..]);
      SortStable(s[1..], k);
      InsertByIdStable(s[0], sortedRest, k);
      assert s == [s[0]] + s[1..];
      Sequences.FilterCons(s[0], sortedRest, p);
      Sequences.FilterCons(s[0], s[1..], p);
    }
  }

  /** `workOrdersReducer`. */
  function Apply(state: seq<WorkOrder>, action: Action): (r: seq<WorkOrder>)
    ensures action.AddWorkOrder? ==>
      |r| == |state| + 1 && multiset(r) == multiset(state) + multiset{action.order} && SortedByIdDescending(r)
    ensures !action.AddWorkOrder? ==>
      |r| == |state| && forall i :: 0 <= i < |r| ==> r[i].id == state[i].id
  {
    match action
    case AddWorkOrder(order) => SortByIdDescending([order] + state)
    case _ => ReviseMatching(state, action)
  }

  /** Position `i` of a keyed action's result (the `ReviseMatchingAt` fact, stated on `Apply`). */
  lemma ApplyAt(state: seq<WorkOrder>, action: Action, i: int)
    requires !action.AddWorkOrder?
    requires 0 <= i < |state|
    ensures |Apply(state, action)| == |state|
    ensures Apply(state, action)[i]
            == if state[i].id == action.workOrderId then Revise(state[i], action) else state[i]
  {
    ReviseMatchingAt(state, action, i);
  }

  /** Sorting an already sorted collection leaves it as it is (the sort is stable). */
  lemma {:induction false} SortKeepsSorted(s: seq<WorkOrder>)
    requires SortedByIdDescending(s)
    ensures SortByIdDescending(s) == s
  {
    if s != [] {
      SortKeepsSorted(s[1..]);
      assert SortByIdDescending(s[1..]) == s[1..];
      assert s == [s[0]] + s[1..];
    }
  }

  /** An element whose id is above every id of a sorted sequence is inserted at its head. */
  lemma InsertLargestAtHead(x: WorkOrder, s: seq<WorkOrder>)
    requires forall i :: 0 <= i < |s| ==> s[i].id < x.id
    ensures InsertById(x, SortByIdDescending(s)) == [x] + SortByIdDescending(s)
  {
    var sorted := SortByIdDescending(s);
    assert sorted == [] || sorted[0] in multiset(s);
  }

  /** ADD_WORK_ORDER with an id above every existing id puts the new order at the head,
      followed by the prior orders sorted newest first. */
  lemma AddWorkOrderAtHead(state: seq<WorkOrder>, order: WorkOrder)
    requires forall i :: 0 <= i < |state| ==> state[i].id < order.id
    ensures Apply(state, AddWorkOrder(order)) == [order] + SortByIdDescending(state)
  {
    assert ([order] + state)[1..] == state;
    InsertLargestAtHead(order, state);
  }

  /** When the prior orders are already sorted newest first, adding a newer order just
      prepends it. */
  lemma AddWorkOrderOntoSorted(state: seq<WorkOrder>, order: WorkOrder)
    requires forall i :: 0 <= i < |state| ==> state[i].id < order.id
    requires SortedByIdDescending(state)
    ensures Apply(state, AddWorkOrder(order)) == [order] + state
  {
    AddWorkOrderAtHead(state, order);
    SortKeepsSorted(state);
  }

  /** A keyed action whose id matches no order returns an equal collection. */
  lemma UnknownIdIsNoOp(state: seq<WorkOrder>, action: Action)
    requires !action.AddWorkOrder?
    requires forall i :: 0 <= i < |state| ==> state[i].id != action.workOrderId
    ensures Apply(state, action) == state
  {
    forall i | 0 <= i < |state|
      ensures Apply(state, action)[i] == state[i]
    {
      ApplyAt(state, action, i);
    }
  }

  /** ADD_ACTIVITY puts the activity at the head of each matching order's log; every other
      order, and every other field, is unchanged. */
  lemma AddActivityEffect(state: seq<WorkOrder>, workOrderId: int, activity: Activity)
    ensures var r := Apply(state, AddActivity(workOrderId, activity));
      |r| == |state| &&
      forall i :: 0 <= i < |state| ==>
        if state[i].id == workOrderId then
          r[i].activity == [activity] + state[i].activity && r[i].activity[0] == activity
          && r[i].(activity := state[i].activity) == state[i]
        else r[i] == state[i]
  {
    forall i | 0 <= i < |state|
    {
      ApplyAt(state, AddActivity(workOrderId, activity), i);
    }
  }

  /** ADD_MEDIA appends the item at the end of each matching order's media; nothing else
      changes. */
  lemma AddMediaEffect(state: seq<WorkOrder>, workOrderId: int, media: Media)
    ensures var r := Apply(state, AddMedia(workOrderId, media));
      |r| == |state| &&
      forall i :: 0 <= i < |state| ==>
        if state[i].id == workOrderId then
          r[i].media == state[i].media + [media] && r[i].media[|r[i].media| - 1] == media
          && r[i].(media := state[i].media) == state[i]
        else r[i] == state[i]
  {
    forall i | 0 <= i < |state|
    {
      ApplyAt(state, AddMedia(workOrderId, media), i);
    }
  }

  /** UPDATE_WORK_ORDER_STATUS writes any target status, whatever the current one, and
      changes no other field. */
  lemma UpdateStatusEffect(state: seq<WorkOrder>, workOrderId: int, newStatus: Status, oldStatus: Status)
    ensures var r := Apply(state, UpdateWorkOrderStatus(workOrderId, newStatus, oldStatus));
      |r| == |state| &&
      forall i :: 0 <= i < |state| ==>
        if state[i].id == workOrderId then
          r[i].status == newStatus && r[i].(status := state[i].status) == state[i]
        else r[i] == state[i]
  {
    forall i | 0 <= i < |state|
    {
      ApplyAt(state, UpdateWorkOrderStatus(workOrderId, newStatus, oldStatus), i);
    }
  }

  /** ASSIGN_WORK_ORDER routes a Vendor into `vendorId` and clears `assignedToId`, routes anyone
      else (an unknown id included) into `assignedToId` and clears `vendorId`, and sets the
      status to Assigned; no other field changes. */
  lemma AssignEffect(state: seq<WorkOrder>, workOrderId: int, assigneeId: int, oldStatus: Status)
    ensures var r := Apply(state, AssignWorkOrder(workOrderId, assigneeId, oldStatus));
      |r| == |state| &&
      forall i :: 0 <= i < |state| ==>
        if state[i].id == workOrderId then
          r[i].status == Assigned
          && (IsVendor(assigneeId) ==> r[i].vendorId == Some(assigneeId) && r[i].assignedToId == None)
          && (!IsVendor(assigneeId) ==> r[i].assignedToId == Some(assigneeId) && r[i].vendorId == None)
          && ExclusiveAssignee(r[i])
          && r[i].(status := state[i].status, assignedToId := state[i].assignedToId,
                   vendorId := state[i].vendorId) == state[i]
        else r[i] == state[i]
  {
    forall i | 0 <= i < |state|
    {
      ApplyAt(state, AssignWorkOrder(workOrderId, assigneeId, oldStatus), i);
    }
  }

  /** Over the seed directory, the Vendor routing happens for id 7 only: every other id, one
      that names no user included, lands in `assignedToId`. */
  lemma VendorRoutingOverSeed(assigneeId: int)
    ensures IsVendor(assigneeId) <==> assigneeId == 7
  {
    Lookup.UserLookups(assigneeId);
    Seed.SeedUsers();
  }

  /** Two keyed actions on the same order that revise every order of the collection alike
      produce the same collection. */
  lemma {:induction false} ReviseMatchingAgree(state: seq<WorkOrder>, a1: Action, a2: Action)
    requires !a1.AddWorkOrder? && !a2.AddWorkOrder? && a1.workOrderId == a2.workOrderId
    requires forall i :: 0 <= i < |state| ==> Revise(state[i], a1) == Revise(state[i], a2)
    ensures ReviseMatching(state, a1) == ReviseMatching(state, a2)
  {
    if state != [] {
      assert forall i :: 0 <= i < |state[1..]| ==> state[1..][i] == state[i + 1];
      ReviseMatchingAgree(state[1..], a1, a2);
    }
  }

  /** The `oldStatus` carried by ASSIGN_WORK_ORDER is never read. */
  lemma AssignIgnoresOldStatus(state: seq<WorkOrder>, workOrderId: int, assigneeId: int, s1: Status, s2: Status)
    ensures Apply(state, AssignWorkOrder(workOrderId, assigneeId, s1))
         == Apply(state, AssignWorkOrder(workOrderId, assigneeId, s2))
  {
    ReviseMatchingAgree(state, AssignWorkOrder(workOrderId, assigneeId, s1), AssignWorkOrder(workOrderId, assigneeId, s2));
  }

  /** The `oldStatus` carried by UPDATE_WORK_ORDER_STATUS is never read. */
  lemma UpdateIgnoresOldStatus(state: seq<WorkOrder>, workOrderId: int, newStatus: Status, s1: Status, s2: Status)
    ensures Apply(state, UpdateWorkOrderStatus(workOrderId, newStatus, s1))
         == Apply(state, UpdateWorkOrderStatus(workOrderId, newStatus, s2))
  {
    ReviseMatchingAgree(state, UpdateWorkOrderStatus(workOrderId, newStatus, s1), UpdateWorkOrderStatus(workOrderId, newStatus, s2));
  }

  /** Every order of the collection names at most one assignee. */
  predicate AllExclusive(state: seq<WorkOrder>)
  {
    forall i :: 0 <= i < |state| ==> ExclusiveAssignee(state[i])
  }

  /** Every action keeps "at most one of assignedToId/vendorId is set", provided an added
      order satisfies it itself. */
  lemma ApplyPreservesExclusive(state: seq<WorkOrder>, action: Action)
    requires AllExclusive(state)
    requires action.AddWorkOrder? ==> ExclusiveAssignee(action.order)
    ensures AllExclusive(Apply(state, action))
  {
    var r := Apply(state, action);
    if action.AddWorkOrder? {
      forall k | 0 <= k < |r|
        ensures ExclusiveAssignee(r[k])
      {
        assert r[k] in multiset([action.order] + state);
        if r[k] != action.order {
          assert r[k] in state;
        }
      }
    } else {
      forall k | 0 <= k < |r|
        ensures ExclusiveAssignee(r[k])
      {
        ApplyAt(state, action, k);
      }
    }
  }

  /** Each keyed action leaves an order's status either as it was or at the action's target. */
  lemma ApplyStatusTargets(state: seq<WorkOrder>, action: Action, i: int)
    requires !action.AddWorkOrder?
    requires 0 <= i < |state|
    ensures |Apply(state, action)| == |state|
    ensures Apply(state, action)[i].status == state[i].status
            || Apply(state, action)[i].status in TargetStatus(action)
  {
    ApplyAt(state, action, i);
  }
}
