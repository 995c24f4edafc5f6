/**
 * The pure part of the workflow operations: id allocation and, for each operation, the
 * sequence of actions it dispatches given the snapshot of the collection it read. Every
 * operation reads one snapshot and computes every id from it, even when an earlier action
 * of the same operation has already changed the collection the reducer holds.
 */
module Workflow {
  import opened Options
  import opened Types
  import opened Actions
  import opened Reducer
  import Sequences

  /** An activity before the store numbers it: `Omit<Activity, 'id'>`. */
  datatype ActivityDraft = ActivityDraft(userId: int, kind: ActivityType, timestamp: string, details: Details)

  function Numbered(draft: ActivityDraft, id: int): Activity
  {
    Activity(id, draft.userId, draft.kind, draft.timestamp, draft.details)
  }

  /** The fields a caller supplies for a new order: `Omit<WorkOrder, 'id' | 'activity' | 'media'>`. */
  datatype OrderFields = OrderFields(
    title: string,
    description: string,
    status: Status,
    priority: Priority,
    propertyId: int,
    unitNumber: Option<string>,
    tenant: Option<Tenant>,
    assignedToId: Option<int>,
    vendorId: Option<int>,
    tags: Option<seq<string>>)

  /** `workOrders.find(wo => wo.id === id)`. */
  function FindWorkOrder(orders: seq<WorkOrder>, id: int): (r: Option<WorkOrder>)
    ensures r.None? <==> forall i :: 0 <= i < |orders| ==> orders[i].id != id
    ensures r.Some? ==> r.value.id == id
    ensures r.Some? ==> exists i :: 0 <= i < |orders| && orders[i] == r.value
                                    && forall j :: 0 <= j < i ==> orders[j].id != id
  {
    Sequences.FindFirst(orders, (wo: WorkOrder) => wo.id == id)
  }

  /** `Math.max(...xs)` for a non-empty list. */
  function MaxOf(xs: seq<int>): (m: int)
    requires |xs| > 0
    ensures forall i :: 0 <= i < |xs| ==> xs[i] <= m
    ensures m in xs
  {
    if |xs| == 1 then xs[0]
    else
      var m := MaxOf(xs[1..]);
      assert m in xs[1..];
      if xs[0] >= m then xs[0] else m
  }

  /** The id `addWorkOrder` allocates: the largest existing id plus one. */
  function NextWorkOrderId(orders: seq<WorkOrder>): (r: int)
    requires |orders| > 0
    ensures forall i :: 0 <= i < |orders| ==> orders[i].id < r
    ensures exists i :: 0 <= i < |orders| && orders[i].id == r - 1
  {
    var ids := seq(|orders|, i requires 0 <= i < |orders| => orders[i].id);
    assert forall i :: 0 <= i < |orders| ==> ids[i] == orders[i].id;
    MaxOf(ids) + 1
  }

  /** The id `addMedia` allocates: one more than the largest media id, or 1 when there is none. */
  function NextMediaId(media: seq<Media>): (r: int)
    ensures |media| == 0 ==> r == 1
    ensures forall i :: 0 <= i < |media| ==> media[i].id < r
    ensures |media| > 0 ==> exists i :: 0 <= i < |media| && media[i].id == r - 1
  {
    if |media| > 0 then
      var ids := seq(|media|, i requires 0 <= i < |media| => media[i].id);
      assert forall i :: 0 <= i < |media| ==> ids[i] == media[i].id;
      MaxOf(ids) + 1
    else 1
  }

  /** The order `addWorkOrder` builds: the caller's fields, the new id, no media, and a single
      CREATED entry numbered 1 and written by the current user. */
  function CreatedOrder(fields: OrderFields, id: int, currentUserId: int, now: string): WorkOrder
  {
    WorkOrder(id, fields.title, fields.description, fields.status, fields.priority, fields.propertyId,
              fields.unitNumber, fields.tenant, fields.assignedToId, fields.vendorId, [], fields.tags,
              [Activity(1, currentUserId, Created, now, NoDetails)])
  }

  /** What `addWorkOrder` dispatches after reading `snapshot`. */
  function AddWorkOrderPlan(snapshot: seq<WorkOrder>, fields: OrderFields, currentUserId: int, now: string): seq<Action>
    requires |snapshot| > 0
  {
    [AddWorkOrder(CreatedOrder(fields, NextWorkOrderId(snapshot), currentUserId, now))]
  }

  /** What `addActivity` dispatches: nothing for an unknown order, otherwise the draft numbered
      one past the length of the log in the snapshot. */
  function AddActivityPlan(snapshot: seq<WorkOrder>, workOrderId: int, draft: ActivityDraft): seq<Action>
  {
    match FindWorkOrder(snapshot, workOrderId)
    case None => []
    case Some(wo) => [AddActivity(workOrderId, Numbered(draft, |wo.activity| + 1))]
  }

  /** What `addMedia` dispatches: the media item, then (through `addActivity`, on the same
      snapshot) a MEDIA_UPLOAD entry by the same user pointing at the same url. */
  function AddMediaPlan(snapshot: seq<WorkOrder>, workOrderId: int, url: string, kind: MediaKind,
                        currentUserId: int, now: string): seq<Action>
  {
    match FindWorkOrder(snapshot, workOrderId)
    case None => []
    case Some(wo) =>
      [AddMedia(workOrderId, Media(NextMediaId(wo.media), url, kind, currentUserId, now))]
      + AddActivityPlan(snapshot, workOrderId, ActivityDraft(currentUserId, MediaUpload, now, MediaDetails(url)))
  }

  /** What `handleAssign` dispatches: the assignment, an ASSIGNMENT entry, then a STATUS_CHANGE
      entry from the snapshot's status to Assigned. It checks neither role nor status. */
  function AssignPlan(snapshot: seq<WorkOrder>, workOrderId: int, assigneeId: int,
                      currentUserId: int, now: string): seq<Action>
  {
    match FindWorkOrder(snapshot, workOrderId)
    case None => []
    case Some(wo) =>
      [AssignWorkOrder(workOrderId, assigneeId, wo.status)]
      + AddActivityPlan(snapshot, workOrderId,
                        ActivityDraft(currentUserId, Assignment, now, AssignmentDetails(assigneeId)))
      + AddActivityPlan(snapshot, workOrderId,
                        ActivityDraft(currentUserId, StatusChange, now, StatusDetails(wo.status, Assigned)))
  }

  /** What `handleStatusChange` dispatches: nothing for an unknown order or an unchanged status,
      otherwise the update followed by one STATUS_CHANGE entry. */
  function StatusChangePlan(snapshot: seq<WorkOrder>, workOrderId: int, newStatus: Status,
                            currentUserId: int, now: string): seq<Action>
  {
    match FindWorkOrder(snapshot, workOrderId)
    case None => []
    case Some(wo) =>
      if wo.status == newStatus then []
      else
        [UpdateWorkOrderStatus(workOrderId, newStatus, wo.status)]
        + AddActivityPlan(snapshot, workOrderId,
                          ActivityDraft(currentUserId, StatusChange, now, StatusDetails(wo.status, newStatus)))
  }

  /** `addActivity` on an order the snapshot holds is one ADD_ACTIVITY dispatch. */
  lemma AddActivityStep(s0: seq<WorkOrder>, s1: seq<WorkOrder>, snapshot: seq<WorkOrder>, workOrderId: int,
                        draft: ActivityDraft, wo: WorkOrder)
    requires FindWorkOrder(snapshot, workOrderId) == Some(wo)
    requires s1 == Apply(s0, AddActivity(workOrderId, Numbered(draft, |wo.activity| + 1)))
    ensures s1 == ApplyAll(s0, AddActivityPlan(snapshot, workOrderId, draft))
  {
    var a := AddActivity(workOrderId, Numbered(draft, |wo.activity| + 1));
    assert AddActivityPlan(snapshot, workOrderId, draft) == [a] + [];
    ApplyAllCons(s0, a, []);
  }

  /** `addMedia` on an order the snapshot holds, one dispatch at a time: ADD_MEDIA, then the
      entry through `addActivity`. */
  lemma AddMediaSteps(s0: seq<WorkOrder>, s2: seq<WorkOrder>, snapshot: seq<WorkOrder>, workOrderId: int,
                      url: string, kind: MediaKind, currentUserId: int, now: string, wo: WorkOrder)
    requires FindWorkOrder(snapshot, workOrderId) == Some(wo)
    requires s2 == ApplyAll(Apply(s0, AddMedia(workOrderId, Media(NextMediaId(wo.media), url, kind, currentUserId, now))),
                            AddActivityPlan(snapshot, workOrderId, ActivityDraft(currentUserId, MediaUpload, now, MediaDetails(url))))
    ensures s2 == ApplyAll(s0, AddMediaPlan(snapshot, workOrderId, url, kind, currentUserId, now))
  {
    var a := AddMedia(workOrderId, Media(NextMediaId(wo.media), url, kind, currentUserId, now));
    var p := AddActivityPlan(snapshot, workOrderId, ActivityDraft(currentUserId, MediaUpload, now, MediaDetails(url)));
    assert AddMediaPlan(snapshot, workOrderId, url, kind, currentUserId, now) == [a] + p;
    ApplyAllCons(s0, a, p);
  }

  /** `handleStatusChange` on an order the snapshot holds with another status, one dispatch at
      a time: the update, then the entry through `addActivity`. */
  lemma StatusChangeSteps(s0: seq<WorkOrder>, s2: seq<WorkOrder>, snapshot: seq<WorkOrder>, workOrderId: int,
                          newStatus: Status, currentUserId: int, now: string, wo: WorkOrder)
    requires FindWorkOrder(snapshot, workOrderId) == Some(wo) && wo.status != newStatus
    requires s2 == ApplyAll(Apply(s0, UpdateWorkOrderStatus(workOrderId, newStatus, wo.status)),
                            AddActivityPlan(snapshot, workOrderId,
                                            ActivityDraft(currentUserId, StatusChange, now, StatusDetails(wo.status, newStatus))))
    ensures s2 == ApplyAll(s0, StatusChangePlan(snapshot, workOrderId, newStatus, currentUserId, now))
  {
    var a := UpdateWorkOrderStatus(workOrderId, newStatus, wo.status);
    var p := AddActivityPlan(snapshot, workOrderId,
                             ActivityDraft(currentUserId, StatusChange, now, StatusDetails(wo.status, newStatus)));
    assert StatusChangePlan(snapshot, workOrderId, newStatus, currentUserId, now) == [a] + p;
    ApplyAllCons(s0, a, p);
  }

  /** The reducer folded over a sequence of dispatched actions, in dispatch order. */
  function ApplyAll(state: seq<WorkOrder>, actions: seq<Action>): seq<WorkOrder>
    decreases |actions|
  {
    if actions == [] then state else ApplyAll(Apply(state, actions[0]), actions[1..])
  }

  /** Dispatching a plan is dispatching its first action, then the rest. */
  lemma ApplyAllCons(state: seq<WorkOrder>, a: Action, rest: seq<Action>)
    ensures ApplyAll(state, [a] + rest) == ApplyAll(Apply(state, a), rest)
  {
    assert ([a] + rest)[1..] == rest;
  }

  /** Dispatching `xs` and then `ys` is dispatching `xs + ys`. */
  lemma {:induction false} ApplyAllConcat(state: seq<WorkOrder>, xs: seq<Action>, ys: seq<Action>)
    ensures ApplyAll(state, xs + ys) == ApplyAll(ApplyAll(state, xs), ys)
    decreases |xs|
  {
    if xs == [] {
      assert xs + ys == ys;
    } else {
      var s1 := Apply(state, xs[0]);
      assert (xs + ys)[0] == xs[0];
      assert (xs + ys)[1..] == xs[1..] + ys;
      ApplyAllConcat(s1, xs[1..], ys);
      calc {
        ApplyAll(state, xs + ys);
        ApplyAll(s1, xs[1..] + ys);
        ApplyAll(ApplyAll(s1, xs[1..]), ys);
      }
    }
  }

  /** No action of the sequence adds an order. */
  predicate Keyed(actions: seq<Action>)
  {
    forall k :: 0 <= k < |actions| ==> !actions[k].AddWorkOrder?
  }

  /** The statuses a sequence of actions writes. */
  function TargetStatuses(actions: seq<Action>): set<Status>
  {
    if actions == [] then {} else TargetStatus(actions[0]) + TargetStatuses(actions[1..])
  }

  /** Keyed actions keep the collection's length and ids, and leave each order's status either
      as it was or at one of the statuses the actions write. */
  lemma {:induction false} ApplyAllStatuses(state: seq<WorkOrder>, actions: seq<Action>, i: int)
    requires Keyed(actions)
    requires 0 <= i < |state|
    ensures |ApplyAll(state, actions)| == |state|
    ensures ApplyAll(state, actions)[i].id == state[i].id
    ensures ApplyAll(state, actions)[i].status == state[i].status
            || ApplyAll(state, actions)[i].status in TargetStatuses(actions)
    decreases |actions|
  {
    if actions != [] {
      var s1 := Apply(state, actions[0]);
      ApplyStatusTargets(state, actions[0], i);
      ApplyAllStatuses(s1, actions[1..], i);
    }
  }

  /** The exclusive-assignee invariant survives any sequence of actions whose added orders
      satisfy it. */
  lemma {:induction false} ApplyAllPreservesExclusive(state: seq<WorkOrder>, actions: seq<Action>)
    requires AllExclusive(state)
    requires forall k :: 0 <= k < |actions| && actions[k].AddWorkOrder? ==> ExclusiveAssignee(actions[k].order)
    ensures AllExclusive(ApplyAll(state, actions))
    decreases |actions|
  {
    if actions != [] {
      ApplyPreservesExclusive(state, actions[0]);
      ApplyAllPreservesExclusive(Apply(state, actions[0]), actions[1..]);
    }
  }

  /** The fields of an order as a caller supplies them. */
  function FieldsOf(wo: WorkOrder): OrderFields
  {
    OrderFields(wo.title, wo.description, wo.status, wo.priority, wo.propertyId, wo.unitNumber,
                wo.tenant, wo.assignedToId, wo.vendorId, wo.tags)
  }

  /** `addWorkOrder` on a fresh snapshot: the new order comes first, with an id one above the
      largest existing id, the caller's fields, no media and a single CREATED entry numbered
      1; the prior orders follow, sorted newest first. */
  lemma AddWorkOrderOutcome(snapshot: seq<WorkOrder>, fields: OrderFields, currentUserId: int, now: string)
    requires |snapshot| > 0
    ensures var r := ApplyAll(snapshot, AddWorkOrderPlan(snapshot, fields, currentUserId, now));
      |r| == |snapshot| + 1 && r[1..] == SortByIdDescending(snapshot)
      && (forall i :: 0 <= i < |snapshot| ==> snapshot[i].id < r[0].id)
      && (exists i :: 0 <= i < |snapshot| && snapshot[i].id == r[0].id - 1)
      && FieldsOf(r[0]) == fields
      && r[0].media == []
      && r[0].activity == [Activity(1, currentUserId, Created, now, NoDetails)]
  {
    var order := CreatedOrder(fields, NextWorkOrderId(snapshot), currentUserId, now);
    var plan := AddWorkOrderPlan(snapshot, fields, currentUserId, now);
    assert plan == [AddWorkOrder(order)];
    assert ApplyAll(snapshot, plan) == Apply(snapshot, AddWorkOrder(order));
    AddWorkOrderAtHead(snapshot, order);
  }

  /** The new id is fresh only with respect to the snapshot: two `addWorkOrder` calls that read
      the same snapshot both allocate its largest id plus one, so both new orders end up in
      the collection under that id, at two different positions when their fields differ. */
  lemma SharedSnapshotDuplicatesId(snapshot: seq<WorkOrder>, f1: OrderFields, f2: OrderFields,
                                   currentUserId: int, now: string)
    requires |snapshot| > 0
    ensures var id := NextWorkOrderId(snapshot);
      var r := ApplyAll(ApplyAll(snapshot, AddWorkOrderPlan(snapshot, f1, currentUserId, now)),
                        AddWorkOrderPlan(snapshot, f2, currentUserId, now));
      |r| == |snapshot| + 2
      && CreatedOrder(f1, id, currentUserId, now) in r && CreatedOrder(f2, id, currentUserId, now) in r
      && (f1 != f2 ==> exists i, j :: 0 <= i < j < |r| && r[i].id == id && r[j].id == id)
  {
    var id := NextWorkOrderId(snapshot);
    var o1 := CreatedOrder(f1, id, currentUserId, now);
    var o2 := CreatedOrder(f2, id, currentUserId, now);
    var r1 := ApplyAll(snapshot, [AddWorkOrder(o1)]);
    assert AddWorkOrderPlan(snapshot, f1, currentUserId, now) == [AddWorkOrder(o1)];
    assert AddWorkOrderPlan(snapshot, f2, currentUserId, now) == [AddWorkOrder(o2)];
    SingleAction(snapshot, AddWorkOrder(o1));
    SingleAction(r1, AddWorkOrder(o2));
    AddTwice(snapshot, o1, o2);
    if f1 != f2 {
      assert FieldsOf(o1) == f1 && FieldsOf(o2) == f2;
      TwoPositions(ApplyAll(r1, [AddWorkOrder(o2)]), o1, o2);
    }
  }

  /** Dispatching a one-action plan is one reducer step. */
  lemma SingleAction(state: seq<WorkOrder>, a: Action)
    ensures ApplyAll(state, [a]) == Apply(state, a)
  {
    ApplyAllCons(state, a, []);
    assert [a] + [] == [a];
  }

  /** Two ADD_WORK_ORDER steps leave both added orders in the collection. */
  lemma AddTwice(state: seq<WorkOrder>, o1: WorkOrder, o2: WorkOrder)
    ensures var r := Apply(Apply(state, AddWorkOrder(o1)), AddWorkOrder(o2));
      |r| == |state| + 2 && o1 in r && o2 in r
  {
    var r1 := Apply(state, AddWorkOrder(o1));
    var r := Apply(r1, AddWorkOrder(o2));
    assert o1 in multiset(r1);
    assert multiset(r) == multiset(r1) + multiset{o2};
    assert o1 in multiset(r) && o2 in multiset(r);
  }

  /** Two different orders with one id sit at two positions carrying that id. */
  lemma TwoPositions(r: seq<WorkOrder>, o1: WorkOrder, o2: WorkOrder)
    requires o1 in r && o2 in r && o1 != o2 && o1.id == o2.id
    ensures exists i, j :: 0 <= i < j < |r| && r[i].id == o1.id && r[j].id == o1.id
  {
    var i1 :| 0 <= i1 < |r| && r[i1] == o1;
    var i2 :| 0 <= i2 < |r| && r[i2] == o2;
    if i1 < i2 {
      assert r[i1].id == o1.id && r[i2].id == o1.id;
    } else {
      assert r[i2].id == o1.id && r[i1].id == o1.id;
    }
  }

  /** `addActivity`: for an order the snapshot lacks, nothing changes; otherwise every order
      with that id gains the draft at the head of its log, numbered one past the snapshot's
      log length, and nothing else changes. */
  lemma AddActivityOutcome(state: seq<WorkOrder>, snapshot: seq<WorkOrder>, workOrderId: int, draft: ActivityDraft)
    ensures var r := ApplyAll(state, AddActivityPlan(snapshot, workOrderId, draft));
      match FindWorkOrder(snapshot, workOrderId)
      case None => r == state
      case Some(wo) =>
        |r| == |state| &&
        forall i :: 0 <= i < |state| ==>
          if state[i].id == workOrderId then
            r[i].activity == [Numbered(draft, |wo.activity| + 1)] + state[i].activity
            && r[i].(activity := state[i].activity) == state[i]
          else r[i] == state[i]
  {
    match FindWorkOrder(snapshot, workOrderId)
    case None =>
    case Some(wo) =>
      var a := AddActivity(workOrderId, Numbered(draft, |wo.activity| + 1));
      assert AddActivityPlan(snapshot, workOrderId, draft) == [a];
      assert ApplyAll(state, [a]) == Apply(state, a);
      AddActivityEffect(state, workOrderId, Numbered(draft, |wo.activity| + 1));
  }

  /** `addMedia`: for an order the snapshot lacks, nothing changes; otherwise every order with
      that id gains, at the end of its media, an item numbered one past the snapshot's largest
      media id (1 if it has none), and at the head of its log a MEDIA_UPLOAD entry by the same
      user with the same url; nothing else changes. */
  lemma AddMediaOutcome(state: seq<WorkOrder>, snapshot: seq<WorkOrder>, workOrderId: int, url: string,
                        kind: MediaKind, currentUserId: int, now: string)
    ensures var r := ApplyAll(state, AddMediaPlan(snapshot, workOrderId, url, kind, currentUserId, now));
      match FindWorkOrder(snapshot, workOrderId)
      case None => r == state
      case Some(wo) =>
        |r| == |state| &&
        forall i :: 0 <= i < |state| ==>
          if state[i].id == workOrderId then
            r[i].media == state[i].media + [Media(NextMediaId(wo.media), url, kind, currentUserId, now)]
            && r[i].activity == [Activity(|wo.activity| + 1, currentUserId, MediaUpload, now, MediaDetails(url))]
                                + state[i].activity
            && r[i].(media := state[i].media, activity := state[i].activity) == state[i]
          else r[i] == state[i]
  {
    match FindWorkOrder(snapshot, workOrderId)
    case None =>
    case Some(wo) =>
      var m := Media(NextMediaId(wo.media), url, kind, currentUserId, now);
      var entry := Activity(|wo.activity| + 1, currentUserId, MediaUpload, now, MediaDetails(url));
      var a, b := AddMedia(workOrderId, m), AddActivity(workOrderId, entry);
      assert AddMediaPlan(snapshot, workOrderId, url, kind, currentUserId, now) == [a, b];
      var s1 := Apply(state, a);
      ApplyAllCons(state, a, [b]);
      ApplyAllCons(s1, b, []);
      assert [a, b] == [a] + [b] && [b] == [b] + [];
      AddMediaEffect(state, workOrderId, m);
      AddActivityEffect(s1, workOrderId, entry);
  }

  /** `addActivity` as seen from one order carrying the id the snapshot holds. */
  lemma AddActivityAt(state: seq<WorkOrder>, snapshot: seq<WorkOrder>, workOrderId: int, draft: ActivityDraft, i: int)
    requires FindWorkOrder(snapshot, workOrderId).Some?
    requires 0 <= i < |state| && state[i].id == workOrderId
    ensures var r := ApplyAll(state, AddActivityPlan(snapshot, workOrderId, draft));
      |r| == |state| && r[i].id == workOrderId
      && r[i].activity == [Numbered(draft, |FindWorkOrder(snapshot, workOrderId).value.activity| + 1)] + state[i].activity
      && r[i].(activity := state[i].activity) == state[i]
  {
    AddActivityOutcome(state, snapshot, workOrderId, draft);
  }

  /** `addMedia` as seen from one order carrying the id the snapshot holds. */
  lemma AddMediaAt(state: seq<WorkOrder>, snapshot: seq<WorkOrder>, workOrderId: int, url: string,
                   kind: MediaKind, currentUserId: int, now: string, i: int)
    requires FindWorkOrder(snapshot, workOrderId).Some?
    requires 0 <= i < |state| && state[i].id == workOrderId
    ensures var wo := FindWorkOrder(snapshot, workOrderId).value;
      var r := ApplyAll(state, AddMediaPlan(snapshot, workOrderId, url, kind, currentUserId, now));
      |r| == |state| && r[i].id == workOrderId
      && r[i].media == state[i].media + [Media(NextMediaId(wo.media), url, kind, currentUserId, now)]
      && r[i].activity == [Activity(|wo.activity| + 1, currentUserId, MediaUpload, now, MediaDetails(url))]
                          + state[i].activity
      && r[i].(media := state[i].media, activity := state[i].activity) == state[i]
  {
    AddMediaOutcome(state, snapshot, workOrderId, url, kind, currentUserId, now);
  }

  /** `handleAssign` on an order the snapshot holds is three reducer steps: ASSIGN, then the
      ASSIGNMENT entry, then the STATUS_CHANGE entry, both numbered from the snapshot. */
  lemma AssignSteps(state: seq<WorkOrder>, snapshot: seq<WorkOrder>, workOrderId: int, assigneeId: int,
                    currentUserId: int, now: string, wo: WorkOrder)
    requires FindWorkOrder(snapshot, workOrderId) == Some(wo)
    ensures var n := |wo.activity| + 1;
      ApplyAll(state, AssignPlan(snapshot, workOrderId, assigneeId, currentUserId, now))
      == Apply(Apply(Apply(state, AssignWorkOrder(workOrderId, assigneeId, wo.status)),
                     AddActivity(workOrderId, Activity(n, currentUserId, Assignment, now, AssignmentDetails(assigneeId)))),
               AddActivity(workOrderId, Activity(n, currentUserId, StatusChange, now, StatusDetails(wo.status, Assigned))))
  {
    var n := |wo.activity| + 1;
    var a := AssignWorkOrder(workOrderId, assigneeId, wo.status);
    var b := AddActivity(workOrderId, Activity(n, currentUserId, Assignment, now, AssignmentDetails(assigneeId)));
    var c := AddActivity(workOrderId, Activity(n, currentUserId, StatusChange, now, StatusDetails(wo.status, Assigned)));
    assert AssignPlan(snapshot, workOrderId, assigneeId, currentUserId, now) == [a] + ([b] + ([c] + []));
    var s1 := Apply(state, a);
    var s2 := Apply(s1, b);
    ApplyAllCons(state, a, [b] + ([c] + []));
    ApplyAllCons(s1, b, [c] + []);
    ApplyAllCons(s2, c, []);
  }

  /** `handleAssign` as seen from one position of the collection. */
  lemma AssignAt(state: seq<WorkOrder>, snapshot: seq<WorkOrder>, workOrderId: int, assigneeId: int,
                 currentUserId: int, now: string, wo: WorkOrder, i: int)
    requires FindWorkOrder(snapshot, workOrderId) == Some(wo)
    requires 0 <= i < |state|
    ensures var n := |wo.activity| + 1;
      var r := ApplyAll(state, AssignPlan(snapshot, workOrderId, assigneeId, currentUserId, now));
      |r| == |state| &&
      if state[i].id == workOrderId then
        r[i].status == Assigned
        && (IsVendor(assigneeId) ==> r[i].vendorId == Some(assigneeId) && r[i].assignedToId == None)
        && (!IsVendor(assigneeId) ==> r[i].assignedToId == Some(assigneeId) && r[i].vendorId == None)
        && r[i].activity == [Activity(n, currentUserId, StatusChange, now, StatusDetails(wo.status, Assigned)),
                             Activity(n, currentUserId, Assignment, now, AssignmentDetails(assigneeId))]
                            + state[i].activity
        && r[i].activity[0].id == r[i].activity[1].id == n
        && r[i].(status := state[i].status, assignedToId := state[i].assignedToId,
                 vendorId := state[i].vendorId, activity := state[i].activity) == state[i]
      else r[i] == state[i]
  {
    var n := |wo.activity| + 1;
    var a := AssignWorkOrder(workOrderId, assigneeId, wo.status);
    var b := AddActivity(workOrderId, Activity(n, currentUserId, Assignment, now, AssignmentDetails(assigneeId)));
    var c := AddActivity(workOrderId, Activity(n, currentUserId, StatusChange, now, StatusDetails(wo.status, Assigned)));
    var s1 := Apply(state, a);
    var s2 := Apply(s1, b);
    AssignSteps(state, snapshot, workOrderId, assigneeId, currentUserId, now, wo);
    ApplyAt(state, a, i);
    ApplyAt(s1, b, i);
    ApplyAt(s2, c, i);
    if state[i].id == workOrderId {
      AssignedOrder(state[i], Apply(s2, c)[i], workOrderId, assigneeId, wo.status, b.activity, c.activity);
    }
  }

  /** One order through ASSIGN and two ADD_ACTIVITY steps. */
  lemma AssignedOrder(w0: WorkOrder, w3: WorkOrder, workOrderId: int, assigneeId: int, oldStatus: Status,
                      e1: Activity, e2: Activity)
    requires w3 == Revise(Revise(Revise(w0, AssignWorkOrder(workOrderId, assigneeId, oldStatus)),
                                 AddActivity(workOrderId, e1)),
                          AddActivity(workOrderId, e2))
    ensures w3.status == Assigned
    ensures IsVendor(assigneeId) ==> w3.vendorId == Some(assigneeId) && w3.assignedToId == None
    ensures !IsVendor(assigneeId) ==> w3.assignedToId == Some(assigneeId) && w3.vendorId == None
    ensures w3.activity == [e2, e1] + w0.activity
    ensures w3.(status := w0.status, assignedToId := w0.assignedToId, vendorId := w0.vendorId,
                activity := w0.activity) == w0
  {
    assert [e2] + ([e1] + w0.activity) == [e2, e1] + w0.activity;
  }

  /** `handleAssign`: for an order the snapshot lacks, nothing changes. Otherwise every order
      with that id is routed to the assignee (a Vendor into `vendorId`, anyone else into
      `assignedToId`, the other field cleared), its status becomes Assigned whatever it was,
      and its log gains STATUS_CHANGE (snapshot status to Assigned) before ASSIGNMENT at its
      head. Both entries carry the same id, one past the snapshot's log length, since both
      are numbered from the same snapshot. */
  lemma AssignOutcome(state: seq<WorkOrder>, snapshot: seq<WorkOrder>, workOrderId: int, assigneeId: int,
                      currentUserId: int, now: string)
    ensures var r := ApplyAll(state, AssignPlan(snapshot, workOrderId, assigneeId, currentUserId, now));
      match FindWorkOrder(snapshot, workOrderId)
      case None => r == state
      case Some(wo) =>
        var n := |wo.activity| + 1;
        |r| == |state| &&
        forall i :: 0 <= i < |state| ==>
          if state[i].id == workOrderId then
            r[i].status == Assigned
            && (IsVendor(assigneeId) ==> r[i].vendorId == Some(assigneeId) && r[i].assignedToId == None)
            && (!IsVendor(assigneeId) ==> r[i].assignedToId == Some(assigneeId) && r[i].vendorId == None)
            && r[i].activity == [Activity(n, currentUserId, StatusChange, now, StatusDetails(wo.status, Assigned)),
                                 Activity(n, currentUserId, Assignment, now, AssignmentDetails(assigneeId))]
                                + state[i].activity
            && r[i].activity[0].id == r[i].activity[1].id == n
            && r[i].(status := state[i].status, assignedToId := state[i].assignedToId,
                     vendorId := state[i].vendorId, activity := state[i].activity) == state[i]
          else r[i] == state[i]
  {
    match FindWorkOrder(snapshot, workOrderId)
    case None =>
    case Some(wo) =>
      AssignSteps(state, snapshot, workOrderId, assigneeId, currentUserId, now, wo);
      forall i | 0 <= i < |state| {
        AssignAt(state, snapshot, workOrderId, assigneeId, currentUserId, now, wo, i);
      }
  }

  /** `handleStatusChange`: nothing changes for an order the snapshot lacks or when the
      snapshot already has the new status. Otherwise every order with that id takes the new
      status, whichever it is, and gains exactly one STATUS_CHANGE entry recording the old
      and new status at the head of its log; nothing else changes. */
  lemma StatusChangeOutcome(state: seq<WorkOrder>, snapshot: seq<WorkOrder>, workOrderId: int,
                            newStatus: Status, currentUserId: int, now: string)
    ensures var r := ApplyAll(state, StatusChangePlan(snapshot, workOrderId, newStatus, currentUserId, now));
      match FindWorkOrder(snapshot, workOrderId)
      case None => r == state
      case Some(wo) =>
        if wo.status == newStatus then r == state
        else
          |r| == |state| &&
          forall i :: 0 <= i < |state| ==>
            if state[i].id == workOrderId then
              r[i].status == newStatus
              && r[i].activity == [Activity(|wo.activity| + 1, currentUserId, StatusChange, now,
                                            StatusDetails(wo.status, newStatus))] + state[i].activity
              && r[i].(status := state[i].status, activity := state[i].activity) == state[i]
            else r[i] == state[i]
  {
    match FindWorkOrder(snapshot, workOrderId)
    case None =>
    case Some(wo) =>
      if wo.status != newStatus {
        var entry := Activity(|wo.activity| + 1, currentUserId, StatusChange, now, StatusDetails(wo.status, newStatus));
        var a, b := UpdateWorkOrderStatus(workOrderId, newStatus, wo.status), AddActivity(workOrderId, entry);
        assert StatusChangePlan(snapshot, workOrderId, newStatus, currentUserId, now) == [a, b];
        var s1 := Apply(state, a);
        ApplyAllCons(state, a, [b]);
        ApplyAllCons(s1, b, []);
        assert [a, b] == [a] + [b] && [b] == [b] + [];
        UpdateStatusEffect(state, workOrderId, newStatus, wo.status);
        AddActivityEffect(s1, workOrderId, entry);
      }
  }

  /** The statuses written by two plans run one after the other. */
  lemma {:induction false} TargetStatusesConcat(xs: seq<Action>, ys: seq<Action>)
    ensures TargetStatuses(xs + ys) == TargetStatuses(xs) + TargetStatuses(ys)
    decreases |xs|
  {
    if xs == [] {
      assert xs + ys == ys;
    } else {
      assert (xs + ys)[0] == xs[0];
      assert (xs + ys)[1..] == xs[1..] + ys;
      TargetStatusesConcat(xs[1..], ys);
    }
  }

  /** The statuses written by a one-action plan. */
  lemma SingleTarget(a: Action)
    ensures TargetStatuses([a]) == TargetStatus(a)
  {
    assert [a][1..] == [];
  }

  /** Logging an entry adds no order and writes no status. */
  lemma AddActivityTargets(snapshot: seq<WorkOrder>, workOrderId: int, draft: ActivityDraft)
    ensures var p := AddActivityPlan(snapshot, workOrderId, draft);
      Keyed(p) && TargetStatuses(p) == {}
  {
    match FindWorkOrder(snapshot, workOrderId)
    case None =>
    case Some(wo) =>
      SingleTarget(Action.AddActivity(workOrderId, Numbered(draft, |wo.activity| + 1)));
  }

  /** Adding a media item adds no order and writes no status. */
  lemma AddMediaTargets(snapshot: seq<WorkOrder>, workOrderId: int, url: string, kind: MediaKind,
                        currentUserId: int, now: string)
    ensures var p := AddMediaPlan(snapshot, workOrderId, url, kind, currentUserId, now);
      Keyed(p) && TargetStatuses(p) == {}
  {
    match FindWorkOrder(snapshot, workOrderId)
    case None =>
    case Some(wo) =>
      var m := Action.AddMedia(workOrderId, Media(NextMediaId(wo.media), url, kind, currentUserId, now));
      var draft := ActivityDraft(currentUserId, MediaUpload, now, MediaDetails(url));
      AddActivityTargets(snapshot, workOrderId, draft);
      TargetStatusesConcat([m], AddActivityPlan(snapshot, workOrderId, draft));
      SingleTarget(m);
  }

  /** `handleAssign` adds no order and writes no status but Assigned. */
  lemma AssignTargets(snapshot: seq<WorkOrder>, workOrderId: int, assigneeId: int, currentUserId: int, now: string)
    ensures var p := AssignPlan(snapshot, workOrderId, assigneeId, currentUserId, now);
      Keyed(p) && TargetStatuses(p) == (if FindWorkOrder(snapshot, workOrderId).Some? then {Assigned} else {})
  {
    match FindWorkOrder(snapshot, workOrderId)
    case None =>
    case Some(wo) =>
      var a := AssignWorkOrder(workOrderId, assigneeId, wo.status);
      var d1 := ActivityDraft(currentUserId, Assignment, now, AssignmentDetails(assigneeId));
      var d2 := ActivityDraft(currentUserId, StatusChange, now, StatusDetails(wo.status, Assigned));
      var l1, l2 := AddActivityPlan(snapshot, workOrderId, d1), AddActivityPlan(snapshot, workOrderId, d2);
      AddActivityTargets(snapshot, workOrderId, d1);
      AddActivityTargets(snapshot, workOrderId, d2);
      TargetStatusesConcat([a], l1);
      TargetStatusesConcat([a] + l1, l2);
      SingleTarget(a);
  }

  /** `handleStatusChange` adds no order and writes no status but the one it is given. */
  lemma StatusChangeTargets(snapshot: seq<WorkOrder>, workOrderId: int, newStatus: Status,
                            currentUserId: int, now: string)
    ensures var p := StatusChangePlan(snapshot, workOrderId, newStatus, currentUserId, now);
      Keyed(p) && TargetStatuses(p) <= {newStatus}
  {
    match FindWorkOrder(snapshot, workOrderId)
    case None =>
    case Some(wo) =>
      if wo.status != newStatus {
        var u := UpdateWorkOrderStatus(workOrderId, newStatus, wo.status);
        var d := ActivityDraft(currentUserId, StatusChange, now, StatusDetails(wo.status, newStatus));
        AddActivityTargets(snapshot, workOrderId, d);
        TargetStatusesConcat([u], AddActivityPlan(snapshot, workOrderId, d));
        SingleTarget(u);
      }
  }
}
