/**
 * The provider that owns the collection of work orders. `workOrders` is the value the reducer
 * holds; `rendered` is the value the operations of the last render closed over. Every
 * operation reads `rendered`, never `workOrders`, and dispatches into `workOrders`; `Render`
 * is the re-render that hands the operations the current value.
 */
module Store {
  import opened Options
  import opened Types
  import opened Actions
  import opened Reducer
  import opened Workflow
  import Seed

  class WorkOrderStore {
    var workOrders: seq<WorkOrder>
    var rendered: seq<WorkOrder>

    /** Neither the collection nor the snapshot is ever empty: the provider starts from the
        six sample orders and no action removes one. */
    predicate Valid()
      reads this`workOrders, this`rendered
    {
      |workOrders| > 0 && |rendered| > 0
    }

    /** The provider starts from the sample orders. */
    constructor()
      ensures workOrders == Seed.MockWorkOrders
      ensures rendered == workOrders
      ensures Valid()
    {
      workOrders := Seed.MockWorkOrders;
      rendered := Seed.MockWorkOrders;
    }

    /** A re-render: the operations now see the reducer's current value. */
    method Render()
      modifies this`rendered
      ensures rendered == workOrders
    {
      rendered := workOrders;
    }

    /** `dispatch`: the reducer takes one step. */
    method Dispatch(action: Action)
      modifies this`workOrders
      ensures workOrders == Apply(old(workOrders), action)
      ensures |workOrders| >= |old(workOrders)|
    {
      workOrders := Apply(workOrders, action);
    }

    /** `addWorkOrder`: builds the new order from the snapshot and dispatches it. The new id
        is the largest existing id plus one, which needs the non-empty snapshot `Valid()`
        guarantees. */
    method AddWorkOrder(fields: OrderFields, currentUserId: int, now: string)
      requires Valid()
      modifies this`workOrders
      ensures workOrders == ApplyAll(old(workOrders), AddWorkOrderPlan(rendered, fields, currentUserId, now))
      ensures |workOrders| == |old(workOrders)| + 1 && Valid()
    {
      var order := CreatedOrder(fields, NextWorkOrderId(rendered), currentUserId, now);
      ApplyAllCons(workOrders, Action.AddWorkOrder(order), []);
      Dispatch(Action.AddWorkOrder(order));
    }

    /** `addActivity`: numbers the entry from the snapshot's log, or does nothing when the
        snapshot has no order with that id. */
    method AddActivity(workOrderId: int, draft: ActivityDraft)
      modifies this`workOrders
      ensures workOrders == ApplyAll(old(workOrders), AddActivityPlan(rendered, workOrderId, draft))
      ensures |workOrders| == |old(workOrders)|
    {
      var found := FindWorkOrder(rendered, workOrderId);
      if found.None? {
        return;
      }
      ghost var s0 := workOrders;
      Dispatch(Action.AddActivity(workOrderId, Numbered(draft, |found.value.activity| + 1)));
      AddActivityStep(s0, workOrders, rendered, workOrderId, draft, found.value);
    }

    /** `addMedia`: appends the media item, then logs the upload through `addActivity`. */
    method AddMedia(workOrderId: int, url: string, kind: MediaKind, currentUserId: int, now: string)
      modifies this`workOrders
      ensures workOrders == ApplyAll(old(workOrders), AddMediaPlan(rendered, workOrderId, url, kind, currentUserId, now))
      ensures |workOrders| == |old(workOrders)|
    {
      var found := FindWorkOrder(rendered, workOrderId);
      if found.None? {
        return;
      }
      var a := Action.AddMedia(workOrderId, Media(NextMediaId(found.value.media), url, kind, currentUserId, now));
      ghost var s0 := workOrders;
      Dispatch(a);
      AddActivity(workOrderId, ActivityDraft(currentUserId, MediaUpload, now, MediaDetails(url)));
      AddMediaSteps(s0, workOrders, rendered, workOrderId, url, kind, currentUserId, now, found.value);
    }

    /** `handleAssign`: assigns, then logs the assignment and the status change through
        `addActivity`, all three against the same snapshot. */
    method HandleAssign(workOrderId: int, assigneeId: int, currentUserId: int, now: string)
      modifies this`workOrders
      ensures workOrders == ApplyAll(old(workOrders), AssignPlan(rendered, workOrderId, assigneeId, currentUserId, now))
      ensures |workOrders| == |old(workOrders)|
    {
      var found := FindWorkOrder(rendered, workOrderId);
      if found.None? {
        return;
      }
      var wo := found.value;
      var a := AssignWorkOrder(workOrderId, assigneeId, wo.status);
      var assignment := ActivityDraft(currentUserId, Assignment, now, AssignmentDetails(assigneeId));
      var change := ActivityDraft(currentUserId, StatusChange, now, StatusDetails(wo.status, Assigned));
      var p1 := AddActivityPlan(rendered, workOrderId, assignment);
      var p2 := AddActivityPlan(rendered, workOrderId, change);
      ghost var s0 := workOrders;
      Dispatch(a);
      AddActivity(workOrderId, assignment);
      AddActivity(workOrderId, change);
      ApplyAllConcat(s0, [a], p1);
      ApplyAllConcat(s0, [a] + p1, p2);
      ApplyAllCons(s0, a, []);
    }

    /** `handleStatusChange`: does nothing when the snapshot lacks the order or already has
        the new status; otherwise updates the status and logs the change. */
    method HandleStatusChange(workOrderId: int, newStatus: Status, currentUserId: int, now: string)
      modifies this`workOrders
      ensures workOrders == ApplyAll(old(workOrders), StatusChangePlan(rendered, workOrderId, newStatus, currentUserId, now))
      ensures |workOrders| == |old(workOrders)|
    {
      var found := FindWorkOrder(rendered, workOrderId);
      if found.None? || found.value.status == newStatus {
        return;
      }
      var wo := found.value;
      var a := UpdateWorkOrderStatus(workOrderId, newStatus, wo.status);
      var draft := ActivityDraft(currentUserId, StatusChange, now, StatusDetails(wo.status, newStatus));
      ghost var s0 := workOrders;
      Dispatch(a);
      AddActivity(workOrderId, draft);
      StatusChangeSteps(s0, workOrders, rendered, workOrderId, newStatus, currentUserId, now, wo);
    }
  }
}
