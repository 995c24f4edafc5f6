/**
 * The transitions the reducer accepts: a closed union of five variants. Every payload is
 * complete when dispatched: ids of new orders, activities and media are allocated by the
 * caller, never by the reducer.
 */
module Actions {
  import opened Types

  datatype Action =
    | AddWorkOrder(order: WorkOrder)
    | AddActivity(workOrderId: int, activity: Activity)
    | AddMedia(workOrderId: int, media: Media)
    | AssignWorkOrder(workOrderId: int, assigneeId: int, oldStatus: Status)
    | UpdateWorkOrderStatus(workOrderId: int, newStatus: Status, oldStatus: Status)

  /** The status an action writes into the orders it targets, if it writes one. */
  function TargetStatus(action: Action): set<Status>
  {
    match action
    case AssignWorkOrder(_, _, _) => {Assigned}
    case UpdateWorkOrderStatus(_, newStatus, _) => {newStatus}
    case _ => {}
  }
}
