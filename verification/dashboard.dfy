/**
 * The dashboard: a technician sees their own active and recently completed jobs; everyone
 * else sees counts by status and the open high-priority orders.
 */
module Dashboard {
  import opened Options
  import opened Types
  import Sequences

  /** The orders assigned to `userId` through `assignedToId` and Assigned or In Progress, in
      collection order. */
  function ActiveJobs(orders: seq<WorkOrder>, userId: int): (r: seq<WorkOrder>)
    ensures forall wo :: wo in r <==> wo in orders && wo.assignedToId == Some(userId) && wo.status in {Assigned, InProgress}
    ensures forall wo :: multiset(r)[wo] == if wo.assignedToId == Some(userId) && wo.status in {Assigned, InProgress}
                                             then multiset(orders)[wo] else 0
    ensures Sequences.IsSubsequence(r, orders)
  {
    var p := (wo: WorkOrder) => wo.assignedToId == Some(userId) && (wo.status == Assigned || wo.status == InProgress);
    Sequences.FilterCount(orders, p);
    Sequences.FilterMembers(orders, p);
    Sequences.FilterIsSubsequence(orders, p);
    Sequences.Filter(orders, p)
  }

  /** The orders assigned to `userId` through `assignedToId` and Completed, in collection order. */
  function CompletedJobs(orders: seq<WorkOrder>, userId: int): (r: seq<WorkOrder>)
    ensures forall wo :: wo in r <==> wo in orders && wo.assignedToId == Some(userId) && wo.status == Completed
    ensures forall wo :: multiset(r)[wo] == if wo.assignedToId == Some(userId) && wo.status == Completed
                                             then multiset(orders)[wo] else 0
    ensures Sequences.IsSubsequence(r, orders)
  {
    var p := (wo: WorkOrder) => wo.assignedToId == Some(userId) && wo.status == Completed;
    Sequences.FilterCount(orders, p);
    Sequences.FilterMembers(orders, p);
    Sequences.FilterIsSubsequence(orders, p);
    Sequences.Filter(orders, p)
  }

  /** The completed jobs the list shows: the first five. */
  function RecentlyCompleted(orders: seq<WorkOrder>, userId: int): (r: seq<WorkOrder>)
    ensures |r| <= 5
    ensures r <= CompletedJobs(orders, userId)
    ensures |CompletedJobs(orders, userId)| <= 5 ==> r == CompletedJobs(orders, userId)
    ensures |CompletedJobs(orders, userId)| > 5 ==> |r| == 5
  {
    var all := CompletedJobs(orders, userId);
    if |all| <= 5 then all else all[..5]
  }

  /** How many orders have status `s`. */
  function StatusCount(orders: seq<WorkOrder>, s: Status): nat
  {
    |Sequences.Filter(orders, (wo: WorkOrder) => wo.status == s)|
  }

  /** The New, In Progress and On Hold counts never add up to more than the collection. */
  lemma {:induction false} CountsBounded(orders: seq<WorkOrder>)
    ensures StatusCount(orders, New) + StatusCount(orders, InProgress) + StatusCount(orders, OnHold) <= |orders|
  {
    if orders != [] {
      CountsBounded(orders[1..]);
      var pn := (wo: WorkOrder) => wo.status == New;
      var pi := (wo: WorkOrder) => wo.status == InProgress;
      var ph := (wo: WorkOrder) => wo.status == OnHold;
      assert orders == [orders[0]] + orders[1..];
      Sequences.FilterCons(orders[0], orders[1..], pn);
      Sequences.FilterCons(orders[0], orders[1..], pi);
      Sequences.FilterCons(orders[0], orders[1..], ph);
    }
  }

  /** The open high-priority orders: High and neither Completed nor Closed, in collection order. */
  function HighPriority(orders: seq<WorkOrder>): (r: seq<WorkOrder>)
    ensures forall wo :: wo in r <==> wo in orders && wo.priority == High && wo.status !in {Completed, Closed}
    ensures forall wo :: multiset(r)[wo] == if wo.priority == High && wo.status !in {Completed, Closed}
                                             then multiset(orders)[wo] else 0
    ensures Sequences.IsSubsequence(r, orders)
  {
    var p := (wo: WorkOrder) => wo.priority == High && !(wo.status == Completed || wo.status == Closed);
    Sequences.FilterCount(orders, p);
    Sequences.FilterMembers(orders, p);
    Sequences.FilterIsSubsequence(orders, p);
    Sequences.Filter(orders, p)
  }

  /** What the dashboard shows. */
  datatype Content =
    | TechnicianView(active: seq<WorkOrder>, completedCount: nat, recentlyCompleted: seq<WorkOrder>)
    | OverviewView(newCount: nat, inProgressCount: nat, onHoldCount: nat, highPriority: seq<WorkOrder>)

  /** The technician lists are chosen exactly for the Technician role. */
  function ContentFor(user: User, orders: seq<WorkOrder>): (c: Content)
    ensures c.TechnicianView? <==> user.role == Technician
    ensures c.TechnicianView? ==> c.active == ActiveJobs(orders, user.id)
                                  && c.recentlyCompleted == RecentlyCompleted(orders, user.id)
                                  && c.completedCount == |CompletedJobs(orders, user.id)|
    ensures c.OverviewView? ==> c.newCount == StatusCount(orders, New)
                                && c.inProgressCount == StatusCount(orders, InProgress)
                                && c.onHoldCount == StatusCount(orders, OnHold)
                                && c.highPriority == HighPriority(orders)
    ensures c.OverviewView? ==> c.newCount + c.inProgressCount + c.onHoldCount <= |orders|
  {
    if user.role == Technician then
      TechnicianView(ActiveJobs(orders, user.id), |CompletedJobs(orders, user.id)|, RecentlyCompleted(orders, user.id))
    else
      CountsBounded(orders);
      OverviewView(StatusCount(orders, New), StatusCount(orders, InProgress), StatusCount(orders, OnHold), HighPriority(orders))
  }

  /** An order routed to a vendor never shows in a technician's lists, whatever its status,
      since only `assignedToId` is compared. */
  lemma VendorOrdersHidden(orders: seq<WorkOrder>, userId: int, wo: WorkOrder)
    requires wo.vendorId.Some? && ExclusiveAssignee(wo)
    ensures wo !in ActiveJobs(orders, userId) && wo !in CompletedJobs(orders, userId)
  {
  }
}
