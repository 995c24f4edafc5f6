/**
 * The process-resident reference data and seed collection: the eight users, the three
 * properties, the six mock work orders and the two role lists.
 */
module Seed {
  import opened Options
  import opened Types

  const Users: seq<User> := [
    User(1, "Alice (Master)", MasterAdmin, "https://picsum.photos/seed/alice/100"),
    User(2, "Bob (Admin)", Admin, "https://picsum.photos/seed/bob/100"),
    User(3, "Charlie (PM)", PropertyManager, "https://picsum.photos/seed/charlie/100"),
    User(4, "Diana (Supervisor)", Supervisor, "https://picsum.photos/seed/diana/100"),
    User(5, "Eve (Tech)", Technician, "https://picsum.photos/seed/eve/100"),
    User(6, "Frank (Owner)", Owner, "https://picsum.photos/seed/frank/100"),
    User(7, "Grace (Vendor)", Vendor, "https://picsum.photos/seed/grace/100"),
    User(8, "Heidi (Tech)", Technician, "https://picsum.photos/seed/heidi/100")
  ]

  const Properties: seq<Property> := [
    Property(101, "Gateway Apartments", "123 Main St, Anytown, USA"),
    Property(102, "Riverbend Lofts", "456 Oak Ave, Anytown, USA"),
    Property(103, "Crestview Towers", "789 Pine Ln, Anytown, USA")
  ]

  const AssignableRoles: seq<Role> := [MasterAdmin, Admin, PropertyManager, Supervisor]
  const CreationRoles: seq<Role> := [MasterAdmin, Admin, PropertyManager, Supervisor]

  const MockWorkOrders: seq<WorkOrder> := [
    WorkOrder(
      2024001, "Leaky Faucet in Unit 2B",
      "Tenant in unit 2B reported a persistent drip from the kitchen sink faucet. Needs immediate attention to prevent water damage.",
      New, High, 101, Some("2B"), Some(Tenant("John Doe", "555-123-4567", "john.doe@example.com")),
      None, None, [], Some(["Plumbing"]),
      [Activity(1, 3, Created, "2023-10-27T10:00:00Z", NoDetails)]),
    WorkOrder(
      2024002, "HVAC Filter Replacement",
      "Scheduled quarterly HVAC filter replacement for all units in Building A.",
      Assigned, Medium, 101, None, None,
      Some(5), None, [], Some(["HVAC", "Inspection"]),
      [Activity(1, 4, Created, "2023-10-26T14:30:00Z", NoDetails),
       Activity(2, 4, Assignment, "2023-10-26T14:31:00Z", AssignmentDetails(5)),
       Activity(3, 4, StatusChange, "2023-10-26T14:31:00Z", StatusDetails(New, Assigned)),
       Activity(4, 4, Note, "2023-10-26T14:35:00Z", NoteDetails("Eve, please complete by EOD Friday."))]),
    WorkOrder(
      2024003, "Broken window in lobby",
      "The main lobby window was cracked. Awaiting quote from vendor.",
      OnHold, High, 102, None, None,
      None, Some(7),
      [Media(1, "https://picsum.photos/seed/window/400/300", Image, 3, "2023-10-25T09:13:00Z")],
      Some(["Carpentry", "Safety"]),
      [Activity(1, 3, Created, "2023-10-25T09:12:00Z", NoDetails),
       Activity(2, 3, Assignment, "2023-10-25T09:14:00Z", AssignmentDetails(7)),
       Activity(3, 3, StatusChange, "2023-10-25T09:14:00Z", StatusDetails(New, OnHold)),
       Activity(4, 3, Note, "2023-10-25T09:15:00Z", NoteDetails("Contacted Grace for a quote. Waiting for response."))]),
    WorkOrder(
      2024004, "Paint touch-up in common hallway",
      "Scuff marks on the 3rd-floor hallway walls need to be touched up.",
      InProgress, Low, 103, None, None,
      Some(8), None, [], Some(["Painting"]),
      [Activity(1, 4, Created, "2023-10-24T11:00:00Z", NoDetails),
       Activity(2, 4, Assignment, "2023-10-24T11:01:00Z", AssignmentDetails(8)),
       Activity(3, 4, StatusChange, "2023-10-24T11:01:00Z", StatusDetails(New, Assigned)),
       Activity(4, 8, StatusChange, "2023-10-24T13:00:00Z", StatusDetails(Assigned, InProgress))]),
    WorkOrder(
      2024005, "Annual Fire Extinguisher Inspection",
      "Completed the annual fire extinguisher inspection for all buildings.",
      Completed, Medium, 101, None, None,
      Some(5), None, [], Some(["Safety", "Inspection"]),
      [Activity(1, 4, Created, "2023-10-20T08:00:00Z", NoDetails),
       Activity(2, 4, Assignment, "2023-10-20T08:01:00Z", AssignmentDetails(5)),
       Activity(3, 4, StatusChange, "2023-10-20T08:01:00Z", StatusDetails(New, Assigned)),
       Activity(4, 5, StatusChange, "2023-10-20T15:45:00Z", StatusDetails(InProgress, Completed)),
       Activity(5, 5, Note, "2023-10-20T15:45:00Z", NoteDetails("All extinguishers passed inspection. Tags updated."))]),
    WorkOrder(
      2024006, "Landscaping Mulch Refresh",
      "Mulch in all garden beds was refreshed. Project is closed.",
      Closed, Low, 102, None, None,
      None, Some(7), [], Some(["Landscaping"]),
      [Activity(1, 3, Created, "2023-09-15T09:00:00Z", NoDetails),
       Activity(2, 3, StatusChange, "2023-09-20T16:00:00Z", StatusDetails(Completed, Closed))])
  ]

  /** The ids of the elements of `s` increase strictly along the sequence. */
  predicate StrictlyAscendingIds(s: seq<WorkOrder>)
  {
    forall i, j :: 0 <= i < j < |s| ==> s[i].id < s[j].id
  }

  /** The `newStatus` of the last-listed STATUS_CHANGE entry of `log`, if any. */
  function LastListedStatusChange(log: seq<Activity>): Option<Status>
  {
    if log == [] then None
    else if log[|log| - 1].kind == StatusChange then log[|log| - 1].details.newStatus
    else LastListedStatusChange(log[..|log| - 1])
  }

  /** The seed's status agrees with its log read in listing order: the last-listed
      STATUS_CHANGE entry's `newStatus`, or New when the log has none. */
  predicate StatusMatchesListedLog(wo: WorkOrder)
  {
    match LastListedStatusChange(wo.activity)
    case Some(s) => wo.status == s
    case None => wo.status == New
  }

  /** Activity ids run 1, 2, ..., n in listing order, so the seed lists its log oldest first. */
  predicate ActivityNumberedInListingOrder(wo: WorkOrder)
  {
    forall k :: 0 <= k < |wo.activity| ==> wo.activity[k].id == k + 1
  }

  /** The eight users have the distinct ids 1 to 8, and user 7 is the only Vendor. */
  lemma SeedUsers()
    ensures |Users| == 8
    ensures forall i :: 0 <= i < |Users| ==> Users[i].id == i + 1
    ensures forall i :: 0 <= i < |Users| ==> (Users[i].role == Vendor <==> Users[i].id == 7)
    ensures Users[0].role == MasterAdmin && Users[1].role == Admin && Users[2].role == PropertyManager
    ensures Users[3].role == Supervisor && Users[4].role == Technician && Users[5].role == Owner
    ensures Users[6].role == Vendor && Users[7].role == Technician
  {
  }

  /** The properties have the distinct ids 101 to 103. */
  lemma SeedProperties()
    ensures |Properties| == 3
    ensures forall i :: 0 <= i < |Properties| ==> Properties[i].id == 101 + i
  {
  }

  /** Every seed order names one of the three properties. */
  lemma SeedPropertyRefs()
    ensures forall i :: 0 <= i < |MockWorkOrders| ==> 101 <= MockWorkOrders[i].propertyId <= 103
  {
  }

  /** The seed ids are 2024001 to 2024006 listed in ascending order: the initial collection is
      not ordered newest first. */
  lemma SeedIdsAscending()
    ensures |MockWorkOrders| == 6
    ensures forall i :: 0 <= i < |MockWorkOrders| ==> MockWorkOrders[i].id == 2024001 + i
    ensures StrictlyAscendingIds(MockWorkOrders)
    ensures MockWorkOrders[0].id < MockWorkOrders[1].id
  {
  }

  /** Every seed order names at most one assignee; a `vendorId` is always 7 (the Vendor) and an
      `assignedToId` is 5 or 8 (the Technicians). */
  lemma SeedAssignees()
    ensures forall i :: 0 <= i < |MockWorkOrders| ==> ExclusiveAssignee(MockWorkOrders[i])
    ensures forall i :: 0 <= i < |MockWorkOrders| && MockWorkOrders[i].vendorId.Some? ==>
      MockWorkOrders[i].vendorId == Some(7)
    ensures forall i :: 0 <= i < |MockWorkOrders| && MockWorkOrders[i].assignedToId.Some? ==>
      MockWorkOrders[i].assignedToId.value in {5, 8}
  {
  }

  /** Each seed log is numbered 1..n in listing order, so it is listed oldest first. */
  lemma SeedLogsOldestFirst()
    ensures forall i :: 0 <= i < |MockWorkOrders| ==> ActivityNumberedInListingOrder(MockWorkOrders[i])
  {
  }

  /** Each seed order's status is the one its log, read in listing order, ends with. */
  lemma SeedStatuses()
    ensures forall i :: 0 <= i < |MockWorkOrders| ==> StatusMatchesListedLog(MockWorkOrders[i])
  {
    forall i | 0 <= i < |MockWorkOrders|
      ensures StatusMatchesListedLog(MockWorkOrders[i])
    {
      var log := MockWorkOrders[i].activity;
      if i == 0 {
        assert LastListedStatusChange(log[..0]) == None;
      } else if i == 1 || i == 2 {
        assert LastListedStatusChange(log[..3]) == log[2].details.newStatus;
        assert LastListedStatusChange(log) == LastListedStatusChange(log[..3]);
      } else if i == 3 {
        assert LastListedStatusChange(log) == log[3].details.newStatus;
      } else if i == 4 {
        assert LastListedStatusChange(log[..4]) == log[3].details.newStatus;
        assert LastListedStatusChange(log) == LastListedStatusChange(log[..4]);
      } else {
        assert LastListedStatusChange(log) == log[1].details.newStatus;
      }
    }
  }

  /** Both role lists name the same four staff roles. */
  lemma RoleLists()
    ensures AssignableRoles == CreationRoles
    ensures forall r :: r in AssignableRoles <==> r in {MasterAdmin, Admin, PropertyManager, Supervisor}
  {
  }
}
