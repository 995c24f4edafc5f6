/**
 * The detail screen of one work order: which actions the current user may take on it, the
 * users an order may be assigned to, and the handlers that call the store operations.
 */
module Detail {
  import opened Options
  import opened Types
  import opened Actions
  import opened Workflow
  import opened Store
  import Seed
  import Sequences
  import Text

  /** The four permission flags the screen computes from the user's role and the order's status. */
  datatype Permissions = Permissions(
    canAssign: bool,
    canStartProgress: bool,
    canCompleteAsTechnician: bool,
    canCompleteAsSupervisor: bool)

  function PermissionsFor(role: Role, status: Status): (p: Permissions)
    ensures p.canAssign <==> role in {MasterAdmin, Admin, PropertyManager, Supervisor} && status in {New, OnHold}
    ensures p.canStartProgress <==> role == Technician && status == Assigned
    ensures p.canCompleteAsTechnician <==> role == Technician && status == InProgress
    ensures p.canCompleteAsSupervisor <==> role == Supervisor && status in {Assigned, InProgress}
  {
    Seed.RoleLists();
    Permissions(
      role in Seed.AssignableRoles && status in [New, OnHold],
      role == Technician && status == Assigned,
      role == Technician && status == InProgress,
      role == Supervisor && status in [Assigned, InProgress])
  }

  /** At most one completion button is offered, a technician is never offered assignment, and
      no user is offered both assignment and a way to move the order forward. */
  lemma PermissionsExclusive(role: Role, status: Status)
    ensures var p := PermissionsFor(role, status);
      !(p.canCompleteAsTechnician && p.canCompleteAsSupervisor)
      && !(p.canAssign && (p.canStartProgress || p.canCompleteAsTechnician || p.canCompleteAsSupervisor))
      && (role == Technician ==> !p.canAssign)
  {
  }

  predicate IsAssignable(u: User)
  {
    u.role == Technician || u.role == Vendor
  }

  /** What filtering a user list by the assignable test keeps, for any list. */
  lemma AssignableFilter(users: seq<User>)
    ensures Sequences.IsSubsequence(Sequences.Filter(users, IsAssignable), users)
    ensures forall u :: u in Sequences.Filter(users, IsAssignable) <==> u in users && IsAssignable(u)
    ensures forall u :: multiset(Sequences.Filter(users, IsAssignable))[u] ==
                        (if IsAssignable(u) then multiset(users)[u] else 0)
  {
    Sequences.FilterCount(users, IsAssignable);
    Sequences.FilterIsSubsequence(users, IsAssignable);
    Sequences.FilterMembers(users, IsAssignable);
  }

  /** The users an order may be assigned to: technicians and vendors, in list order. */
  function AssignableUsers(): (r: seq<User>)
    ensures Sequences.IsSubsequence(r, Seed.Users)
    ensures forall u :: u in r <==> u in Seed.Users && (u.role == Technician || u.role == Vendor)
    ensures forall u :: multiset(r)[u] == if IsAssignable(u) then multiset(Seed.Users)[u] else 0
  {
    AssignableFilter(Seed.Users);
    Sequences.Filter(Seed.Users, IsAssignable)
  }

  /** Filtering the last four of eight elements, of which the second is dropped. */
  lemma FilterSampleTail<T(!new)>(us: seq<T>, p: T -> bool)
    requires |us| == 8
    requires p(us[4]) && !p(us[5]) && p(us[6]) && p(us[7])
    ensures Sequences.Filter(us[4..], p) == [us[4], us[6], us[7]]
  {
    assert us[8..] == [];
    Sequences.FilterSuffix(us, 7, p);
    var f7 := Sequences.Filter(us[7..], p);
    assert f7 == [us[7]];
    Sequences.FilterSuffix(us, 6, p);
    var f6 := Sequences.Filter(us[6..], p);
    assert f6 == [us[6]] + f7;
    Sequences.FilterSuffix(us, 5, p);
    assert Sequences.Filter(us[5..], p) == f6;
    Sequences.FilterSuffix(us, 4, p);
    assert Sequences.Filter(us[4..], p) == [us[4]] + f6;
  }

  /** Filtering eight elements that pass exactly at positions 4, 6 and 7, as the sample users
      pass the assignable test. */
  lemma FilterSampleRoles<T(!new)>(us: seq<T>, p: T -> bool)
    requires |us| == 8
    requires !p(us[0]) && !p(us[1]) && !p(us[2]) && !p(us[3])
    requires p(us[4]) && !p(us[5]) && p(us[6]) && p(us[7])
    ensures Sequences.Filter(us, p) == [us[4], us[6], us[7]]
  {
    FilterSampleTail(us, p);
    var tail := Sequences.Filter(us[4..], p);
    Sequences.FilterSuffix(us, 3, p);
    assert Sequences.Filter(us[3..], p) == tail;
    Sequences.FilterSuffix(us, 2, p);
    assert Sequences.Filter(us[2..], p) == tail;
    Sequences.FilterSuffix(us, 1, p);
    assert Sequences.Filter(us[1..], p) == tail;
    Sequences.FilterSuffix(us, 0, p);
    assert Sequences.Filter(us[0..], p) == tail;
    assert us[0..] == us;
  }

  /** Over the sample users the choice is users 5, 7 and 8, and the only vendor among them is 7. */
  lemma SeedAssignableUsers()
    ensures AssignableUsers() == [Seed.Users[4], Seed.Users[6], Seed.Users[7]]
    ensures var r := AssignableUsers();
      r[0].id == 5 && r[0].role == Technician && r[1].id == 7 && r[1].role == Vendor
      && r[2].id == 8 && r[2].role == Technician
  {
    SeedFilter();
    Seed.SeedUsers();
  }

  /** The filter behind `SeedAssignableUsers`, stated without the function's own contract. */
  lemma SeedFilter()
    ensures Sequences.Filter(Seed.Users, IsAssignable) == [Seed.Users[4], Seed.Users[6], Seed.Users[7]]
  {
    var us := Seed.Users;
    Seed.SeedUsers();
    assert !IsAssignable(us[0]) && !IsAssignable(us[1]) && !IsAssignable(us[2]) && !IsAssignable(us[3]);
    assert IsAssignable(us[4]) && !IsAssignable(us[5]) && IsAssignable(us[6]) && IsAssignable(us[7]);
    FilterSampleRoles(us, IsAssignable);
  }

  /** The store operations the screen's handlers can start. */
  datatype Command =
    | ConfirmAssignment(selected: Option<int>)
    | AddNote(note: string)
    | UploadPhoto(url: string)
    | StartProgress
    | CompleteAsSupervisor
    | SubmitCompletion(note: string, mediaUrl: string)

  /** `assigneeId` as a JavaScript condition: set and not 0. */
  predicate Chosen(selected: Option<int>)
  {
    selected.Some? && selected.value != 0
  }

  /** The completion sequence: the photo (with its MEDIA_UPLOAD entry), the prefixed note, and
      the move to Completed, each reading the same snapshot. */
  function CompletionPlan(snapshot: seq<WorkOrder>, workOrderId: int, currentUserId: int, note: string,
                          mediaUrl: string, now: string): seq<Action>
  {
    AddMediaPlan(snapshot, workOrderId, mediaUrl, Image, currentUserId, now)
    + AddActivityPlan(snapshot, workOrderId, ActivityDraft(currentUserId, Note, now, NoteDetails("Completion Note: " + note)))
    + StatusChangePlan(snapshot, workOrderId, Completed, currentUserId, now)
  }

  /** What each handler dispatches against `snapshot`, for the order `workOrderId`. */
  function CommandPlan(cmd: Command, snapshot: seq<WorkOrder>, workOrderId: int, currentUserId: int, now: string): seq<Action>
  {
    match cmd
    case ConfirmAssignment(selected) =>
      if Chosen(selected) then AssignPlan(snapshot, workOrderId, selected.value, currentUserId, now) else []
    case AddNote(note) =>
      if Text.IsBlank(note) then []
      else AddActivityPlan(snapshot, workOrderId, ActivityDraft(currentUserId, Note, now, NoteDetails(note)))
    case UploadPhoto(url) => AddMediaPlan(snapshot, workOrderId, url, Image, currentUserId, now)
    case StartProgress => StatusChangePlan(snapshot, workOrderId, InProgress, currentUserId, now)
    case CompleteAsSupervisor => StatusChangePlan(snapshot, workOrderId, Completed, currentUserId, now)
    case SubmitCompletion(note, mediaUrl) => CompletionPlan(snapshot, workOrderId, currentUserId, note, mediaUrl, now)
  }

  /** Confirming an assignment dispatches the assignment plan when an assignee is chosen and
      nothing otherwise. */
  lemma AssignCommand(state: seq<WorkOrder>, snapshot: seq<WorkOrder>, selected: Option<int>, workOrderId: int,
                      currentUserId: int, now: string)
    ensures ApplyAll(state, CommandPlan(Command.ConfirmAssignment(selected), snapshot, workOrderId, currentUserId, now))
         == if Chosen(selected) then ApplyAll(state, AssignPlan(snapshot, workOrderId, selected.value, currentUserId, now))
            else state
  {
  }

  /** Submitting the completion form dispatches the photo, the note and the status change. */
  lemma CompletionCommand(snapshot: seq<WorkOrder>, workOrderId: int, currentUserId: int, note: string,
                          mediaUrl: string, now: string)
    ensures CommandPlan(Command.SubmitCompletion(note, mediaUrl), snapshot, workOrderId, currentUserId, now)
         == AddMediaPlan(snapshot, workOrderId, mediaUrl, Image, currentUserId, now)
            + AddActivityPlan(snapshot, workOrderId, ActivityDraft(currentUserId, Note, now, NoteDetails("Completion Note: " + note)))
            + StatusChangePlan(snapshot, workOrderId, Completed, currentUserId, now)
  {
  }

  /** The two status buttons of the screen are plain status changes. */
  lemma StatusCommands(snapshot: seq<WorkOrder>, workOrderId: int, currentUserId: int, now: string)
    ensures CommandPlan(StartProgress, snapshot, workOrderId, currentUserId, now)
         == StatusChangePlan(snapshot, workOrderId, InProgress, currentUserId, now)
    ensures CommandPlan(CompleteAsSupervisor, snapshot, workOrderId, currentUserId, now)
         == StatusChangePlan(snapshot, workOrderId, Completed, currentUserId, now)
  {
  }

  lemma KeyedConcat(xs: seq<Action>, ys: seq<Action>)
    requires Keyed(xs) && Keyed(ys)
    ensures Keyed(xs + ys)
  {
    assert forall k :: |xs| <= k < |xs + ys| ==> (xs + ys)[k] == ys[k - |xs|];
  }

  /** No handler of the screen adds an order, and the only statuses it writes are Assigned,
      In Progress and Completed. */
  lemma {:induction false} CommandTargets(cmd: Command, snapshot: seq<WorkOrder>, workOrderId: int, currentUserId: int, now: string)
    ensures var p := CommandPlan(cmd, snapshot, workOrderId, currentUserId, now);
      Keyed(p) && TargetStatuses(p) <= {Assigned, InProgress, Completed}
  {
    match cmd
    case ConfirmAssignment(selected) =>
      if Chosen(selected) {
        AssignTargets(snapshot, workOrderId, selected.value, currentUserId, now);
      }
    case AddNote(note) =>
      AddActivityTargets(snapshot, workOrderId, ActivityDraft(currentUserId, Note, now, NoteDetails(note)));
    case UploadPhoto(url) =>
      AddMediaTargets(snapshot, workOrderId, url, Image, currentUserId, now);
    case StartProgress =>
      StatusChangeTargets(snapshot, workOrderId, InProgress, currentUserId, now);
    case CompleteAsSupervisor =>
      StatusChangeTargets(snapshot, workOrderId, Completed, currentUserId, now);
    case SubmitCompletion(note, mediaUrl) =>
      var p1 := AddMediaPlan(snapshot, workOrderId, mediaUrl, Image, currentUserId, now);
      var draft := ActivityDraft(currentUserId, Note, now, NoteDetails("Completion Note: " + note));
      var p2 := AddActivityPlan(snapshot, workOrderId, draft);
      var p3 := StatusChangePlan(snapshot, workOrderId, Completed, currentUserId, now);
      AddMediaTargets(snapshot, workOrderId, mediaUrl, Image, currentUserId, now);
      AddActivityTargets(snapshot, workOrderId, draft);
      StatusChangeTargets(snapshot, workOrderId, Completed, currentUserId, now);
      TargetStatusesConcat(p1, p2);
      TargetStatusesConcat(p1 + p2, p3);
      KeyedConcat(p1, p2);
      KeyedConcat(p1 + p2, p3);
  }

  /** Whatever the screen does, every order keeps its place and id, and its status either stays
      as it was or becomes Assigned, In Progress or Completed: nothing here reaches On Hold or
      Closed. */
  lemma CommandStatuses(cmd: Command, state: seq<WorkOrder>, snapshot: seq<WorkOrder>, workOrderId: int,
                        currentUserId: int, now: string, i: int)
    requires 0 <= i < |state|
    ensures var r := ApplyAll(state, CommandPlan(cmd, snapshot, workOrderId, currentUserId, now));
      |r| == |state| && r[i].id == state[i].id
      && (r[i].status == state[i].status || r[i].status in {Assigned, InProgress, Completed})
  {
    CommandTargets(cmd, snapshot, workOrderId, currentUserId, now);
    ApplyAllStatuses(state, CommandPlan(cmd, snapshot, workOrderId, currentUserId, now), i);
  }

  /** The first two steps of the completion sequence: the photo with its MEDIA_UPLOAD entry,
      then the prefixed note, both numbered from the same snapshot. */
  lemma PhotoThenNote(state: seq<WorkOrder>, snapshot: seq<WorkOrder>, workOrderId: int,
                      currentUserId: int, note: string, mediaUrl: string, now: string, i: int)
    requires FindWorkOrder(snapshot, workOrderId).Some?
    requires 0 <= i < |state| && state[i].id == workOrderId
    ensures var wo := FindWorkOrder(snapshot, workOrderId).value;
      var n := |wo.activity| + 1;
      var s2 := ApplyAll(state, AddMediaPlan(snapshot, workOrderId, mediaUrl, Image, currentUserId, now)
                                + AddActivityPlan(snapshot, workOrderId, ActivityDraft(currentUserId, Note, now, NoteDetails("Completion Note: " + note))));
      |s2| == |state| && s2[i].id == workOrderId
      && s2[i].media == state[i].media + [Media(NextMediaId(wo.media), mediaUrl, Image, currentUserId, now)]
      && s2[i].activity == [Activity(n, currentUserId, Note, now, NoteDetails("Completion Note: " + note)),
                            Activity(n, currentUserId, MediaUpload, now, MediaDetails(mediaUrl))] + state[i].activity
      && s2[i].(media := state[i].media, activity := state[i].activity) == state[i]
  {
    var wo := FindWorkOrder(snapshot, workOrderId).value;
    var n := |wo.activity| + 1;
    var p1 := AddMediaPlan(snapshot, workOrderId, mediaUrl, Image, currentUserId, now);
    var draft := ActivityDraft(currentUserId, Note, now, NoteDetails("Completion Note: " + note));
    var p2 := AddActivityPlan(snapshot, workOrderId, draft);
    var m := Media(NextMediaId(wo.media), mediaUrl, Image, currentUserId, now);
    var uploaded := Activity(n, currentUserId, MediaUpload, now, MediaDetails(mediaUrl));
    var noted := Numbered(draft, n);
    var s1 := ApplyAll(state, p1);
    var s2 := ApplyAll(s1, p2);
    ApplyAllConcat(state, p1, p2);
    AddMediaAt(state, snapshot, workOrderId, mediaUrl, Image, currentUserId, now, i);
    AddActivityAt(s1, snapshot, workOrderId, draft, i);
    assert [noted] + ([uploaded] + state[i].activity) == [noted, uploaded] + state[i].activity;
    OtherFieldsKept(state[i], s1[i], s2[i]);
  }

  /** An order that changed only its media and log, then only its log, still differs from the
      original only in those two fields. */
  lemma OtherFieldsKept(w0: WorkOrder, w1: WorkOrder, w2: WorkOrder)
    requires w1.(media := w0.media, activity := w0.activity) == w0
    requires w2.(activity := w1.activity) == w1
    ensures w2.(media := w0.media, activity := w0.activity) == w0
  {
  }

  /** The completion sequence on an order the snapshot holds: the order gains the photo at the
      end of its media, and its log gains the prefixed note and MEDIA_UPLOAD at its head,
      preceded by STATUS_CHANGE to Completed unless the snapshot already showed Completed. In
      that case the status is left as the current collection has it, which need not be
      Completed when the snapshot is stale. All new entries carry the same id, one past the
      snapshot's log length. */
  lemma CompletionOutcome(state: seq<WorkOrder>, snapshot: seq<WorkOrder>, workOrderId: int,
                          currentUserId: int, note: string, mediaUrl: string, now: string, i: int)
    requires FindWorkOrder(snapshot, workOrderId).Some?
    requires 0 <= i < |state| && state[i].id == workOrderId
    ensures var wo := FindWorkOrder(snapshot, workOrderId).value;
      var n := |wo.activity| + 1;
      var r := ApplyAll(state, CompletionPlan(snapshot, workOrderId, currentUserId, note, mediaUrl, now));
      var logged := [Activity(n, currentUserId, Note, now, NoteDetails("Completion Note: " + note)),
                     Activity(n, currentUserId, MediaUpload, now, MediaDetails(mediaUrl))]
                    + state[i].activity;
      |r| == |state|
      && r[i].status == (if wo.status == Completed then state[i].status else Completed)
      && r[i].media == state[i].media + [Media(NextMediaId(wo.media), mediaUrl, Image, currentUserId, now)]
      && r[i].activity == (if wo.status == Completed then logged
                           else [Activity(n, currentUserId, StatusChange, now, StatusDetails(wo.status, Completed))] + logged)
      && r[i].(status := state[i].status, media := state[i].media, activity := state[i].activity) == state[i]
  {
    var wo := FindWorkOrder(snapshot, workOrderId).value;
    var p12 := AddMediaPlan(snapshot, workOrderId, mediaUrl, Image, currentUserId, now)
               + AddActivityPlan(snapshot, workOrderId, ActivityDraft(currentUserId, Note, now, NoteDetails("Completion Note: " + note)));
    var p3 := StatusChangePlan(snapshot, workOrderId, Completed, currentUserId, now);
    var s2 := ApplyAll(state, p12);
    ApplyAllConcat(state, p12, p3);
    PhotoThenNote(state, snapshot, workOrderId, currentUserId, note, mediaUrl, now, i);
    StatusChangeOutcome(s2, snapshot, workOrderId, Completed, currentUserId, now);
  }

  /** The screen for one order: the order as last rendered, the signed-in user, and the
      screen's own state. */
  class DetailScreen {
    const store: WorkOrderStore
    var workOrder: WorkOrder
    const currentUser: User
    var newNote: string
    var showAssign: bool
    var assigneeId: Option<int>
    var isCompleting: bool

    constructor(store: WorkOrderStore, workOrder: WorkOrder, currentUser: User)
      ensures this.store == store && this.workOrder == workOrder && this.currentUser == currentUser
      ensures newNote == "" && !showAssign && assigneeId == None && !isCompleting
    {
      this.store := store;
      this.workOrder := workOrder;
      this.currentUser := currentUser;
      newNote := "";
      showAssign := false;
      assigneeId := None;
      isCompleting := false;
    }

    /** A re-render hands the screen the order as the store now holds it. */
    method Refresh(wo: WorkOrder)
      modifies this`workOrder
      ensures workOrder == wo
    {
      workOrder := wo;
    }

    method EditNote(text: string)
      modifies this`newNote
      ensures newNote == text
    {
      newNote := text;
    }

    method OpenAssign()
      modifies this`showAssign
      ensures showAssign
    {
      showAssign := true;
    }

    method CancelAssign()
      modifies this`showAssign
      ensures !showAssign
    {
      showAssign := false;
    }

    method ChooseAssignee(id: int)
      modifies this`assigneeId
      ensures assigneeId == Some(id)
    {
      assigneeId := Some(id);
    }

    /** `handleConfirmAssignment`: assigns only when an assignee is chosen, then closes the
        picker and clears the choice; with no choice nothing changes. */
    method ConfirmAssignment(now: string)
      modifies store`workOrders, this`showAssign, this`assigneeId
      ensures store.workOrders == ApplyAll(old(store.workOrders),
                CommandPlan(Command.ConfirmAssignment(old(assigneeId)), store.rendered, workOrder.id, currentUser.id, now))
      ensures Chosen(old(assigneeId)) ==> !showAssign && assigneeId == None
      ensures !Chosen(old(assigneeId)) ==> showAssign == old(showAssign) && assigneeId == old(assigneeId)
    {
      AssignCommand(store.workOrders, store.rendered, assigneeId, workOrder.id, currentUser.id, now);
      if Chosen(assigneeId) {
        store.HandleAssign(workOrder.id, assigneeId.value, currentUser.id, now);
        showAssign := false;
        assigneeId := None;
      }
    }

    /** `handleAddNote`: a blank note does nothing; otherwise the note, as typed, is logged and
        the box is cleared. */
    method AddNote(now: string)
      modifies store`workOrders, this`newNote
      ensures store.workOrders == ApplyAll(old(store.workOrders),
                CommandPlan(Command.AddNote(old(newNote)), store.rendered, workOrder.id, currentUser.id, now))
      ensures newNote == if Text.IsBlank(old(newNote)) then old(newNote) else ""
    {
      if Text.IsBlank(newNote) {
        return;
      }
      store.AddActivity(workOrder.id, ActivityDraft(currentUser.id, Note, now, NoteDetails(newNote)));
      newNote := "";
    }

    /** A photo chosen from the media section, once read into a data url. */
    method UploadPhoto(url: string, now: string)
      modifies store`workOrders
      ensures store.workOrders == ApplyAll(old(store.workOrders),
                CommandPlan(Command.UploadPhoto(url), store.rendered, workOrder.id, currentUser.id, now))
    {
      store.AddMedia(workOrder.id, url, Image, currentUser.id, now);
    }

    /** "Mark as In Progress". */
    method StartProgress(now: string)
      modifies store`workOrders
      ensures store.workOrders == ApplyAll(old(store.workOrders),
                CommandPlan(Command.StartProgress, store.rendered, workOrder.id, currentUser.id, now))
    {
      StatusCommands(store.rendered, workOrder.id, currentUser.id, now);
      store.HandleStatusChange(workOrder.id, InProgress, currentUser.id, now);
    }

    /** "Mark as Complete" for a supervisor: straight to Completed, no evidence asked. */
    method CompleteAsSupervisor(now: string)
      modifies store`workOrders
      ensures store.workOrders == ApplyAll(old(store.workOrders),
                CommandPlan(Command.CompleteAsSupervisor, store.rendered, workOrder.id, currentUser.id, now))
    {
      StatusCommands(store.rendered, workOrder.id, currentUser.id, now);
      store.HandleStatusChange(workOrder.id, Completed, currentUser.id, now);
    }

    /** "Mark as Complete" for a technician opens the completion form. */
    method OpenCompletion()
      modifies this`isCompleting
      ensures isCompleting
    {
      isCompleting := true;
    }

    method CancelCompletion()
      modifies this`isCompleting
      ensures !isCompleting
    {
      isCompleting := false;
    }

    /** `handleSubmitCompletion`: the photo, the prefixed note and the move to Completed, in
        that order, then the form closes. */
    method SubmitCompletion(note: string, mediaUrl: string, now: string)
      modifies store`workOrders, this`isCompleting
      ensures store.workOrders == ApplyAll(old(store.workOrders),
                CommandPlan(Command.SubmitCompletion(note, mediaUrl), store.rendered, workOrder.id, currentUser.id, now))
      ensures !isCompleting
    {
      ghost var s0 := store.workOrders;
      CompletionCommand(store.rendered, workOrder.id, currentUser.id, note, mediaUrl, now);
      var p1 := AddMediaPlan(store.rendered, workOrder.id, mediaUrl, Image, currentUser.id, now);
      var draft := ActivityDraft(currentUser.id, Note, now, NoteDetails("Completion Note: " + note));
      var p2 := AddActivityPlan(store.rendered, workOrder.id, draft);
      var p3 := StatusChangePlan(store.rendered, workOrder.id, Completed, currentUser.id, now);
      store.AddMedia(workOrder.id, mediaUrl, Image, currentUser.id, now);
      store.AddActivity(workOrder.id, draft);
      store.HandleStatusChange(workOrder.id, Completed, currentUser.id, now);
      ApplyAllConcat(s0, p1, p2);
      ApplyAllConcat(s0, p1 + p2, p3);
      isCompleting := false;
    }
  }
}
