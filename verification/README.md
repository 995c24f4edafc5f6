# Work orders for property management, modelled in Dafny

This project models the core of a work-order app for property management. The app keeps an in-memory collection of work orders. Each order has a status, an assignee or a vendor, media, and an activity log. The core consists of:

- **The reducer** (`Reducer.Apply`). It is a pure function from the collection and one of five actions to the next collection. The actions add an order, prepend an activity, append a media item, set a status, or assign an order.
- **The store** (`Store.WorkOrderStore`). Its operations read the collection and dispatch actions: `addWorkOrder`, `addActivity`, `addMedia`, `handleAssign` and `handleStatusChange`.
- **The reference data** (`Seed`, `Lookup`). These are the eight users, the three properties, the six sample orders, the two role lists, and the first-match lookups.
- **The decision rules of the screens**:
  - the detail screen's permission flags, handlers and completion sequence (`Detail`);
  - the completion form's evidence gate (`Completion`);
  - the create form's validation, tag toggling and tag suggestions (`Create`);
  - the dashboard's role-specific lists and counts (`Dashboard`);
  - the application shell's view and selection state, list filter and header (`App`).

## How the model is put together

- **Snapshot semantics.** The store operations are closures over the collection as it was at the last render. The store class therefore has two fields:
  - `workOrders` is the value the reducer holds;
  - `rendered` is the value those closures see.
  Every operation reads `rendered` and dispatches into `workOrders`; `Render` stands for the re-render.
- **Plans.** Each operation is specified by a *plan*: the sequence of actions it dispatches, computed from `rendered`. The operation's `ensures` says that the new `workOrders` is `ApplyAll(old(workOrders), Plan(rendered, ...))`.
- **Outcome lemmas.** The `...Outcome` lemmas in `Workflow` state, order by order, what a plan does to any collection. They cover which fields change, where new entries go, and which ids those entries get.
- **Nested operations.** A nested call such as `addMedia` calling `addActivity` reads the same snapshot. So do the three calls of the completion sequence. Every activity such a composite operation creates therefore carries the same id.
- **Screen classes.** The screens' state lives in classes: `DetailScreen`, `CompletionForm`, `CreateForm` and `AppState`. Their handlers are methods that change that state and call the store.
- **Pure rules.** The permission flags, filters, counts and the header title are functions.

### Where the description of the app and the code differ (the model follows the code)

- **Activity ids are not unique within an order.** `handleAssign` adds two entries, and the completion sequence adds up to three: MEDIA_UPLOAD, the completion NOTE and STATUS_CHANGE. All of them get the id "snapshot log length + 1", because every nested call reads the same snapshot. `Workflow.AssignOutcome` and `Detail.CompletionOutcome` state this.
- **Log order after assignment.** After `handleAssign`, the log reads STATUS_CHANGE, then ASSIGNMENT, then the older entries. The ASSIGNMENT entry is dispatched first and then pushed down by the STATUS_CHANGE entry.
- **The seed is not newest first.** The sample collection is listed with ascending ids, and each sample log is listed oldest first. "Sorted by id descending" and "newest entry at the head" hold only for orders and entries added at run time (`Seed.SeedIdsAscending`, `Seed.SeedLogsOldestFirst`).
- **New ids are fresh only against the snapshot.** `addWorkOrder` takes the largest id of the collection it closed over. Two calls that read the same snapshot therefore both add an order with the same id (`Workflow.SharedSnapshotDuplicatesId`). With a current snapshot the id is above every existing one (`Workflow.AddWorkOrderOutcome`).
- **Completion under a stale snapshot.** If the snapshot already shows Completed, no status change is dispatched. The order then keeps whatever status the current collection has.

## Model

| member | source | states |
|---|---|---|
| Sequences.FindFirst | src/lib/utils.ts:4 | `Array.find`: None exactly when no element satisfies the test; otherwise the first element that does |
| Sequences.FilterMembers | src/components/dashboard/Dashboard.tsx:15 | `Array.filter` keeps exactly the elements that pass the test |
| Sequences.FilterCount | src/components/dashboard/Dashboard.tsx:15 | `Array.filter` keeps every copy of an element that passes and no copy of one that fails |
| Sequences.FilterIsSubsequence | src/app/App.tsx:42-52 | `Array.filter` keeps the survivors in their original order (a subsequence of the input) |
| Sequences.FilterTwice | src/app/App.tsx:42-44 | two filters in a row are one filter by the conjunction of both tests |
| Text.Trim | src/components/workorders/CompletionModal.tsx:26 | `trim()` yields the empty string exactly when the text is all whitespace |
| Text.IsSubstringIffOccurs | src/app/App.tsx:48-50 | `includes` holds exactly when the query occurs at some position of the text |
| Text.Digits | src/app/App.tsx:48 | `toString()` of a natural number is a non-empty string of digits with no leading zero |
| Text.ParseDigitsRoundTrip | src/app/App.tsx:99 | reading back the decimal digits of a number gives the number |
| Text.Utf16Length | src/components/workorders/CreateWorkOrder.tsx:23 | `length` counts UTF-16 code units: between one and two per character, equal to the character count exactly for text without characters beyond U+FFFF, twice it when every character lies beyond |
| Types.TypeAdmitsBothAssignees | src/lib/types.ts:76-77 | the record type itself lets `assignedToId` and `vendorId` both be set; exclusivity is not enforced by the type |
| Types.StatusIsClosed | src/lib/types.ts:11-18 | Status has exactly six distinct values |
| Types.RoleIsClosed | src/lib/types.ts:1-9 | Role has exactly seven distinct values |
| Types.ActivityTypeIsClosed | src/lib/types.ts:41-47 | ActivityType has exactly five distinct values |
| Types.ViewIsClosed | src/lib/types.ts:83 | View has exactly five distinct screens |
| Seed.SeedUsers | src/lib/constants.ts:3-12 | user ids are 1 to 8 in list order, and user 7 is the only Vendor |
| Seed.SeedProperties | src/lib/constants.ts:14-18 | property ids are 101 to 103 in list order |
| Seed.SeedPropertyRefs | src/lib/constants.ts:22-126 | every sample order names one of the three properties |
| Seed.SeedIdsAscending | src/lib/constants.ts:22-126 | sample order ids are 2024001 to 2024006, listed strictly ascending, so the initial collection is not id-descending |
| Seed.SeedAssignees | src/lib/constants.ts:22-126 | every sample order sets at most one assignee; a `vendorId` is always the Vendor and an `assignedToId` always a Technician |
| Seed.SeedStatuses | src/lib/constants.ts:22-126 | each sample status is the new status of the last-listed STATUS_CHANGE (New if none) |
| Seed.SeedLogsOldestFirst | src/lib/constants.ts:22-126 | in every sample log the entry ids run 1..n in listing order, so the log is oldest first |
| Seed.RoleLists | src/lib/constants.ts:143-144 | the assignable and creation role lists are equal, and their members are exactly Master Admin, Admin, Property Manager and Supervisor |
| Lookup.GetUserById | src/lib/utils.ts:4 | the first user with the id, and None exactly when no user has it |
| Lookup.GetPropertyById | src/lib/utils.ts:6 | the first property with the id, and None exactly when no property has it |
| Lookup.UserLookups | src/lib/utils.ts:4 | over the sample users, exactly ids 1-8 resolve, user id being entry id-1 |
| Lookup.PropertyLookups | src/lib/utils.ts:6 | over the sample properties, exactly ids 101-103 resolve, property id being entry id-101 |
| Reducer.ReviseMatching | src/store/workOrders.reducer.ts:11-51 | the keyed cases keep the collection's length and each position's id |
| Reducer.ReviseMatchingAt | src/store/workOrders.reducer.ts:11-51 | position i of a keyed case is the revised order when its id matches and the same order otherwise |
| Reducer.InsertById | src/store/workOrders.reducer.ts:8 | insertion adds exactly one element (as a multiset) |
| Reducer.InsertByIdSorted | src/store/workOrders.reducer.ts:8 | inserting into an id-descending sequence keeps it id-descending |
| Reducer.SortByIdDescending | src/store/workOrders.reducer.ts:8 | the sort is a permutation of its input and is id-descending |
| Reducer.InsertByIdStable | src/store/workOrders.reducer.ts:8 | insertion puts the new order ahead of every order with the same id, the others keeping their relative order |
| Reducer.SortStable | src/store/workOrders.reducer.ts:8 | the sort is stable: for every id, the orders carrying it keep their relative order |
| Reducer.SortKeepsSorted | src/store/workOrders.reducer.ts:8 | sorting an already id-descending sequence returns it unchanged |
| Reducer.InsertLargestAtHead | src/store/workOrders.reducer.ts:8 | an order whose id exceeds every other id lands at the head |
| Reducer.Apply | src/store/workOrders.reducer.ts:5-56 | ADD_WORK_ORDER returns the payload plus every prior order (length+1, same multiset), id-descending; every other action keeps length and every position's id |
| Reducer.ApplyAt | src/store/workOrders.reducer.ts:11-51 | position i of a keyed action's result: revised if its id matches, unchanged otherwise |
| Reducer.AddWorkOrderAtHead | src/store/workOrders.reducer.ts:7-8 | a new order with an id above every existing id is at the head, followed by the prior orders sorted |
| Reducer.AddWorkOrderOntoSorted | src/store/workOrders.reducer.ts:7-8 | onto an id-descending collection, such an order is just prepended |
| Reducer.UnknownIdIsNoOp | src/store/workOrders.reducer.ts:11-51 | a keyed action whose id matches no order returns an equal collection |
| Reducer.AddActivityEffect | src/store/workOrders.reducer.ts:10-16 | each matching order gains the activity at index 0 of its log; no other order or field changes |
| Reducer.AddMediaEffect | src/store/workOrders.reducer.ts:18-25 | each matching order gains the item at the end of its media; nothing else changes |
| Reducer.UpdateStatusEffect | src/store/workOrders.reducer.ts:27-33 | only `status` changes, to any target whatever the current status |
| Reducer.AssignEffect | src/store/workOrders.reducer.ts:35-51 | a Vendor goes to `vendorId` with `assignedToId` cleared, anyone else to `assignedToId` with `vendorId` cleared; status becomes Assigned; nothing else changes |
| Reducer.VendorRoutingOverSeed | src/store/workOrders.reducer.ts:39 | over the sample users only id 7 is routed to `vendorId`; an unknown id counts as non-vendor |
| Reducer.ReviseMatchingAgree | src/store/workOrders.reducer.ts:11-51 | two keyed actions on the same order that revise every order alike give the same collection |
| Reducer.AssignIgnoresOldStatus | src/store/workOrders.types.ts:7 | the `oldStatus` of ASSIGN_WORK_ORDER never affects the result |
| Reducer.UpdateIgnoresOldStatus | src/store/workOrders.types.ts:8 | the `oldStatus` of UPDATE_WORK_ORDER_STATUS never affects the result |
| Reducer.ApplyPreservesExclusive | src/store/workOrders.reducer.ts:8-46 | "at most one of assignedToId/vendorId is set" is preserved by every action, given a payload of ADD_WORK_ORDER that satisfies it |
| Reducer.ApplyStatusTargets | src/store/workOrders.reducer.ts:27-51 | a keyed action leaves each status as it was or sets it to the action's target |
| Workflow.FindWorkOrder | src/store/workOrders.context.tsx:38 | the first order with the id, None exactly when there is none |
| Workflow.NextWorkOrderId | src/store/workOrders.context.tsx:21 | the new id exceeds every existing id and is one above an existing id (the maximum) |
| Workflow.NextMediaId | src/store/workOrders.context.tsx:49 | 1 for no media; otherwise exceeds every media id and is one above the largest |
| Workflow.ApplyAllStatuses | src/store/workOrders.context.tsx:37-97 | after a plan of keyed actions each order keeps its place and id, and its status is unchanged or one the plan writes |
| Workflow.ApplyAllPreservesExclusive | src/store/workOrders.context.tsx:20-97 | every plan keeps the exclusive-assignee invariant, given added orders that satisfy it |
| Workflow.SharedSnapshotDuplicatesId | src/store/workOrders.context.tsx:20-35 | two `addWorkOrder` calls on one snapshot add two orders under the same id, at two positions when their fields differ |
| Workflow.AddWorkOrderOutcome | src/store/workOrders.context.tsx:20-35 | the new order is first, its id is above every existing id, its fields are the caller's, it has no media and one CREATED entry with id 1 by the caller; the prior orders follow, sorted |
| Workflow.AddActivityOutcome | src/store/workOrders.context.tsx:37-42 | unknown order: nothing changes; otherwise the entry heads each matching log with id = snapshot log length + 1, and nothing else changes |
| Workflow.AddMediaOutcome | src/store/workOrders.context.tsx:44-63 | unknown order: nothing changes; otherwise the item (id = max media id + 1, or 1) is appended and a MEDIA_UPLOAD entry with the same url and user heads the log |
| Workflow.AssignOutcome | src/store/workOrders.context.tsx:65-83 | unknown order: nothing changes; otherwise routing as in the reducer, status Assigned, and the log begins STATUS_CHANGE(snapshot status to Assigned), ASSIGNMENT, then the old entries, both with the same id |
| Workflow.StatusChangeOutcome | src/store/workOrders.context.tsx:85-97 | no-op for an unknown order or an unchanged status; otherwise the status is set and exactly one STATUS_CHANGE {old, new} heads the log |
| Workflow.AddActivityTargets | src/store/workOrders.context.tsx:37-42 | `addActivity` adds no order and writes no status |
| Workflow.AddMediaTargets | src/store/workOrders.context.tsx:44-63 | `addMedia` adds no order and writes no status |
| Workflow.AssignTargets | src/store/workOrders.context.tsx:65-69 | `handleAssign` checks neither role nor status: for any order the snapshot holds it writes Assigned, and nothing for an unknown one |
| Workflow.StatusChangeTargets | src/store/workOrders.context.tsx:85-97 | `handleStatusChange` writes no status but the one given |
| Store.WorkOrderStore.constructor | src/store/workOrders.context.tsx:18 | the store starts from the sample orders, so `Valid()` (a non-empty collection and snapshot) holds |
| Store.WorkOrderStore.Render | src/store/workOrders.context.tsx:18 | a re-render hands the operations the current collection |
| Store.WorkOrderStore.Dispatch | src/store/workOrders.context.tsx:18 | a dispatch applies the reducer to the current collection, which never shrinks |
| Store.WorkOrderStore.AddWorkOrder | src/store/workOrders.context.tsx:20-35 | the collection becomes the reducer folded over the `addWorkOrder` plan computed from the snapshot; it grows by one and `Valid()` is kept |
| Store.WorkOrderStore.AddActivity | src/store/workOrders.context.tsx:37-42 | likewise for the `addActivity` plan; the collection keeps its length |
| Store.WorkOrderStore.AddMedia | src/store/workOrders.context.tsx:44-63 | likewise for the `addMedia` plan (media, then the nested `addActivity` on the same snapshot); the collection keeps its length |
| Store.WorkOrderStore.HandleAssign | src/store/workOrders.context.tsx:65-83 | likewise for the `handleAssign` plan (assign, ASSIGNMENT, STATUS_CHANGE); the collection keeps its length |
| Store.WorkOrderStore.HandleStatusChange | src/store/workOrders.context.tsx:85-97 | likewise for the `handleStatusChange` plan; the collection keeps its length |
| Detail.PermissionsFor | src/components/workorders/WorkOrderDetail.tsx:29-37 | each flag holds iff its role and status condition holds: assign for the four staff roles on New/On Hold; start for a Technician on Assigned; complete for a Technician on In Progress, or a Supervisor on Assigned/In Progress |
| Detail.PermissionsExclusive | src/components/workorders/WorkOrderDetail.tsx:32-37 | the two completion flags are never both true, and a technician is never offered assignment |
| Detail.AssignableUsers | src/components/workorders/WorkOrderDetail.tsx:33 | exactly the Technicians and Vendors of the user list, every copy of each, in list order |
| Detail.SeedAssignableUsers | src/components/workorders/WorkOrderDetail.tsx:33 | over the sample users the choice is users 5, 7 and 8, in that order, with 7 the Vendor |
| Detail.CommandTargets | src/components/workorders/WorkOrderDetail.tsx:39-81 | no handler adds an order, and the only statuses written are Assigned, In Progress and Completed |
| Detail.CommandStatuses | src/components/workorders/WorkOrderDetail.tsx:41-79 | after any handler every order keeps its place and id, and its status is unchanged or Assigned, In Progress or Completed; nothing reaches On Hold or Closed |
| Detail.PhotoThenNote | src/components/workorders/WorkOrderDetail.tsx:71-78 | the photo is appended to the media, and the prefixed note and MEDIA_UPLOAD head the log, with the same id |
| Detail.CompletionOutcome | src/components/workorders/WorkOrderDetail.tsx:71-81 | the completion sequence appends the photo and puts STATUS_CHANGE (unless the snapshot showed Completed), "Completion Note: "+note and MEDIA_UPLOAD at the log's head, all with one id; the status becomes Completed unless the snapshot already showed it |
| Detail.DetailScreen.constructor | src/components/workorders/WorkOrderDetail.tsx:22-26 | empty note box, picker closed, nothing chosen, form closed |
| Detail.DetailScreen.Refresh | src/app/App.tsx:85 | the screen shows the order it is given on re-render |
| Detail.DetailScreen.EditNote | src/components/workorders/WorkOrderDetail.tsx:209 | the note box holds the typed text |
| Detail.DetailScreen.OpenAssign | src/components/workorders/WorkOrderDetail.tsx:152 | the picker opens |
| Detail.DetailScreen.CancelAssign | src/components/workorders/WorkOrderDetail.tsx:162 | the picker closes |
| Detail.DetailScreen.ChooseAssignee | src/components/workorders/WorkOrderDetail.tsx:157 | the chosen id is recorded |
| Detail.DetailScreen.ConfirmAssignment | src/components/workorders/WorkOrderDetail.tsx:39-45 | `handleAssign` runs only when an assignee is chosen (set and non-zero), then the picker closes and the choice is cleared; otherwise nothing changes |
| Detail.DetailScreen.AddNote | src/components/workorders/WorkOrderDetail.tsx:47-56 | a whitespace-only note does nothing; otherwise a NOTE with the untrimmed text is logged and the box is cleared |
| Detail.DetailScreen.UploadPhoto | src/components/workorders/WorkOrderDetail.tsx:58-69 | the url is added as an image through `addMedia` |
| Detail.DetailScreen.StartProgress | src/components/workorders/WorkOrderDetail.tsx:169 | the status change to In Progress |
| Detail.DetailScreen.CompleteAsSupervisor | src/components/workorders/WorkOrderDetail.tsx:179 | the status change to Completed, with no evidence |
| Detail.DetailScreen.OpenCompletion | src/components/workorders/WorkOrderDetail.tsx:174 | the completion form opens |
| Detail.DetailScreen.CancelCompletion | src/components/workorders/WorkOrderDetail.tsx:104 | the completion form closes |
| Detail.DetailScreen.SubmitCompletion | src/components/workorders/WorkOrderDetail.tsx:71-81 | `addMedia`, the prefixed note, and the change to Completed, in that order, then the form closes |
| Completion.Review | src/components/workorders/CompletionModal.tsx:25-31 | rejected iff the trimmed note is empty or the photo url is missing or empty; when accepted, the untrimmed note and the unchanged url are passed on |
| Completion.DisabledIffRejected | src/components/workorders/CompletionModal.tsx:26-61 | the Submit button is disabled exactly when submitting would be rejected |
| Completion.CompletionForm.constructor | src/components/workorders/CompletionModal.tsx:8-9 | empty note and no photo |
| Completion.CompletionForm.EditNote | src/components/workorders/CompletionModal.tsx:41 | the note holds the typed text |
| Completion.CompletionForm.PhotoLoaded | src/components/workorders/CompletionModal.tsx:16-19 | the loaded data url becomes the photo |
| Completion.CompletionForm.RemovePhoto | src/components/workorders/CompletionModal.tsx:49 | removing the photo resets it to none |
| Completion.CompletionForm.Submit | src/components/workorders/CompletionModal.tsx:25-31 | the outcome is the review of the current note and photo, rejected exactly when the button is disabled |
| Create.SubmitCheck | src/components/workorders/CreateWorkOrder.tsx:53-56 | rejected iff the title or description is empty; whitespace-only text passes |
| Create.NewOrderFields | src/components/workorders/CreateWorkOrder.tsx:57 | status New, the selected tags, the form's fields, and no unit, tenant, assignee or vendor |
| Create.CreatedFromFormIsExclusive | src/components/workorders/CreateWorkOrder.tsx:57 | an order created from the form is New with no assignee, so it meets the exclusive-assignee invariant |
| Create.Toggled | src/components/workorders/CreateWorkOrder.tsx:48 | a present tag is removed wherever it occurs, while every copy of every other tag is kept in order; an absent tag is appended |
| Create.ToggleTwice | src/components/workorders/CreateWorkOrder.tsx:48 | toggling twice restores membership; it restores the list when the tag was absent, and when it was present it drops every copy and appends one at the end |
| Create.DropSuggestion | src/components/workorders/CreateWorkOrder.tsx:49 | the suggestions lose every copy of the tag and keep every copy of everything else, in order |
| Create.SuggestionsAsWritten | src/components/workorders/CreateWorkOrder.tsx:42-45 | the generated tags not among the tags captured when the request was scheduled, every copy of each, in order |
| Create.StaleSuggestion | src/components/workorders/CreateWorkOrder.tsx:21-45 | as written, a tag selected while the request is pending comes back as a suggestion |
| Create.Suggestions | src/components/workorders/CreateWorkOrder.tsx:44 | exactly the generated tags not currently selected, every copy of each, in order, and disjoint from the selection |
| Create.ToggleKeepsDisjoint | src/components/workorders/CreateWorkOrder.tsx:47-50 | toggling keeps the suggestions apart from the selection |
| Create.CreateForm.constructor | src/components/workorders/CreateWorkOrder.tsx:10-17 | empty fields, the first property, Medium priority, no tags and no suggestions |
| Create.CreateForm.EditTitle | src/components/workorders/CreateWorkOrder.tsx:65 | the title holds the typed text |
| Create.CreateForm.TitleGenerated | src/components/workorders/CreateWorkOrder.tsx:36-38 | a non-empty generated title replaces the title; an empty one leaves it |
| Create.CreateForm.EditDescription | src/components/workorders/CreateWorkOrder.tsx:21-31 | at 20 UTF-16 code units or fewer the suggestions are cleared; otherwise they stay until the answer arrives |
| Create.AstralCharactersCountTwice | src/components/workorders/CreateWorkOrder.tsx:23 | eleven U+1F600 characters are 22 code units long and schedule a tag request; ten do not |
| Create.CreateForm.ChooseProperty | src/components/workorders/CreateWorkOrder.tsx:12 | the chosen property is recorded |
| Create.CreateForm.ChoosePriority | src/components/workorders/CreateWorkOrder.tsx:13 | the chosen priority is recorded |
| Create.CreateForm.ReceiveSuggestions | src/components/workorders/CreateWorkOrder.tsx:44 | the suggestions become the corrected filter of the answer, so no selected tag is suggested |
| Create.CreateForm.ToggleTag | src/components/workorders/CreateWorkOrder.tsx:47-50 | the tags are toggled, the tag leaves the suggestions, and the two stay disjoint |
| Create.CreateForm.Submit | src/components/workorders/CreateWorkOrder.tsx:52-59 | accepted iff title and description are non-empty; if accepted the store adds the New order, and otherwise nothing changes; the store stays `Valid()` |
| Dashboard.ActiveJobs | src/components/dashboard/Dashboard.tsx:15 | exactly the orders assigned to the user through `assignedToId` that are Assigned or In Progress, every copy of each, in collection order |
| Dashboard.CompletedJobs | src/components/dashboard/Dashboard.tsx:16 | exactly the user's Completed orders through `assignedToId`, every copy of each, in collection order |
| Dashboard.RecentlyCompleted | src/components/dashboard/Dashboard.tsx:33 | `slice(0, 5)`: a prefix of the completed jobs, all of them when there are at most five, and exactly five otherwise |
| Dashboard.CountsBounded | src/components/dashboard/Dashboard.tsx:45-47 | the New, In Progress and On Hold counts add up to at most the collection size |
| Dashboard.HighPriority | src/components/dashboard/Dashboard.tsx:48 | exactly the High orders that are neither Completed nor Closed, every copy of each, in collection order |
| Dashboard.ContentFor | src/components/dashboard/Dashboard.tsx:14-48 | the technician lists are shown iff the role is Technician; otherwise the New, In Progress and On Hold counts are the sizes of the filters by those statuses (together at most the collection size), with the high-priority list |
| Dashboard.VendorOrdersHidden | src/components/dashboard/Dashboard.tsx:15-16 | an order routed to a vendor never appears in a technician's lists |
| App.FilteredWorkOrders | src/app/App.tsx:42-52 | a subsequence of the collection holding exactly, with every copy, the orders that pass the status filter and match the lowered query in id, lowered title or lowered description |
| App.NoFilterShowsAll | src/app/App.tsx:43-46 | filter All with an empty query shows the whole collection, in order |
| App.StatusFilterOnly | src/app/App.tsx:43 | with an empty query, exactly the orders with the chosen status |
| App.SearchByNumber | src/app/App.tsx:48 | typing an order's own number finds it |
| App.SelectedOrder | src/app/App.tsx:35 | the first order with the selected id, none when nothing is selected |
| App.HeaderTitle | src/app/App.tsx:95-104 | the title of each screen, "WO-<id>" on the detail screen when the selection is found and "Detail" otherwise |
| App.HeaderNamesSelection | src/app/App.tsx:99 | on a found selection the digits after "WO-" read back as the selected id |
| App.AppState.constructor | src/app/App.tsx:16-20 | the dashboard, nothing selected, the third user (the property manager), an empty query and filter All; no back button |
| App.AppState.SelectWorkOrder | src/app/App.tsx:23-26 | the order is selected and the detail screen shows, with a back button |
| App.AppState.ChangeView | src/app/App.tsx:28-33 | any screen but the detail screen clears the selection; the detail screen keeps it |
| App.AppState.SetSearchQuery | src/app/App.tsx:61 | the query holds the typed text |
| App.AppState.SetStatusFilter | src/app/App.tsx:68 | the chosen status filter is recorded |
| App.AppState.SelectUser | src/app/App.tsx:89 | the settings screen switches the signed-in user |

## Left out

- The title and tag suggestion service, its network calls and its JSON parsing are left out. Its answers enter the model as parameters (`TitleGenerated`, `ReceiveSuggestions`).
- The debounce timer and the asynchronous title generation are left out, including the `isGeneratingTitle` flag. Only the rule "20 UTF-16 code units or fewer clears the suggestions" is modelled.
- An answer can arrive after the description has been shortened again. The model cannot express this, because it has no timers.
- Reading a file into a data url is left out, since it is browser I/O. The url is an input to `UploadPhoto` and `PhotoLoaded`.
- Timestamps are opaque strings, one clock reading `now` per operation call. No ordering of timestamps is claimed.
- The provider and context plumbing is left out, including the error raised when the store is used outside its provider. The store class stands in for it.
- `toLowerCase` is a parameter `lowerChar`, a character map. Unicode case folding is not modelled.
- Rendering, styling and colour maps are not part of this model. The same goes for the header, bottom navigation, settings and list components. The one exception is the back-button rule, `App.ShowBackButton`.
- Store.WorkOrderStore.AddWorkOrder: requires `Valid()`, a non-empty snapshot. The largest id of an empty collection is minus infinity, which has no integer counterpart. The constructor establishes `Valid()`, and no store method shrinks the collection.
- Strings are sequences of Unicode scalar values. JavaScript's UTF-16 view shows only in `length`, which `Text.Utf16Length` models. Lone surrogates are not modelled.
- App.HeaderTitle: the "Nexus" default title is not modelled. The `View` type is closed, so that branch is unreachable.
- App.AppState.ChangeView: requires `Valid()` (a selection only on the detail screen). Every method of the class keeps that invariant.
- Text.DecimalString: JavaScript writes numbers of 1e21 and above in exponent notation. The model writes every id in plain decimal, so it assumes ids below 1e21.
- No code path sets On Hold or Closed, and the code has no general lifecycle validator. The model invents none.

## Findings

| source | as written | input that shows it | evidently intended | confidence | as-written member | corrected member |
|---|---|---|---|---|---|---|
| src/components/workorders/CreateWorkOrder.tsx:44 | the answer is filtered against the `tags` captured when the debounced request was scheduled, not against the tags selected when it arrives | no tag selected when the request is scheduled, "Plumbing" selected while it is pending, and the service returns ["Plumbing"]: "Plumbing" is both selected and suggested | suggested tags never include a currently selected tag | not executed | Create.StaleSuggestion | Create.CreateForm.ReceiveSuggestions |
