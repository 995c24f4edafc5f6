/**
 * The entity model of the work-order application: roles, statuses, activity kinds,
 * and the User, Property, Media, Activity and WorkOrder records.
 */
module Types {
  import opened Options

  datatype Role = MasterAdmin | Admin | PropertyManager | Supervisor | Technician | Owner | Vendor

  datatype Status = New | Assigned | InProgress | OnHold | Completed | Closed

  datatype ActivityType = Created | Note | StatusChange | Assignment | MediaUpload

  /** The `type` of a media item: `'image' | 'video'`. */
  datatype MediaKind = Image | Video

  /** A work order's `priority`: `'Low' | 'Medium' | 'High'`. */
  datatype Priority = Low | Medium | High

  /** The screens of the application: `'DASHBOARD' | 'WORK_ORDERS' | 'DETAIL' | 'SETTINGS' | 'CREATE_WO'`. */
  datatype View = DashboardView | WorkOrdersView | DetailView | SettingsView | CreateView

  datatype User = User(id: int, name: string, role: Role, avatarUrl: string)

  datatype Property = Property(id: int, name: string, address: string)

  datatype Media = Media(id: int, url: string, kind: MediaKind, uploadedBy: int, timestamp: string)

  /** The optional payload of an activity entry; which parts are present depends on its kind. */
  datatype Details = Details(
    content: Option<string>,
    oldStatus: Option<Status>,
    newStatus: Option<Status>,
    assignedToId: Option<int>,
    mediaUrl: Option<string>)

  /** The timestamp is an ISO-8601 string taken from the clock; the model treats it as opaque. */
  datatype Activity = Activity(id: int, userId: int, kind: ActivityType, timestamp: string, details: Details)

  datatype Tenant = Tenant(name: string, phone: string, email: string)

  datatype WorkOrder = WorkOrder(
    id: int,
    title: string,
    description: string,
    status: Status,
    priority: Priority,
    propertyId: int,
    unitNumber: Option<string>,
    tenant: Option<Tenant>,
    assignedToId: Option<int>,
    vendorId: Option<int>,
    media: seq<Media>,
    tags: Option<seq<string>>,
    activity: seq<Activity>)

  const NoDetails: Details := Details(None, None, None, None, None)

  function NoteDetails(content: string): Details
  {
    NoDetails.(content := Some(content))
  }

  function StatusDetails(oldStatus: Status, newStatus: Status): Details
  {
    NoDetails.(oldStatus := Some(oldStatus), newStatus := Some(newStatus))
  }

  function AssignmentDetails(assignedToId: int): Details
  {
    NoDetails.(assignedToId := Some(assignedToId))
  }

  function MediaDetails(mediaUrl: string): Details
  {
    NoDetails.(mediaUrl := Some(mediaUrl))
  }

  /** At most one of `assignedToId` and `vendorId` is set. */
  predicate ExclusiveAssignee(wo: WorkOrder)
  {
    !(wo.assignedToId.Some? && wo.vendorId.Some?)
  }

  /** Both assignee fields are independent optionals: the record type itself admits an
      order that names both a staff assignee and a vendor. */
  lemma TypeAdmitsBothAssignees(wo: WorkOrder)
    ensures !ExclusiveAssignee(wo.(assignedToId := Some(5), vendorId := Some(7)))
  {
  }

  const AllRoles: seq<Role> := [MasterAdmin, Admin, PropertyManager, Supervisor, Technician, Owner, Vendor]
  const AllStatuses: seq<Status> := [New, Assigned, InProgress, OnHold, Completed, Closed]
  const AllActivityTypes: seq<ActivityType> := [Created, Note, StatusChange, Assignment, MediaUpload]
  const AllViews: seq<View> := [DashboardView, WorkOrdersView, DetailView, SettingsView, CreateView]

  /** No value occurs twice in `s`. */
  predicate Distinct<T(==)>(s: seq<T>)
  {
    forall i, j :: 0 <= i < j < |s| ==> s[i] != s[j]
  }

  /** Status is a closed set of six distinct values. */
  lemma StatusIsClosed()
    ensures |AllStatuses| == 6 && Distinct(AllStatuses)
    ensures forall s: Status :: s in AllStatuses
  {
    forall s: Status
      ensures s in AllStatuses
    {
      match s
      case New => assert AllStatuses[0] == s;
      case Assigned => assert AllStatuses[1] == s;
      case InProgress => assert AllStatuses[2] == s;
      case OnHold => assert AllStatuses[3] == s;
      case Completed => assert AllStatuses[4] == s;
      case Closed => assert AllStatuses[5] == s;
    }
  }

  /** Role is a closed set of seven distinct values. */
  lemma RoleIsClosed()
    ensures |AllRoles| == 7 && Distinct(AllRoles)
    ensures forall r: Role :: r in AllRoles
  {
    forall r: Role
      ensures r in AllRoles
    {
      match r
      case MasterAdmin => assert AllRoles[0] == r;
      case Admin => assert AllRoles[1] == r;
      case PropertyManager => assert AllRoles[2] == r;
      case Supervisor => assert AllRoles[3] == r;
      case Technician => assert AllRoles[4] == r;
      case Owner => assert AllRoles[5] == r;
      case Vendor => assert AllRoles[6] == r;
    }
  }

  /** ActivityType is a closed set of five distinct values. */
  lemma ActivityTypeIsClosed()
    ensures |AllActivityTypes| == 5 && Distinct(AllActivityTypes)
    ensures forall t: ActivityType :: t in AllActivityTypes
  {
    forall t: ActivityType
      ensures t in AllActivityTypes
    {
      match t
      case Created => assert AllActivityTypes[0] == t;
      case Note => assert AllActivityTypes[1] == t;
      case StatusChange => assert AllActivityTypes[2] == t;
      case Assignment => assert AllActivityTypes[3] == t;
      case MediaUpload => assert AllActivityTypes[4] == t;
    }
  }

  /** View is a closed set of five distinct screens. */
  lemma ViewIsClosed()
    ensures |AllViews| == 5 && Distinct(AllViews)
    ensures forall v: View :: v in AllViews
  {
    forall v: View
      ensures v in AllViews
    {
      match v
      case DashboardView => assert AllViews[0] == v;
      case WorkOrdersView => assert AllViews[1] == v;
      case DetailView => assert AllViews[2] == v;
      case SettingsView => assert AllViews[3] == v;
      case CreateView => assert AllViews[4] == v;
    }
  }
}
