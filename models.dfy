/** The data model of the application: the four user roles, the custom user
    with its role properties and its manager, and the Project, Task and Report
    records with their default statuses. */
module Models {
  import opened Wrappers

  // ---------------------------------------------------------------------
  // UserRoles
  // ---------------------------------------------------------------------

  const SUPER_ADMIN: string := "super_admin"
  const ADMIN: string := "admin"
  const SUPER_USER: string := "super_user"
  const USER: string := "user"

  /** A Django choices entry: the stored value and its human-readable label. */
  type Choice = (string, string)

  /** The choices of the `role` field, in declaration order. */
  const CHOICES: seq<Choice> :=
    [(SUPER_ADMIN, "Super Admin"), (ADMIN, "Admin"), (SUPER_USER, "Super User"), (USER, "User")]

  /** The stored values of a choices list, in order. */
  function Values(choices: seq<Choice>): (vs: seq<string>)
    ensures |vs| == |choices|
    ensures forall i :: 0 <= i < |choices| ==> vs[i] == choices[i].0
  {
    if choices == [] then [] else [choices[0].0] + Values(choices[1..])
  }

  /** A role value that the `role` field declares among its choices. */
  predicate IsRole(role: string)
  {
    role in Values(CHOICES)
  }

  /** The role constants are pairwise distinct and CHOICES lists exactly
      them, in the order super admin, admin, super user, user. */
  lemma RoleChoicesAreTheFourRoles()
    ensures SUPER_ADMIN != ADMIN && SUPER_ADMIN != SUPER_USER && SUPER_ADMIN != USER
    ensures ADMIN != SUPER_USER && ADMIN != USER && SUPER_USER != USER
    ensures Values(CHOICES) == [SUPER_ADMIN, ADMIN, SUPER_USER, USER]
    ensures forall role :: IsRole(role) <==> role in {SUPER_ADMIN, ADMIN, SUPER_USER, USER}
  {
    var vs := Values(CHOICES);
    assert vs == [SUPER_ADMIN, ADMIN, SUPER_USER, USER];
  }

  // ---------------------------------------------------------------------
  // CustomUser
  // ---------------------------------------------------------------------

  type UserId = int

  datatype CustomUser = CustomUser(
    id: UserId,
    email: string,
    role: string,
    isActive: bool,
    isStaff: bool,
    isSuperuser: bool)

  predicate IsSuperAdmin(u: CustomUser) { u.role == SUPER_ADMIN }
  predicate IsAdmin(u: CustomUser) { u.role == ADMIN }
  predicate IsSuperUser(u: CustomUser) { u.role == SUPER_USER }
  predicate IsStandardUser(u: CustomUser) { u.role == USER }

  /** The user a request is made by: `None` is the anonymous user, for whom
      `is_authenticated` is false. */
  type Principal = Option<CustomUser>

  function Count(b: bool): nat { if b then 1 else 0 }

  /** Exactly one of the four role properties holds of a user whose role is a
      declared choice, and none holds of any other user. */
  lemma ExactlyOneRoleProperty(u: CustomUser)
    ensures IsRole(u.role) <==>
      Count(IsSuperAdmin(u)) + Count(IsAdmin(u)) + Count(IsSuperUser(u)) + Count(IsStandardUser(u)) == 1
    ensures !IsRole(u.role) ==>
      !IsSuperAdmin(u) && !IsAdmin(u) && !IsSuperUser(u) && !IsStandardUser(u)
  {
    RoleChoicesAreTheFourRoles();
  }

  // ---------------------------------------------------------------------
  // CustomUserManager
  // ---------------------------------------------------------------------

  const EMAIL_REQUIRED: string := "The Email field must be set"

  /** The keyword arguments a caller may pass to the manager; `None` means
      the keyword was not given. */
  datatype UserKwargs = UserKwargs(
    role: Option<string>,
    isActive: Option<bool>,
    isStaff: Option<bool>,
    isSuperuser: Option<bool>)

  const NO_KWARGS: UserKwargs := UserKwargs(None, None, None, None)

  function GetOr<T>(o: Option<T>, default: T): T
  {
    if o.Some? then o.value else default
  }

  /** The user `create_user` builds: refused when the email is empty,
      otherwise every field not given takes its declared default (role
      USER, active, not staff, not superuser). The primary key is the one
      the database assigns. */
  function CreateUserRecord(id: UserId, email: string, kw: UserKwargs): (r: Result<CustomUser, string>)
    ensures r.Failure? <==> email == ""
    ensures r.Failure? ==> r.error == EMAIL_REQUIRED
    ensures r.Success? ==> r.value.id == id && r.value.email == email
    ensures r.Success? && kw.role.None? ==> IsStandardUser(r.value)
    ensures r.Success? && kw.isActive.None? ==> r.value.isActive
    ensures r.Success? && kw.isStaff.None? ==> !r.value.isStaff
    ensures r.Success? && kw.isSuperuser.None? ==> !r.value.isSuperuser
    ensures r.Success? ==> Some(r.value.role) == kw.role || kw.role.None?
    ensures r.Success? ==> Some(r.value.isActive) == kw.isActive || kw.isActive.None?
    ensures r.Success? ==> Some(r.value.isStaff) == kw.isStaff || kw.isStaff.None?
    ensures r.Success? ==> Some(r.value.isSuperuser) == kw.isSuperuser || kw.isSuperuser.None?
  {
    if email == "" then
      Failure(EMAIL_REQUIRED)
    else
      Success(CustomUser(id, email, GetOr(kw.role, USER), GetOr(kw.isActive, true),
                         GetOr(kw.isStaff, false), GetOr(kw.isSuperuser, false)))
  }

  /** The `setdefault` steps of `create_superuser`: role, staff and
      superuser flags get SUPER_ADMIN, true and true unless the caller gave
      them; a value the caller gave is kept. */
  method SuperuserKwargs(kw: UserKwargs) returns (fields: UserKwargs)
    ensures fields.role.Some? && fields.isStaff.Some? && fields.isSuperuser.Some?
    ensures kw.role.Some? ==> fields.role == kw.role
    ensures kw.role.None? ==> fields.role == Some(SUPER_ADMIN)
    ensures kw.isStaff.Some? ==> fields.isStaff == kw.isStaff
    ensures kw.isStaff.None? ==> fields.isStaff == Some(true)
    ensures kw.isSuperuser.Some? ==> fields.isSuperuser == kw.isSuperuser
    ensures kw.isSuperuser.None? ==> fields.isSuperuser == Some(true)
    ensures fields.isActive == kw.isActive
  {
    fields := kw;
    if fields.role.None? {
      fields := fields.(role := Some(SUPER_ADMIN));
    }
    if fields.isStaff.None? {
      fields := fields.(isStaff := Some(true));
    }
    if fields.isSuperuser.None? {
      fields := fields.(isSuperuser := Some(true));
    }
  }

  // ---------------------------------------------------------------------
  // Project, Task and Report
  // ---------------------------------------------------------------------

  type ProjectId = int
  type TaskId = int
  type ReportId = int
  /** A calendar date, as a day number. */
  type Date = int

  const PENDING: string := "pending"
  const IN_PROGRESS: string := "in_progress"
  const COMPLETED: string := "completed"
  /** The status choices of Project and of Task. */
  const WORK_STATUS_CHOICES: seq<Choice> :=
    [(PENDING, "Pending"), (IN_PROGRESS, "In Progress"), (COMPLETED, "Completed")]

  const REVIEWED: string := "reviewed"
  const NOT_REVIEWED: string := "not_reviewed"
  const REPORT_STATUS_CHOICES: seq<Choice> :=
    [(REVIEWED, "Reviewed"), (NOT_REVIEWED, "Not Reviewed")]

  /** `createdBy` is required (CASCADE); `assignedTo` is nullable (SET_NULL). */
  datatype Project = Project(
    id: ProjectId,
    name: string,
    description: string,
    createdBy: UserId,
    assignedTo: Option<UserId>,
    status: string,
    startDate: Date,
    endDate: Date)

  /** `project` and `assignedBy` are required (CASCADE); `assignedTo` is
      nullable (SET_NULL). */
  datatype Task = Task(
    id: TaskId,
    name: string,
    description: string,
    project: ProjectId,
    assignedBy: UserId,
    assignedTo: Option<UserId>,
    status: string,
    dueDate: Date,
    completionDate: Option<Date>)

  /** `task` and `user` are required (CASCADE). */
  datatype Report = Report(
    id: ReportId,
    task: TaskId,
    user: UserId,
    details: string,
    status: string)

  /** The values a save is given for a new Project, apart from its creator;
      a `None` status means the field was not given. */
  datatype ProjectDraft = ProjectDraft(
    name: string,
    description: string,
    assignedTo: Option<CustomUser>,
    status: Option<string>,
    startDate: Date,
    endDate: Date)

  /** The values a save is given for a new Task, apart from its assigner. */
  datatype TaskDraft = TaskDraft(
    name: string,
    description: string,
    project: ProjectId,
    assignedTo: Option<CustomUser>,
    status: Option<string>,
    dueDate: Date,
    completionDate: Option<Date>)

  /** The values a save is given for a new Report, apart from its author. */
  datatype ReportDraft = ReportDraft(
    task: TaskId,
    details: string,
    status: Option<string>)

  function IdOf(u: Option<CustomUser>): (r: Option<UserId>)
    ensures r.Some? <==> u.Some?
    ensures u.Some? ==> r.value == u.value.id
  {
    if u.Some? then Some(u.value.id) else None
  }

  /** A new Project saved with the given creator: unless a status is given
      it starts as pending. */
  function NewProject(id: ProjectId, creator: CustomUser, d: ProjectDraft): (p: Project)
    ensures p.id == id && p.createdBy == creator.id && p.assignedTo == IdOf(d.assignedTo)
    ensures p.name == d.name && p.description == d.description
    ensures p.startDate == d.startDate && p.endDate == d.endDate
    ensures d.status.None? ==> p.status == PENDING
    ensures d.status.Some? ==> p.status == d.status.value
  {
    Project(id, d.name, d.description, creator.id, IdOf(d.assignedTo),
            GetOr(d.status, PENDING), d.startDate, d.endDate)
  }

  /** A new Task saved with the given assigner: unless a status is given it
      starts as pending. */
  function NewTask(id: TaskId, assigner: CustomUser, d: TaskDraft): (t: Task)
    ensures t.id == id && t.project == d.project
    ensures t.assignedBy == assigner.id && t.assignedTo == IdOf(d.assignedTo)
    ensures t.name == d.name && t.description == d.description
    ensures t.dueDate == d.dueDate && t.completionDate == d.completionDate
    ensures d.status.None? ==> t.status == PENDING
    ensures d.status.Some? ==> t.status == d.status.value
  {
    Task(id, d.name, d.description, d.project, assigner.id, IdOf(d.assignedTo),
         GetOr(d.status, PENDING), d.dueDate, d.completionDate)
  }

  /** A new Report saved with the given author: unless a status is given it
      starts as not reviewed. */
  function NewReport(id: ReportId, author: CustomUser, d: ReportDraft): (r: Report)
    ensures r.id == id && r.task == d.task && r.user == author.id && r.details == d.details
    ensures d.status.None? ==> r.status == NOT_REVIEWED
    ensures d.status.Some? ==> r.status == d.status.value
  {
    Report(id, d.task, author.id, d.details, GetOr(d.status, NOT_REVIEWED))
  }

  /** The default statuses are among the declared status choices. */
  lemma DefaultStatusesAreDeclared()
    ensures PENDING in Values(WORK_STATUS_CHOICES)
    ensures NOT_REVIEWED in Values(REPORT_STATUS_CHOICES)
  {
    assert Values(WORK_STATUS_CHOICES)[0] == PENDING;
    assert Values(REPORT_STATUS_CHOICES)[1] == NOT_REVIEWED;
  }
}
