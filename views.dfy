/** The REST API: every endpoint requires an authenticated user, each list
    is scoped to the requester by role, and creating a Project or a Task
    records the requester as its creator or assigner. */
module Views {
  import opened Wrappers
  import opened Models
  import Admin
  import Serializers

  datatype ApiError =
    | NotAuthenticated          // refused by the IsAuthenticated permission
    | Invalid(message: string)  // refused by the serializer's validation

  /** CustomUserViewSet: every authenticated user is listed every user. */
  function UserList(p: Principal, users: set<CustomUser>): (r: Result<set<CustomUser>, ApiError>)
    ensures r.Failure? <==> p.None?
    ensures r.Failure? ==> r.error == NotAuthenticated
    ensures r.Success? ==> r.value == users
  {
    if p.None? then Failure(NotAuthenticated) else Success(users)
  }

  /** ProjectViewSet.get_queryset. */
  function ProjectList(p: Principal, projects: set<Project>): (r: Result<set<Project>, ApiError>)
    ensures r.Failure? <==> p.None?
    ensures r.Failure? ==> r.error == NotAuthenticated
    ensures r.Success? ==> r.value <= projects
    ensures r.Success? && IsSuperAdmin(p.value) ==> r.value == projects
    ensures r.Success? && IsAdmin(p.value) ==> forall x :: x in projects ==>
      (x in r.value <==> x.createdBy == p.value.id || x.assignedTo == Some(p.value.id))
    ensures r.Success? && !IsSuperAdmin(p.value) && !IsAdmin(p.value) ==> forall x :: x in projects ==>
      (x in r.value <==> x.assignedTo == Some(p.value.id))
  {
    if p.None? then Failure(NotAuthenticated)
    else
      var user := p.value;
      if IsSuperAdmin(user) then Success(projects)
      else if IsAdmin(user) then
        Success((set x | x in projects && x.createdBy == user.id) +
                (set x | x in projects && x.assignedTo == Some(user.id)))
      else Success(set x | x in projects && x.assignedTo == Some(user.id))
  }

  /** TaskViewSet.get_queryset. */
  function TaskList(p: Principal, tasks: set<Task>): (r: Result<set<Task>, ApiError>)
    ensures r.Failure? <==> p.None?
    ensures r.Failure? ==> r.error == NotAuthenticated
    ensures r.Success? ==> r.value <= tasks
    ensures r.Success? && IsSuperAdmin(p.value) ==> r.value == tasks
    ensures r.Success? && (IsAdmin(p.value) || IsSuperUser(p.value)) ==> forall t :: t in tasks ==>
      (t in r.value <==> t.assignedBy == p.value.id || t.assignedTo == Some(p.value.id))
    ensures r.Success? && !Admin.IsManager(p) ==> forall t :: t in tasks ==>
      (t in r.value <==> t.assignedTo == Some(p.value.id))
  {
    if p.None? then Failure(NotAuthenticated)
    else
      var user := p.value;
      if IsSuperAdmin(user) then Success(tasks)
      else if IsAdmin(user) || IsSuperUser(user) then
        Success((set t | t in tasks && t.assignedBy == user.id) +
                (set t | t in tasks && t.assignedTo == Some(user.id)))
      else Success(set t | t in tasks && t.assignedTo == Some(user.id))
  }

  /** ReportViewSet.get_queryset. */
  function ReportList(p: Principal, reports: set<Report>): (r: Result<set<Report>, ApiError>)
    ensures r.Failure? <==> p.None?
    ensures r.Failure? ==> r.error == NotAuthenticated
    ensures r.Success? ==> r.value <= reports
    ensures r.Success? && IsSuperAdmin(p.value) ==> r.value == reports
    ensures r.Success? && !IsSuperAdmin(p.value) ==> forall x :: x in reports ==>
      (x in r.value <==> x.user == p.value.id)
  {
    if p.None? then Failure(NotAuthenticated)
    else if IsSuperAdmin(p.value) then Success(reports)
    else Success(set x | x in reports && x.user == p.value.id)
  }

  /** ProjectViewSet.perform_create: the new project is saved with the
      requester as its creator. */
  function CreateProject(p: Principal, id: ProjectId, d: ProjectDraft): (r: Result<Project, ApiError>)
    ensures r.Failure? <==> p.None?
    ensures r.Success? ==> r.value.createdBy == p.value.id && r.value.id == id
    ensures r.Success? ==> r.value.assignedTo == IdOf(d.assignedTo)
    ensures r.Failure? ==> r.error == NotAuthenticated
    ensures r.Success? ==> r.value == NewProject(id, p.value, d)
    ensures r.Success? && d.status.None? ==> r.value.status == PENDING
    ensures r.Success? && d.status.Some? ==> r.value.status == d.status.value
  {
    if p.None? then Failure(NotAuthenticated) else Success(NewProject(id, p.value, d))
  }

  /** TaskViewSet: the serializer validates the data against the requester,
      then perform_create saves the task with the requester as its
      assigner. The project is taken from the draft. */
  function CreateTask(p: Principal, id: TaskId, d: TaskDraft): (r: Result<Task, ApiError>)
    ensures p.None? ==> r == Failure(NotAuthenticated)
    ensures p.Some? ==> (r.Success? <==> Serializers.Validate(p.value, d).Success?)
    ensures p.Some? && r.Failure? ==> r.error == Invalid(Serializers.Validate(p.value, d).error)
    ensures r.Success? ==> r.value.assignedBy == p.value.id && r.value.id == id
    ensures r.Success? ==> r.value.assignedTo == IdOf(d.assignedTo) && r.value.project == d.project
    ensures r.Success? ==> r.value == NewTask(id, p.value, d)
    ensures r.Success? && d.status.None? ==> r.value.status == PENDING
    ensures r.Success? && d.status.Some? ==> r.value.status == d.status.value
  {
    if p.None? then Failure(NotAuthenticated)
    else
      match Serializers.Validate(p.value, d)
      case Failure(message) => Failure(Invalid(message))
      case Success(data) => Success(NewTask(id, p.value, data))
  }

  // ---------------------------------------------------------------------
  // Properties of the API surface
  // ---------------------------------------------------------------------

  /** Whatever its role, an authenticated user is listed every project and
      every task assigned to it. */
  lemma AssignedWorkIsListed(u: CustomUser, projects: set<Project>, tasks: set<Task>)
    ensures forall x :: x in projects && x.assignedTo == Some(u.id) ==> x in ProjectList(Some(u), projects).value
    ensures forall t :: t in tasks && t.assignedTo == Some(u.id) ==> t in TaskList(Some(u), tasks).value
  {
  }

  /** A super user or standard user that creates a project through the API
      is listed it only when it also assigned the project to itself. */
  lemma CreatorSeesOwnProjectOnlyIfAssigned(u: CustomUser, id: ProjectId, d: ProjectDraft, projects: set<Project>)
    requires IsSuperUser(u) || IsStandardUser(u)
    ensures CreateProject(Some(u), id, d).Success?
    ensures var x := CreateProject(Some(u), id, d).value;
      x in ProjectList(Some(u), projects + {x}).value <==> IdOf(d.assignedTo) == Some(u.id)
  {
  }

  /** A standard user that creates a task through the API is listed it only
      when it also assigned the task to itself; an admin or super user
      always is. */
  lemma CreatorSeesOwnTask(u: CustomUser, id: TaskId, d: TaskDraft, tasks: set<Task>)
    requires CreateTask(Some(u), id, d).Success?
    ensures var t := CreateTask(Some(u), id, d).value;
      IsStandardUser(u) ==> (t in TaskList(Some(u), tasks + {t}).value <==> IdOf(d.assignedTo) == Some(u.id))
    ensures var t := CreateTask(Some(u), id, d).value;
      Admin.IsManager(Some(u)) ==> t in TaskList(Some(u), tasks + {t}).value
  {
  }

  /** The two surfaces disagree for a standard user: the administrative
      project list is empty, while the API lists the projects assigned to
      it. For an admin or a super user they agree. */
  lemma SurfacesDisagreeOnStandardUser(u: CustomUser, projects: set<Project>)
    ensures IsStandardUser(u) ==> Admin.ProjectQueryset(Some(u), projects) == {}
    ensures IsStandardUser(u) ==>
      ProjectList(Some(u), projects).value == set x | x in projects && x.assignedTo == Some(u.id)
    ensures Admin.IsManager(Some(u)) ==> Admin.ProjectQueryset(Some(u), projects) == ProjectList(Some(u), projects).value
  {
  }

  /** A task an admin or super user creates through the API never goes to a
      super admin. */
  lemma CreatedTaskRespectsAssignmentRule(u: CustomUser, id: TaskId, d: TaskDraft)
    requires IsAdmin(u) || IsSuperUser(u)
    requires CreateTask(Some(u), id, d).Success? && d.assignedTo.Some?
    ensures !IsSuperAdmin(d.assignedTo.value)
    ensures IsSuperUser(u) ==> IsStandardUser(d.assignedTo.value)
  {
  }
}
