/** The administrative site: which users and projects a principal is shown,
    which roles it may give a user, and its per-object and per-module
    permission checks. */
module Admin {
  import opened Wrappers
  import opened Models

  /** The principal is authenticated with one of the three managing roles. */
  predicate IsManager(p: Principal)
  {
    p.Some? && (IsSuperAdmin(p.value) || IsAdmin(p.value) || IsSuperUser(p.value))
  }

  // ---------------------------------------------------------------------
  // CustomUserAdmin
  // ---------------------------------------------------------------------

  /** The users listed to a principal. */
  function UserQueryset(p: Principal, users: set<CustomUser>): (r: set<CustomUser>)
    ensures r <= users
    ensures p.None? ==> r == {}
    ensures p.Some? && IsSuperAdmin(p.value) ==> r == users
    ensures p.Some? && IsAdmin(p.value) ==>
      forall u :: u in users ==> (u in r <==> IsSuperUser(u) || IsStandardUser(u))
    ensures p.Some? && IsSuperUser(p.value) ==>
      forall u :: u in users ==> (u in r <==> IsStandardUser(u))
    ensures !IsManager(p) ==> r == {}
  {
    if p.None? then {}
    else if IsSuperAdmin(p.value) then users
    else if IsAdmin(p.value) then set u | u in users && u.role in [SUPER_USER, USER]
    else if IsSuperUser(p.value) then set u | u in users && u.role == USER
    else {}
  }

  /** The choices of the `role` field after `get_form` has restricted them,
      given the choices the form came with. */
  function RoleChoices(p: Principal, current: seq<Choice>): (r: seq<Choice>)
    ensures !IsManager(p) ==> r == current
    ensures p.Some? && IsSuperAdmin(p.value) ==> Values(r) == [SUPER_ADMIN, ADMIN, SUPER_USER, USER]
    ensures p.Some? && IsAdmin(p.value) ==> Values(r) == [SUPER_USER, USER]
    ensures p.Some? && IsSuperUser(p.value) ==> Values(r) == [USER]
    ensures IsManager(p) ==> forall c :: c in r ==> c in CHOICES
  {
    if p.None? then current
    else if IsSuperAdmin(p.value) then CHOICES
    else if IsAdmin(p.value) then [(SUPER_USER, "Super User"), (USER, "User")]
    else if IsSuperUser(p.value) then [(USER, "User")]
    else current
  }

  /** The `role` field of the user form, whose choices `get_form` assigns. */
  class RoleField {
    var choices: seq<Choice>

    constructor (choices: seq<Choice>)
      ensures this.choices == choices
    {
      this.choices := choices;
    }
  }

  /** `get_form`: restricts the role choices of the form to the roles the
      principal may give. */
  method GetForm(p: Principal, field: RoleField)
    modifies field
    ensures field.choices == RoleChoices(p, old(field.choices))
  {
    if p.None? {
      return;
    }
    var user := p.value;
    if IsSuperAdmin(user) {
      field.choices := CHOICES;
    } else if IsAdmin(user) {
      field.choices := [(SUPER_USER, "Super User"), (USER, "User")];
    } else if IsSuperUser(user) {
      field.choices := [(USER, "User")];
    }
  }

  /** The target users an actor may never change: admins may not change
      super admins or admins, super users may not change anyone above a
      standard user. */
  predicate Vetoed(actor: CustomUser, target: CustomUser)
  {
    || (IsAdmin(actor) && target.role in {SUPER_ADMIN, ADMIN})
    || (IsSuperUser(actor) && target.role in {SUPER_ADMIN, ADMIN, SUPER_USER})
  }

  /** Whether the principal may change the given user (or users in general
      when no object is given); `base` is the model permission the
      framework grants. */
  function UserChangePermission(p: Principal, obj: Option<CustomUser>, base: bool): (r: bool)
    ensures p.None? ==> !r
    ensures p.Some? && obj.None? ==> r
    ensures p.Some? && obj.Some? && IsAdmin(p.value) && obj.value.role in {SUPER_ADMIN, ADMIN} ==> !r
    ensures p.Some? && obj.Some? && IsSuperUser(p.value) && obj.value.role in {SUPER_ADMIN, ADMIN, SUPER_USER} ==> !r
    ensures p.Some? && obj.Some? && !Vetoed(p.value, obj.value) ==> r == base
  {
    if p.None? then false
    else if obj.None? then true
    else if IsAdmin(p.value) && IsSuperAdmin(obj.value) then false
    else if IsAdmin(p.value) && IsAdmin(obj.value) then false
    else if IsSuperUser(p.value) && obj.value.role in [SUPER_ADMIN, ADMIN, SUPER_USER] then false
    else base
  }

  /** Deleting a user is allowed exactly when changing it is. */
  function UserDeletePermission(p: Principal, obj: Option<CustomUser>, base: bool): (r: bool)
    ensures r == UserChangePermission(p, obj, base)
  {
    UserChangePermission(p, obj, base)
  }

  /** Adding users is for authenticated super admins, admins and super users. */
  function UserAddPermission(p: Principal): (r: bool)
    ensures r <==> p.Some? && p.value.role in {SUPER_ADMIN, ADMIN, SUPER_USER}
  {
    p.Some? && (IsSuperAdmin(p.value) || IsAdmin(p.value) || IsSuperUser(p.value))
  }

  /** Any authenticated principal may view users. */
  function UserViewPermission(p: Principal, obj: Option<CustomUser>): (r: bool)
    ensures r <==> p.Some?
  {
    p.Some?
  }

  // ---------------------------------------------------------------------
  // ProjectAdmin
  // ---------------------------------------------------------------------

  /** The projects listed to a principal. */
  function ProjectQueryset(p: Principal, projects: set<Project>): (r: set<Project>)
    ensures r <= projects
    ensures p.Some? && IsSuperAdmin(p.value) ==> r == projects
    ensures p.Some? && IsAdmin(p.value) ==> forall x :: x in projects ==>
      (x in r <==> x.createdBy == p.value.id || x.assignedTo == Some(p.value.id))
    ensures p.Some? && IsSuperUser(p.value) ==> forall x :: x in projects ==>
      (x in r <==> x.assignedTo == Some(p.value.id))
    ensures !IsManager(p) ==> r == {}
  {
    if p.None? then {}
    else if IsSuperAdmin(p.value) then projects
    else if IsAdmin(p.value) then
      (set x | x in projects && x.createdBy == p.value.id) +
      (set x | x in projects && x.assignedTo == Some(p.value.id))
    else if IsSuperUser(p.value) then set x | x in projects && x.assignedTo == Some(p.value.id)
    else {}
  }

  /** The module gate shared by the Project, Task and Report admins: open
      to authenticated super admins, admins and super users. */
  function ModulePermission(p: Principal): (r: bool)
    ensures r <==> p.Some? && p.value.role in {SUPER_ADMIN, ADMIN, SUPER_USER}
    ensures p.Some? && IsStandardUser(p.value) ==> !r
  {
    p.Some? && (IsSuperAdmin(p.value) || IsAdmin(p.value) || IsSuperUser(p.value))
  }

  /** Viewing a Project, Task or Report, with or without an object, is
      allowed exactly when the module is. */
  function ViewPermission(p: Principal): (r: bool)
    ensures r == ModulePermission(p)
  {
    ModulePermission(p)
  }

  /** Whether the principal may change the given project (or projects in
      general when no object is given). */
  function ProjectChangePermission(p: Principal, obj: Option<Project>): (r: bool)
    ensures p.None? ==> !r
    ensures p.Some? && IsSuperAdmin(p.value) ==> r
    ensures p.Some? && IsAdmin(p.value) ==> (r <==> obj.Some? && obj.value.createdBy == p.value.id)
    ensures p.Some? && IsSuperUser(p.value) ==> (r <==> obj.Some? && obj.value.assignedTo == Some(p.value.id))
    ensures !IsManager(p) ==> !r
    ensures obj.None? ==> (r <==> p.Some? && IsSuperAdmin(p.value))
  {
    if p.None? then false
    else if IsSuperAdmin(p.value) then true
    else if IsAdmin(p.value) && obj.Some? && obj.value.createdBy == p.value.id then true
    else if IsSuperUser(p.value) && obj.Some? && obj.value.assignedTo == Some(p.value.id) then true
    else false
  }

  /** Whether the principal may delete the given project: only a super
      admin, or an admin that created it. */
  function ProjectDeletePermission(p: Principal, obj: Option<Project>): (r: bool)
    ensures p.None? ==> !r
    ensures p.Some? && IsSuperAdmin(p.value) ==> r
    ensures p.Some? && IsAdmin(p.value) ==> (r <==> obj.Some? && obj.value.createdBy == p.value.id)
    ensures p.Some? && !IsSuperAdmin(p.value) && !IsAdmin(p.value) ==> !r
  {
    if p.None? then false
    else if IsSuperAdmin(p.value) then true
    else if IsAdmin(p.value) && obj.Some? && obj.value.createdBy == p.value.id then true
    else false
  }

  // ---------------------------------------------------------------------
  // TaskAdmin and ReportAdmin
  // ---------------------------------------------------------------------

  /** Changing any Task is allowed exactly when the Task module is open. */
  function TaskChangePermission(p: Principal, obj: Option<Task>): (r: bool)
    ensures r == ModulePermission(p)
  {
    ModulePermission(p)
  }

  /** Changing any Report is allowed exactly when the Report module is open. */
  function ReportChangePermission(p: Principal, obj: Option<Report>): (r: bool)
    ensures r == ModulePermission(p)
  {
    ModulePermission(p)
  }

  // ---------------------------------------------------------------------
  // Properties relating the checks
  // ---------------------------------------------------------------------

  /** An anonymous principal is shown nothing and allowed nothing. */
  lemma AnonymousIsDeniedEverything(users: set<CustomUser>, projects: set<Project>,
                                    u: Option<CustomUser>, x: Option<Project>, t: Option<Task>,
                                    rep: Option<Report>, base: bool)
    ensures UserQueryset(None, users) == {} && ProjectQueryset(None, projects) == {}
    ensures !UserChangePermission(None, u, base) && !UserDeletePermission(None, u, base)
    ensures !UserAddPermission(None) && !UserViewPermission(None, u)
    ensures !ModulePermission(None) && !ViewPermission(None)
    ensures !ProjectChangePermission(None, x) && !ProjectDeletePermission(None, x)
    ensures !TaskChangePermission(None, t) && !ReportChangePermission(None, rep)
  {
  }

  /** Adding users and opening the Project, Task and Report modules are the
      same gate. */
  lemma AddPermissionIsModuleGate(p: Principal)
    ensures UserAddPermission(p) == ModulePermission(p)
  {
  }

  /** For an admin or a super user, the users it may change (when the
      framework grants the model permission) are exactly the users it is
      listed, and their roles are exactly the roles it is offered. */
  lemma UserManagementAgrees(actor: CustomUser, target: CustomUser, users: set<CustomUser>, current: seq<Choice>)
    requires IsAdmin(actor) || IsSuperUser(actor)
    requires target in users && IsRole(target.role)
    ensures UserChangePermission(Some(actor), Some(target), true) <==> target in UserQueryset(Some(actor), users)
    ensures target in UserQueryset(Some(actor), users) <==> target.role in Values(RoleChoices(Some(actor), current))
  {
    RoleChoicesAreTheFourRoles();
    var vs := Values(RoleChoices(Some(actor), current));
    if IsAdmin(actor) {
      assert vs == [SUPER_USER, USER];
    } else {
      assert vs == [USER];
    }
  }

  /** A super admin is listed every user, offered every role and vetoed on
      no user. */
  lemma SuperAdminManagesEveryone(actor: CustomUser, target: CustomUser, users: set<CustomUser>,
                                  current: seq<Choice>, base: bool)
    requires IsSuperAdmin(actor) && target in users && IsRole(target.role)
    ensures target in UserQueryset(Some(actor), users)
    ensures target.role in Values(RoleChoices(Some(actor), current))
    ensures UserChangePermission(Some(actor), Some(target), base) == base
  {
    RoleChoicesAreTheFourRoles();
  }

  /** Whoever may delete a project may change it. */
  lemma ProjectDeleteImpliesChange(p: Principal, obj: Option<Project>)
    ensures ProjectDeletePermission(p, obj) ==> ProjectChangePermission(p, obj)
  {
  }

  /** A project a principal may change is one it is listed. */
  lemma ProjectChangeImpliesListed(p: Principal, x: Project, projects: set<Project>)
    requires x in projects
    ensures ProjectChangePermission(p, Some(x)) ==> x in ProjectQueryset(p, projects)
  {
  }
}
