# Role-based access control of the Urbanization task backend

This project models, in Dafny, the authorization layer of a Django task-management backend. Users hold one of four roles: super admin, admin, super user or user. They create Projects, assign Tasks within them and write Reports against Tasks. Who may see, add, change or delete which records is decided in four places, and each becomes one module here:

- `Models` (`models.py`): the role constants, the `CHOICES` list and the four role properties of `CustomUser`. It also covers `create_user` and the `setdefault` steps of `create_superuser`, the Project/Task/Report records and their default statuses.
- `OnDelete` (`models.py`): what the `on_delete` rules (CASCADE and SET_NULL) do when a user, a project or a task is deleted, as pure functions over a database value.
- `Store` (`models.py`): a `Database` class whose methods update its four tables in place and keep referential integrity. User creation (the manager's `create_user` and `create_superuser`) adds rows, and deletions apply the `OnDelete` functions.
- `Admin` (`admin.py`): the administrative site. It covers the per-role user and project lists and the role choices `get_form` offers (a `RoleField` class whose `choices` the `GetForm` method reassigns). It also covers the user change/delete/add/view checks, the project change/delete checks, and the module gate shared by the Project, Task and Report admins.
- `Views` (`views.py`): the REST API. Every endpoint requires authentication. The per-role list filters differ from the administrative ones. `perform_create` stamps the requester as creator or assigner.
- `Serializers` (`serializers.py`): the task serializer's assignment-role rule.

Modelling choices:
- Roles are the strings the `role` CharField stores. A role outside `CHOICES` is representable, and every decision function treats it as the source's if/elif chains do: it falls through to the last branch.
- A principal is `Option<CustomUser>`, where `None` is the anonymous user.
- Foreign keys are user, project and task ids, because Django compares model instances by primary key.
- Django's own model-permission check (`super().has_change_permission`) is the boolean parameter `base`.
- The database's choice of a new primary key is a parameter.

## Model

| member | source | states |
|---|---|---|
| `Models.Values` | urbanization/app/models.py:11-16 | the stored values of a choices list, one per entry, in order |
| `Models.RoleChoicesAreTheFourRoles` | urbanization/app/models.py:5-16 | the four role constants are pairwise distinct; `CHOICES` lists exactly them in the order super admin, admin, super user, user; a role is declared iff it is one of the four |
| `Models.ExactlyOneRoleProperty` | urbanization/app/models.py:52-66 | a user's role is a declared choice iff exactly one of `is_super_admin`, `is_admin`, `is_super_user`, `is_standard_user` holds; for any other role none holds |
| `Models.CreateUserRecord` | urbanization/app/models.py:21-28 | an empty email fails with "The Email field must be set", and only an empty email fails; otherwise a value the caller gives is kept and each missing one takes its declared default (role USER, active, not staff, not superuser) |
| `Models.SuperuserKwargs` | urbanization/app/models.py:30-33 | afterwards role, staff and superuser are all set; each caller-supplied value is kept, and each missing one becomes SUPER_ADMIN, true, true; the active flag is untouched |
| `Models.NewProject` | urbanization/app/models.py:77-83 | a saved project has the given creator and assignee; without a given status it is 'pending' |
| `Models.NewTask` | urbanization/app/models.py:100-107 | a saved task has the given assigner, assignee and project; without a given status it is 'pending' |
| `Models.NewReport` | urbanization/app/models.py:123-127 | a saved report has the given author and task; without a given status it is 'not_reviewed' |
| `Models.DefaultStatusesAreDeclared` | urbanization/app/models.py:71-81 | 'pending' is a declared Project/Task status and 'not_reviewed' a declared Report status (models.py:118-127) |
| `OnDelete.Unassign` | urbanization/app/models.py:80 | SET_NULL: a reference to the deleted user becomes null; any other reference is kept |
| `OnDelete.DropTasks` | urbanization/app/models.py:123 | deleting a set of tasks removes exactly those tasks and the reports of those tasks; users and projects are untouched |
| `OnDelete.AfterTaskDeleted` | urbanization/app/models.py:123 | after deleting a task, it and all its reports are gone; users, projects, every other task and every report of another task survive unchanged, and no row is added |
| `OnDelete.AfterProjectDeleted` | urbanization/app/models.py:102 | after deleting a project, it, all its tasks and their reports are gone; users, other projects, tasks of other projects and the reports of surviving tasks survive unchanged, and no row is added |
| `OnDelete.AfterUserDeleted` | urbanization/app/models.py:79-124 | deleting a user removes the projects it created, the tasks it assigned and the reports it wrote, with what cascades from those; projects and tasks merely assigned to it survive with `assigned_to` cleared; all else survives unchanged |
| `OnDelete.UserDeletionLeavesNoReference` | urbanization/app/models.py:79-124 | deleting a user from a consistent database leaves it consistent, and no project, task or report refers to that user any more |
| `OnDelete.CascadesKeepConsistency` | urbanization/app/models.py:102-123 | deleting a project or a task keeps a consistent database consistent (no dangling foreign key) |
| `Store.Database.CreateUser` | urbanization/app/models.py:21-28 | the result is `CreateUserRecord`'s; on success exactly that user is added to the table, on failure nothing changes; referential integrity is kept |
| `Store.Database.CreateSuperuser` | urbanization/app/models.py:30-34 | the result is `CreateUserRecord` of the keyword arguments after the superuser defaults: fails with "The Email field must be set" iff the email is empty, with nothing changed; on success the new user has the given key and email, the caller's role, staff and superuser values or else SUPER_ADMIN, true, true, and is the only row added |
| `Store.Database.DeleteUser` | urbanization/app/models.py:79-124 | the tables become `AfterUserDeleted` of the old tables; referential integrity is kept |
| `Store.Database.DeleteProject` | urbanization/app/models.py:102 | the tables become `AfterProjectDeleted` of the old tables; referential integrity is kept |
| `Store.Database.DeleteTask` | urbanization/app/models.py:123 | the tables become `AfterTaskDeleted` of the old tables; referential integrity is kept |
| `Admin.UserQueryset` | urbanization/app/admin.py:23-36 | the list is a subset of all users: everyone for a super admin, exactly the super-user and user records for an admin, exactly the user records for a super user, nothing for a standard user, any other role or an anonymous principal |
| `Admin.RoleChoices` | urbanization/app/admin.py:38-56 | a super admin is offered all four roles, an admin exactly super user and user, a super user exactly user, every entry taken from `CHOICES`; for a standard user, another role or an anonymous principal the choices are left as they were |
| `Admin.GetForm` | urbanization/app/admin.py:38-56 | the role field's choices become `RoleChoices` of the principal and the field's previous choices |
| `Admin.UserChangePermission` | urbanization/app/admin.py:58-72 | anonymous: denied; no target: allowed; an admin is denied on super admins and admins; a super user is denied on super admins, admins and super users; otherwise the result is the framework's model permission |
| `Admin.UserDeletePermission` | urbanization/app/admin.py:74-75 | equals the change permission for every principal and target |
| `Admin.UserAddPermission` | urbanization/app/admin.py:77-79 | holds iff the principal is authenticated with role super admin, admin or super user |
| `Admin.UserViewPermission` | urbanization/app/admin.py:81-82 | holds iff the principal is authenticated |
| `Admin.ProjectQueryset` | urbanization/app/admin.py:93-106 | the list is a subset of all projects: all for a super admin, those it created or is assigned for an admin, those it is assigned for a super user, none for a standard user or an anonymous principal |
| `Admin.ModulePermission` | urbanization/app/admin.py:108-110 | the Project, Task and Report module gates (also admin.py:150-152 and 169-171) hold iff the principal is authenticated with role super admin, admin or super user; never for a standard user |
| `Admin.ViewPermission` | urbanization/app/admin.py:112-113 | Project, Task and Report view permission (also admin.py:154-155 and 173-174) equals the module gate, whatever the object |
| `Admin.ProjectChangePermission` | urbanization/app/admin.py:115-127 | a super admin is always allowed; an admin iff it created the given project; a super user iff it is the given project's assignee; a standard user, an anonymous principal, or anyone but a super admin with no project is denied |
| `Admin.ProjectDeletePermission` | urbanization/app/admin.py:129-139 | a super admin is always allowed; an admin iff it created the given project; everyone else, a super user included even as assignee, is denied |
| `Admin.TaskChangePermission` | urbanization/app/admin.py:157-158 | changing a task equals the module gate, whatever the task |
| `Admin.ReportChangePermission` | urbanization/app/admin.py:176-177 | changing a report equals the module gate, whatever the report |
| `Admin.AnonymousIsDeniedEverything` | urbanization/app/admin.py:23-139 | for an anonymous principal the user and project lists are empty; user change, delete, add and view are denied; module and view, project change and delete, and task and report change are denied |
| `Admin.AddPermissionIsModuleGate` | urbanization/app/admin.py:77-110 | the user add permission and the module gate are the same predicate |
| `Admin.UserManagementAgrees` | urbanization/app/admin.py:23-72 | for an admin or a super user and a target with a declared role: not vetoed by the change check iff listed by `get_queryset` iff the target's role is among the roles `get_form` offers |
| `Admin.SuperAdminManagesEveryone` | urbanization/app/admin.py:30-72 | a super admin is listed every user, offered every declared role, and its change permission on any user is the framework's model permission |
| `Admin.ProjectDeleteImpliesChange` | urbanization/app/admin.py:115-139 | whoever may delete a project may change it |
| `Admin.ProjectChangeImpliesListed` | urbanization/app/admin.py:93-127 | a project a principal may change is in its administrative project list |
| `Serializers.Validate` | urbanization/app/serializers.py:32-42 | success returns the data unchanged; without an assignee it always succeeds; an admin assigner succeeds iff the assignee's role is super user or user, otherwise fails with "Admins can only assign tasks to Super Users or Users."; a super-user assigner succeeds iff the assignee is a user, otherwise fails with "Super Users can only assign tasks to Users."; super admin and user assigners always succeed |
| `Serializers.AcceptedAssignmentStaysBelow` | urbanization/app/serializers.py:36-40 | an accepted assignment by an admin or super user never goes to a super admin or to an undeclared role, and one by a super user never to an admin or super user |
| `Views.UserList` | urbanization/app/views.py:6-9 | anonymous requests fail with NotAuthenticated; every authenticated user is listed every user |
| `Views.ProjectList` | urbanization/app/views.py:17-26 | anonymous requests fail; otherwise a subset of projects: all for a super admin, those it created or is assigned for an admin, those it is assigned for a super user or a standard user (or any other role) |
| `Views.TaskList` | urbanization/app/views.py:37-46 | anonymous requests fail; otherwise a subset of tasks: all for a super admin, those it assigned or is assigned for an admin or super user, those it is assigned for a standard user |
| `Views.ReportList` | urbanization/app/views.py:57-63 | anonymous requests fail; otherwise all reports for a super admin and exactly its own reports for every other role |
| `Views.CreateProject` | urbanization/app/views.py:28-29 | anonymous requests fail with NotAuthenticated; otherwise the new project is `NewProject` of the draft with the requester as creator: the draft's fields and assignee, the given status or else 'pending' |
| `Views.CreateTask` | urbanization/app/views.py:48-49 | anonymous requests fail; otherwise the model creates the task iff `Validate` accepts the draft for the requester (returning its message when not), as `NewTask` of the draft with the requester as assigner: the draft's fields, project and assignee, the given status or else 'pending' |
| `Views.AssignedWorkIsListed` | urbanization/app/views.py:17-46 | whatever its role, a user's API project and task lists contain everything assigned to it |
| `Views.CreatorSeesOwnProjectOnlyIfAssigned` | urbanization/app/views.py:17-29 | a super user or standard user that creates a project sees it in its API list iff it also assigned it to itself |
| `Views.CreatorSeesOwnTask` | urbanization/app/views.py:37-49 | a standard user that creates a task sees it iff it also assigned it to itself; an admin or super user always sees the tasks it creates |
| `Views.SurfacesDisagreeOnStandardUser` | urbanization/app/views.py:17-26 | for a standard user the administrative project list (admin.py:106) is empty while the API lists exactly its assigned projects; for the three managing roles the two lists agree |
| `Views.CreatedTaskRespectsAssignmentRule` | urbanization/app/views.py:48-49 | a task an admin or super user creates through the API never goes to a super admin, and one a super user creates goes only to a standard user |

## Left out

- Password handling (`set_password`, hashing) and `normalize_email` are library calls and are not modelled. The email is stored as given.
- The `unique=True` constraint on the email is not modelled. A duplicate email would fail in the database when the row is saved.
- The Django ORM is replaced by sets and maps of records: query sets, `|` unions, `.none()`, database ordering, `list_display`/`fieldsets`/`search_fields`.
- File fields, upload paths, `auto_now`/`auto_now_add` timestamps and `__str__` are not modelled. Dates are opaque day numbers, and nothing relates a start date to an end date.
- The nested read-only serializer representations are output shape only.
- The serializers declare `assigned_to` read-only (serializers.py:14, 24), so a draft that arrives through the real API carries no assignee. The model keeps the assignee as an input, so that `Serializers.Validate` captures the rule as written.
- `TaskAdmin` and `ReportAdmin` do not override their delete and add checks, which are Django's group-permission machinery. They are not modelled.
- URL routing (`urls.py`) is not modelled.
- Views.CreateTask: the serializer declares `project` read-only (serializers.py:25), and `perform_create` stamps only `assigned_by`. So a real API create carries no project and fails in the database on the NOT NULL foreign key `Task.project`. The model instead takes the project from the draft and succeeds. Like `Views.CreateProject`, it also assumes the draft has passed the serializer's field validation: a status among the declared choices, non-blank name and description, and dates present. That validation answers 400 before `perform_create` runs and is not modelled.
- Views.CreateProject: assumes the draft has passed the serializer's field validation. The `fields = '__all__'` serializer (serializers.py:18) makes `status` a choice field and the name and description non-blank fields, and refuses anything else with a 400 before `perform_create` runs. The model stores whatever status and text the draft carries.
- `TaskAdmin` and `ReportAdmin` do not override `get_queryset` (admin.py:144-179). So the administrative site lists every task and report to any principal that passes the module gate, unlike the API lists. The model has no separate admin task or report list, because it would be the identity.
- `ProjectAdmin` does not override its add check, which is Django's permission machinery. It is not modelled.
- The API's retrieve, update and destroy actions are scoped only by the `get_queryset` lists modelled here. Their writes are not modelled. In particular, the unfiltered user endpoint (views.py:6-9) serializes `role` as a writable field (serializers.py:8), so it does not enforce the role restrictions of the administrative site.
- `ReportViewSet` has no `perform_create`, so no creation stamping exists for reports to model.
- The principal's `is_active` flag is never consulted by these files, so no decision depends on it.
- `Store.Database.CreateUser` requires a primary key not already in use: the database assigns it, and the model takes it as a parameter.
