/** The in-memory database the manager and the deletions act on: the user
    manager's `create_user` and `create_superuser` add rows, and deleting a
    row applies the `on_delete` rules of every foreign key to it. */
module Store {
  import opened Wrappers
  import opened Models
  import opened OnDelete

  /** The in-memory database: four tables that deletions and user creation
      update in place. */
  class Database {
    var users: map<UserId, CustomUser>
    var projects: map<ProjectId, Project>
    var tasks: map<TaskId, Task>
    var reports: map<ReportId, Report>

    function State(): Db
      reads this
    {
      Db(users, projects, tasks, reports)
    }

    predicate Valid()
      reads this
    {
      Consistent(State())
    }

    constructor (db: Db)
      requires Consistent(db)
      ensures Valid() && State() == db
    {
      users, projects, tasks, reports := db.users, db.projects, db.tasks, db.reports;
    }

    /** `create_user`: validates the email, builds the user and saves it under
        the primary key the database assigns. */
    method CreateUser(id: UserId, email: string, kw: UserKwargs) returns (r: Result<CustomUser, string>)
      requires Valid() && id !in users
      modifies this
      ensures Valid()
      ensures r == CreateUserRecord(id, email, kw)
      ensures r.Failure? ==> State() == old(State())
      ensures r.Success? ==> State() == old(State()).(users := old(users)[id := r.value])
    {
      r := CreateUserRecord(id, email, kw);
      if r.Success? {
        users := users[id := r.value];
      }
    }

    /** `create_superuser`: fills in the superuser defaults, then creates the
        user as `create_user` does. */
    method CreateSuperuser(id: UserId, email: string, kw: UserKwargs) returns (r: Result<CustomUser, string>)
      requires Valid() && id !in users
      modifies this
      ensures Valid()
      ensures r == CreateUserRecord(id, email, UserKwargs(Some(GetOr(kw.role, SUPER_ADMIN)), kw.isActive,
                                                     Some(GetOr(kw.isStaff, true)), Some(GetOr(kw.isSuperuser, true))))
      ensures r.Failure? <==> email == ""
      ensures r.Failure? ==> r.error == EMAIL_REQUIRED && State() == old(State())
      ensures r.Success? ==> State() == old(State()).(users := old(users)[id := r.value])
      ensures r.Success? ==> r.value.id == id && r.value.email == email
      ensures r.Success? ==> r.value.role == GetOr(kw.role, SUPER_ADMIN)
      ensures r.Success? ==> r.value.isStaff == GetOr(kw.isStaff, true)
      ensures r.Success? ==> r.value.isSuperuser == GetOr(kw.isSuperuser, true)
      ensures r.Success? ==> r.value.isActive == GetOr(kw.isActive, true)
    {
      var fields := SuperuserKwargs(kw);
      r := CreateUser(id, email, fields);
    }

    method DeleteUser(uid: UserId)
      requires Valid()
      modifies this
      ensures Valid()
      ensures State() == AfterUserDeleted(old(State()), uid)
    {
      UserDeletionLeavesNoReference(State(), uid);
      var d := AfterUserDeleted(State(), uid);
      users, projects, tasks, reports := d.users, d.projects, d.tasks, d.reports;
    }

    method DeleteProject(pid: ProjectId)
      requires Valid()
      modifies this
      ensures Valid()
      ensures State() == AfterProjectDeleted(old(State()), pid)
    {
      CascadesKeepConsistency(State(), pid, 0);
      var d := AfterProjectDeleted(State(), pid);
      users, projects, tasks, reports := d.users, d.projects, d.tasks, d.reports;
    }

    method DeleteTask(tid: TaskId)
      requires Valid()
      modifies this
      ensures Valid()
      ensures State() == AfterTaskDeleted(old(State()), tid)
    {
      CascadesKeepConsistency(State(), 0, tid);
      var d := AfterTaskDeleted(State(), tid);
      users, projects, tasks, reports := d.users, d.projects, d.tasks, d.reports;
    }
  }
}
