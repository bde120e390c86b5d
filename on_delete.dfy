/** What deleting a row does to the rows that refer to it, following the
    `on_delete` rule of each foreign key:
      Project.created_by  CASCADE     Project.assigned_to  SET_NULL
      Task.project        CASCADE     Task.assigned_by     CASCADE
      Task.assigned_to    SET_NULL    Report.task          CASCADE
      Report.user         CASCADE
    The tables are maps from primary key to row. */
module OnDelete {
  import opened Wrappers
  import opened Models

  datatype Db = Db(
    users: map<UserId, CustomUser>,
    projects: map<ProjectId, Project>,
    tasks: map<TaskId, Task>,
    reports: map<ReportId, Report>)

  predicate RefersToUser(db: Db, a: Option<UserId>)
  {
    a.None? || a.value in db.users
  }

  /** Every row is stored under its own primary key and every foreign key
      refers to a stored row. */
  predicate Consistent(db: Db)
  {
    && (forall k :: k in db.users ==> db.users[k].id == k)
    && (forall k :: k in db.projects ==>
          db.projects[k].id == k && db.projects[k].createdBy in db.users &&
          RefersToUser(db, db.projects[k].assignedTo))
    && (forall k :: k in db.tasks ==>
          db.tasks[k].id == k && db.tasks[k].project in db.projects &&
          db.tasks[k].assignedBy in db.users && RefersToUser(db, db.tasks[k].assignedTo))
    && (forall k :: k in db.reports ==>
          db.reports[k].id == k && db.reports[k].task in db.tasks && db.reports[k].user in db.users)
  }

  /** SET_NULL: a reference to the deleted user becomes null. */
  function Unassign(a: Option<UserId>, uid: UserId): (r: Option<UserId>)
    ensures r != Some(uid)
    ensures a == Some(uid) ==> r.None?
    ensures a != Some(uid) ==> r == a
  {
    if a == Some(uid) then None else a
  }

  /** Deletes the given tasks and, by CASCADE on Report.task, every report
      of one of them. */
  function DropTasks(db: Db, gone: set<TaskId>): (d: Db)
    ensures d.users == db.users && d.projects == db.projects
    ensures forall k :: k in d.tasks <==> k in db.tasks && k !in gone
    ensures forall k :: k in d.tasks ==> d.tasks[k] == db.tasks[k]
    ensures forall k :: k in d.reports <==> k in db.reports && db.reports[k].task !in gone
    ensures forall k :: k in d.reports ==> d.reports[k] == db.reports[k]
  {
    db.(tasks := map k | k in db.tasks && k !in gone :: db.tasks[k],
        reports := map k | k in db.reports && db.reports[k].task !in gone :: db.reports[k])
  }

  /** Deleting a task deletes its reports and nothing else. */
  function AfterTaskDeleted(db: Db, tid: TaskId): (d: Db)
    ensures d.users == db.users && d.projects == db.projects
    ensures tid !in d.tasks
    ensures forall r :: r in d.reports.Values ==> r.task != tid
    ensures forall k :: k in db.tasks && k != tid ==> k in d.tasks && d.tasks[k] == db.tasks[k]
    ensures forall k :: k in db.reports && db.reports[k].task != tid ==> k in d.reports && d.reports[k] == db.reports[k]
    ensures d.reports.Keys <= db.reports.Keys && d.tasks.Keys <= db.tasks.Keys
    ensures forall k :: k in d.reports ==> d.reports[k] == db.reports[k]
  {
    DropTasks(db, {tid})
  }

  /** Deleting a project deletes its tasks and their reports and nothing
      else. */
  function AfterProjectDeleted(db: Db, pid: ProjectId): (d: Db)
    ensures pid !in d.projects
    ensures forall t :: t in d.tasks.Values ==> t.project != pid
    ensures forall r :: r in d.reports.Values ==> r.task in db.tasks ==> db.tasks[r.task].project != pid
    ensures d.users == db.users
    ensures forall k :: k in db.projects && k != pid ==> k in d.projects && d.projects[k] == db.projects[k]
    ensures forall k :: k in db.tasks && db.tasks[k].project != pid ==> k in d.tasks && d.tasks[k] == db.tasks[k]
    ensures forall k :: k in db.reports && db.reports[k].task in d.tasks ==> k in d.reports && d.reports[k] == db.reports[k]
    ensures d.projects.Keys <= db.projects.Keys && d.tasks.Keys <= db.tasks.Keys && d.reports.Keys <= db.reports.Keys
    ensures forall k :: k in d.tasks ==> d.tasks[k] == db.tasks[k]
    ensures forall k :: k in d.reports ==> d.reports[k] == db.reports[k]
  {
    var gone := set k | k in db.tasks && db.tasks[k].project == pid;
    DropTasks(db.(projects := db.projects - {pid}), gone)
  }

  /** Deleting a user deletes the projects it created, the tasks it assigned
      and the reports it wrote, with everything that cascades from those;
      projects and tasks merely assigned to it survive with `assignedTo`
      cleared. */
  function AfterUserDeleted(db: Db, uid: UserId): (d: Db)
    ensures d.users == db.users - {uid}
    ensures forall k :: k in d.projects <==> k in db.projects && db.projects[k].createdBy != uid
    ensures forall k :: k in d.projects ==>
      d.projects[k] == db.projects[k].(assignedTo := Unassign(db.projects[k].assignedTo, uid))
    ensures forall k :: k in d.tasks <==>
      k in db.tasks && db.tasks[k].assignedBy != uid &&
      !(db.tasks[k].project in db.projects && db.tasks[k].project !in d.projects)
    ensures forall k :: k in d.tasks ==>
      d.tasks[k] == db.tasks[k].(assignedTo := Unassign(db.tasks[k].assignedTo, uid))
    ensures forall k :: k in d.reports <==>
      k in db.reports && db.reports[k].user != uid &&
      !(db.reports[k].task in db.tasks && db.reports[k].task !in d.tasks)
    ensures forall k :: k in d.reports ==> d.reports[k] == db.reports[k]
  {
    var goneProjects := set k | k in db.projects && db.projects[k].createdBy == uid;
    var goneTasks := set k | k in db.tasks && (db.tasks[k].assignedBy == uid || db.tasks[k].project in goneProjects);
    var projects := map k | k in db.projects && k !in goneProjects ::
      db.projects[k].(assignedTo := Unassign(db.projects[k].assignedTo, uid));
    var tasks := map k | k in db.tasks && k !in goneTasks ::
      db.tasks[k].(assignedTo := Unassign(db.tasks[k].assignedTo, uid));
    var reports := map k | k in db.reports && db.reports[k].user != uid && db.reports[k].task !in goneTasks ::
      db.reports[k];
    Db(db.users - {uid}, projects, tasks, reports)
  }

  /** After a user is deleted from a consistent database, no row refers to it
      and the database is still consistent. */
  lemma UserDeletionLeavesNoReference(db: Db, uid: UserId)
    requires Consistent(db)
    ensures Consistent(AfterUserDeleted(db, uid))
    ensures forall p :: p in AfterUserDeleted(db, uid).projects.Values ==>
      p.createdBy != uid && p.assignedTo != Some(uid)
    ensures forall t :: t in AfterUserDeleted(db, uid).tasks.Values ==>
      t.assignedBy != uid && t.assignedTo != Some(uid)
    ensures forall r :: r in AfterUserDeleted(db, uid).reports.Values ==> r.user != uid
  {
  }

  /** Deleting a project or a task keeps a consistent database consistent. */
  lemma CascadesKeepConsistency(db: Db, pid: ProjectId, tid: TaskId)
    requires Consistent(db)
    ensures Consistent(AfterProjectDeleted(db, pid))
    ensures Consistent(AfterTaskDeleted(db, tid))
  {
  }
}
