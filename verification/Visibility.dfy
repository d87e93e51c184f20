/** The visibility rule of assignments, written three times in the service, and the notified audience. */
module Visibility {
  import opened Common
  import opened Roles
  import opened Schedule
  import opened Tables
  import opened Classrooms
  import opened ClassroomStructure

  /** `VISIBLE_TO_STUDENTS`. */
  predicate Visible(status: Status) {
    status == Active || status == Completed || status == GradePublished
  }

  /** A target batch of the assignment has this user: the join of `assignment_target_batches` and `batch_students`. */
  predicate InTargetBatch(db: Db, a: Assignment, user: Id) {
    exists b :: b in a.targets && b in db.batches && user in db.batches[b].students
  }

  /** `BATCH_VISIBLE_SQL`. */
  predicate BatchVisible(db: Db, a: Assignment, user: Id) {
    a.target == ToClassroom || InTargetBatch(db, a, user)
  }

  /** The membership condition the two queries share. */
  predicate MemberSees(db: Db, a: Assignment, c: Classroom, user: Id) {
    user in c.graders || (user in c.students && BatchVisible(db, a, user))
  }

  /** `findAll` for a STUDENT: the stored status is filtered; the time transition comes after. */
  predicate Listed(db: Db, id: Id, actor: Actor)
    requires actor.role == Student
  {
    id in db.assignments
    && var a := db.assignments[id];
    Visible(a.status) && a.classroomId in db.classrooms && MemberSees(db, a, db.classrooms[a.classroomId], actor.id)
    && actor.org == Some(a.org)
  }

  /** `assertCanView`, on the assignment as `findOne` has refreshed it. */
  predicate CanView(db: Db, a: Assignment, actor: Actor) {
    if actor.role == Superadmin then true
    else if actor.role == Admin then SameOrg(actor, Some(a.org))
    else
      a.classroomId in db.classrooms
      && var c := db.classrooms[a.classroomId];
      if c.createdBy == actor.id || c.professor == Some(actor.id) then true
      else
        var isGrader, isStudent := actor.id in c.graders, actor.id in c.students;
        if (isGrader || isStudent) && Visible(a.status) then
          !(isStudent && !isGrader && a.target == ToBatches) || InTargetBatch(db, a, actor.id)
        else isGrader && a.createdBy == actor.id
  }

  /** `findOne`: refresh first, then the check. */
  predicate Opens(db: Db, id: Id, actor: Actor) {
    id in db.assignments && CanView(Seen(db, id), Aged(db.assignments[id], db.now), actor)
  }

  /** `myActiveDeadlines`. */
  predicate OnDeadlines(db: Db, id: Id, actor: Actor) {
    id in db.assignments
    && var a := db.assignments[id];
    a.status == Active
    && (actor.role == Superadmin || actor.role == Admin
        || (a.classroomId in db.classrooms
            && var c := db.classrooms[a.classroomId];
            c.createdBy == actor.id || c.professor == Some(actor.id) || MemberSees(db, a, c, actor.id)))
    && (actor.role == Superadmin || actor.org == Some(a.org))
  }

  /** A student of the assignment's organization who neither created nor teaches its classroom. */
  predicate PlainStudent(db: Db, id: Id, actor: Actor) {
    actor.role == Student && id in db.assignments
    && var a := db.assignments[id];
    actor.org == Some(a.org)
    && (a.classroomId in db.classrooms ==>
          db.classrooms[a.classroomId].createdBy != actor.id && db.classrooms[a.classroomId].professor != Some(actor.id))
  }

  /** The list shows exactly what can be opened and was already stored with a visible status. */
  lemma ListedIsOpenableWithVisibleStatus(db: Db, id: Id, actor: Actor)
    requires Structured(db) && PlainStudent(db, id, actor)
    ensures Listed(db, id, actor) <==> Opens(db, id, actor) && Visible(db.assignments[id].status)
  {
    assert Aimed(db, db.assignments[id]);
  }

  /** So list and view disagree in two cases only: a grader's own unpublished assignment, and a start date that passed with nobody looking. */
  lemma ListAndViewDisagreeExactlyWhen(db: Db, id: Id, actor: Actor)
    requires Structured(db) && PlainStudent(db, id, actor)
    ensures var a := db.assignments[id]; var c := db.classrooms[a.classroomId];
            (Listed(db, id, actor) <==> Opens(db, id, actor))
            <==> !(a.status == Draft || a.status == Scheduled)
                 || !((actor.id in c.graders && a.createdBy == actor.id)
                      || (a.status == Scheduled && a.start <= db.now < a.end && MemberSees(db, a, c, actor.id)))
  {
    assert Aimed(db, db.assignments[id]);
  }

  /** Both agree before the start; once it passes, and before anybody opens the assignment, a member can open what is not listed. */
  lemma AnUnseenStartOpensBeforeItIsListed(db: Db, id: Id, actor: Actor, ms: nat)
    requires Structured(db) && PlainStudent(db, id, actor)
    requires var a := db.assignments[id];
             && a.status == Scheduled && db.now < a.start <= db.now + ms < a.end && a.createdBy != actor.id
             && MemberSees(db, a, db.classrooms[a.classroomId], actor.id)
    ensures !Listed(db, id, actor) && !Opens(db, id, actor)
    ensures var later := Apply(db, Tick(ms)); !Listed(later, id, actor) && Opens(later, id, actor)
  {
    hide Structured, Opens, Listed, MemberSees, InTargetBatch;
    StructureAt(db);
    StructureOverEveryRun(db, [Tick(ms)]);
    var later := db.(now := db.now + ms);
    assert Run(db, [Tick(ms)]) == later by { assert [Tick(ms)][..0] == []; }
    SameMembers(db, later, id, actor.id);
    ListedIsOpenableWithVisibleStatus(db, id, actor);
    ListedIsOpenableWithVisibleStatus(later, id, actor);
    ListAndViewDisagreeExactlyWhen(db, id, actor);
    ListAndViewDisagreeExactlyWhen(later, id, actor);
  }

  lemma SameMembers(db: Db, later: Db, id: Id, user: Id)
    requires id in db.assignments && db.assignments[id].classroomId in db.classrooms && later == db.(now := later.now)
    ensures var a := db.assignments[id]; MemberSees(later, a, db.classrooms[a.classroomId], user) <==> MemberSees(db, a, db.classrooms[a.classroomId], user)
  {
  }

  /** The deadlines list is the active part of the list. */
  lemma DeadlinesAreTheActivePart(db: Db, id: Id, actor: Actor)
    requires Structured(db) && PlainStudent(db, id, actor)
    ensures OnDeadlines(db, id, actor) <==> Listed(db, id, actor) && db.assignments[id].status == Active
  {
  }

  // ---------------------------------------------------------------- notifications

  /** `resolveNotificationStudentIds`: `None` leaves the audience to the listener. */
  function Notified(db: Db, a: Assignment): Option<set<Id>> {
    if a.target == ToClassroom then None
    else Some(set b, u | b in a.targets && b in db.batches && u in db.batches[b].students :: u)
  }

  /** Publishing a batch-targeted assignment notifies exactly the enrolled students it now admits. */
  lemma PublishNotifiesWhomItAdmits(db: Db, id: Id, staff: Actor, u: Id, org: Option<OrgId>)
    requires Structured(db) && Publish(db, id, staff).Ok?
    requires db.assignments[id].target == ToBatches
    requires var c := db.classrooms[db.assignments[id].classroomId]; c.createdBy != u && c.professor != Some(u)
    ensures var after := Publish(db, id, staff).value; var a := after.assignments[id];
            u in Notified(after, a).value
            <==> u in after.classrooms[a.classroomId].students && Opens(after, id, Actor(u, Student, org))
  {
    var after := Publish(db, id, staff).value;
    var a := after.assignments[id];
    TransitionKeeps(db, id, staff, Draft, Active);
    assert Aimed(after, a) && Sorted(after.classrooms[a.classroomId]);
    if u in Notified(after, a).value {
      var b :| b in a.targets && b in after.batches && u in after.batches[b].students;
      assert Within(after, after.batches[b]);
      assert InTargetBatch(Seen(after, id), Aged(a, after.now), u);
    }
  }

  /** A student taken out of a classroom can no longer open any batch-targeted assignment of it, nor is notified of one. */
  lemma LeavingEndsAccess(db: Db, id: Id, user: Id, staff: Actor, assignment: Id, org: Option<OrgId>)
    requires Structured(db) && RemoveStudent(db, id, user, staff).Ok?
    requires assignment in db.assignments && db.assignments[assignment].classroomId == id
    requires var c := db.classrooms[id]; c.createdBy != user && c.professor != Some(user) && user !in c.graders
    ensures var after := RemoveStudent(db, id, user, staff).value;
            !Opens(after, assignment, Actor(user, Student, org))
            && (Notified(after, after.assignments[assignment]).Some? ==> user !in Notified(after, after.assignments[assignment]).value)
  {
    RemoveStudentKeeps(db, id, user, staff);
    var after := RemoveStudent(db, id, user, staff).value;
    assert Aimed(after, after.assignments[assignment]);
  }
}
