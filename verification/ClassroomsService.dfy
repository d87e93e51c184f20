/** The classroom, batch and assignment services in their own form, tied to the functions of `Classrooms`. */
module ClassroomsService {
  import opened Common
  import opened Roles
  import opened Schedule
  import opened Tables
  import opened Classrooms

  /** The outcome of a call: the new rows, or the refusal and the old rows. */
  predicate Outcome(before: Db, after: Db, refused: Option<Reason>, r: Result<Db, Reason>) {
    match r
    case Ok(d) => refused == None && after == d
    case Err(e) => refused == Some(e) && after == before
  }

  lemma TargetingReadsBatchesOnly(db: Db, id: Id, a: Assignment, start: Option<int>, end: Option<int>, t: Targeting, actor: Actor)
    ensures EditedAssignment(Seen(db, id), a, start, end, t, actor) == EditedAssignment(db, a, start, end, t, actor)
  {
  }

  lemma {:induction false} WhereSnoc(xs: seq<Id>, x: Id, p: Id -> bool)
    ensures Where(xs + [x], p) == if p(x) then Where(xs, p) + [x] else Where(xs, p)
  {
    assert (xs + [x])[..|xs|] == xs;
  }

  class Service {
    var now: int
    var users: map<Id, User>
    var classrooms: map<Id, Classroom>
    var batches: map<Id, Batch>
    var assignments: map<Id, Assignment>

    constructor (db: Db)
      ensures Rows() == db
    {
      now, users, classrooms, batches, assignments := db.now, db.users, db.classrooms, db.batches, db.assignments;
    }

    function Rows(): Db
      reads this
    {
      Db(now, users, classrooms, batches, assignments)
    }

    /** `create` of a classroom, for an id not used before. */
    method Create(dto: NewClassroom, actor: Actor, id: Id) returns (refused: Option<Reason>)
      modifies this`classrooms
      ensures Outcome(old(Rows()), Rows(), refused, CreateClassroom(old(Rows()), dto, actor, id))
    {
      if dto.start >= dto.end {
        return Some(BadDates);
      }
      var members := ResolveMembers(Rows(), dto, actor);
      if members.Err? {
        return Some(members.error);
      }
      var (professor, students, graders) := members.value;
      if actor.org.None? {
        return Some(NoOrganization);
      }
      var totalUsers := |students| + |graders| + (if professor.Some? then 1 else 0);
      classrooms := classrooms[id := Classroom(actor.org.value, actor.id, professor, students, graders, totalUsers)];
      refused := None;
    }

    /** The loop over students in `update`. */
    method PushStudents(c: Classroom, toAdd: seq<Id>) returns (students: Option<seq<Id>>)
      ensures students == if exists u :: u in toAdd && u in c.graders then None else Some(AddAll(c.students, toAdd))
    {
      var existing := Elems(c.students);
      var graderIds := Elems(c.graders);
      var list := c.students;
      for k := 0 to |toAdd|
        invariant list == AddAll(c.students, toAdd[..k])
        invariant forall u :: u in toAdd[..k] ==> u !in c.graders
      {
        if toAdd[k] in graderIds {
          return None;
        }
        WhereSnoc(toAdd[..k], toAdd[k], NotIn(c.students));
        assert toAdd[..k + 1] == toAdd[..k] + [toAdd[k]];
        if toAdd[k] !in existing {
          list := list + [toAdd[k]];
        }
      }
      assert toAdd[..|toAdd|] == toAdd;
      students := Some(list);
    }

    /** The loop over graders in `update`. */
    method PushGraders(c: Classroom, toAdd: seq<Id>) returns (graders: Result<seq<Id>, Reason>)
      ensures graders == match GraderRefusal(Rows(), c, toAdd) case Some(e) => Err(e) case None => Ok(AddAll(c.graders, toAdd))
    {
      var existing := Elems(c.graders);
      var studentIds := Elems(c.students);
      var list := c.graders;
      for k := 0 to |toAdd|
        invariant list == AddAll(c.graders, toAdd[..k])
        invariant GraderRefusal(Rows(), c, toAdd[..k]).None?
      {
        assert toAdd[..k + 1][..k] == toAdd[..k];
        if !(toAdd[k] in users && users[toAdd[k]].role == Student) {
          FirstRefusalStands(Rows(), c, toAdd, k + 1);
          return Err(GraderNotStudent);
        }
        if toAdd[k] in studentIds {
          FirstRefusalStands(Rows(), c, toAdd, k + 1);
          return Err(AlreadyStudent);
        }
        WhereSnoc(toAdd[..k], toAdd[k], NotIn(c.graders));
        assert toAdd[..k + 1] == toAdd[..k] + [toAdd[k]];
        if toAdd[k] !in existing {
          list := list + [toAdd[k]];
        }
      }
      assert toAdd[..|toAdd|] == toAdd;
      graders := Ok(list);
    }

    /** The students part of `update`, when a non-empty list was sent. */
    method AddStudents(c: Classroom, studentIds: seq<Id>, actor: Actor) returns (r: Result<Classroom, Reason>)
      ensures r == WithStudents(Rows(), c, studentIds, actor)
    {
      if studentIds == [] {
        assert AddAll(c.students, []) == c.students;
        return Ok(c);
      }
      var toAdd := LoadUsers(Rows(), studentIds, actor);
      if toAdd.Err? {
        return Err(toAdd.error);
      }
      var students := PushStudents(c, toAdd.value);
      if students.None? {
        return Err(AlreadyGrader);
      }
      r := Ok(c.(students := students.value));
    }

    /** The graders part of `update`. */
    method AddGraders(c: Classroom, graderIds: seq<Id>, actor: Actor) returns (r: Result<Classroom, Reason>)
      ensures r == WithGraders(Rows(), c, graderIds, actor)
    {
      if graderIds == [] {
        assert AddAll(c.graders, []) == c.graders;
        return Ok(c);
      }
      var toAdd := LoadUsers(Rows(), graderIds, actor);
      if toAdd.Err? {
        return Err(toAdd.error);
      }
      var graders := PushGraders(c, toAdd.value);
      if graders.Err? {
        return Err(graders.error);
      }
      r := Ok(c.(graders := graders.value));
    }

    /** `update` of a classroom: additive membership, then the professor, then the count. */
    method Update(id: Id, studentIds: seq<Id>, graderIds: seq<Id>, professor: Option<Option<Id>>, actor: Actor) returns (refused: Option<Reason>)
      modifies this`classrooms
      ensures Outcome(old(Rows()), Rows(), refused, UpdateClassroom(old(Rows()), id, studentIds, graderIds, professor, actor))
    {
      if id !in classrooms {
        return Some(NotFound);
      }
      var c := classrooms[id];
      if !CanManage(actor, c) {
        return Some(Forbidden);
      }
      var enrolled := AddStudents(c, studentIds, actor);
      if enrolled.Err? {
        return Some(enrolled.error);
      }
      var appointed := AddGraders(enrolled.value, graderIds, actor);
      if appointed.Err? {
        return Some(appointed.error);
      }
      c := appointed.value;
      if professor.Some? {
        if professor.value.Some? && professor.value.value != "" {
          var loaded := LoadProfessor(Rows(), professor.value.value, actor);
          if loaded.Err? {
            return Some(loaded.error);
          }
          c := c.(professor := Some(loaded.value));
        } else {
          c := c.(professor := None);
        }
      }
      c := c.(totalUsers := |c.students| + |c.graders| + if c.professor.Some? then 1 else 0);
      classrooms := classrooms[id := c];
      refused := None;
    }

    /** `removeProfessor`. */
    method DropProfessor(id: Id, actor: Actor) returns (refused: Option<Reason>)
      modifies this`classrooms
      ensures Outcome(old(Rows()), Rows(), refused, RemoveProfessor(old(Rows()), id, actor))
    {
      if id !in classrooms {
        return Some(NotFound);
      }
      var c := classrooms[id];
      if actor.role != Superadmin {
        if !SameOrg(actor, Some(c.org)) {
          return Some(CrossOrg);
        }
        if actor.role != Admin {
          return Some(Forbidden);
        }
      }
      c := c.(professor := None);
      c := c.(totalUsers := |c.students| + |c.graders|);
      classrooms := classrooms[id := c];
      refused := None;
    }

    /** `removeStudent`: the classroom row, then a delete over its batches' member rows. */
    method DropStudent(id: Id, user: Id, actor: Actor) returns (refused: Option<Reason>)
      modifies this`classrooms, this`batches
      ensures Outcome(old(Rows()), Rows(), refused, RemoveStudent(old(Rows()), id, user, actor))
    {
      if id !in classrooms {
        return Some(NotFound);
      }
      var c := classrooms[id];
      if !CanManage(actor, c) {
        return Some(Forbidden);
      }
      c := c.(students := Where(c.students, Without(user)));
      c := c.(totalUsers := |c.students| + |c.graders| + if c.professor.Some? then 1 else 0);
      classrooms := classrooms[id := c];
      var rows := batches;
      batches := map b | b in rows :: Stripped(rows[b], id, user);
      refused := None;
    }

    /** `removeGrader`. */
    method DropGrader(id: Id, user: Id, actor: Actor) returns (refused: Option<Reason>)
      modifies this`classrooms
      ensures Outcome(old(Rows()), Rows(), refused, RemoveGrader(old(Rows()), id, user, actor))
    {
      if id !in classrooms {
        return Some(NotFound);
      }
      var c := classrooms[id];
      if !CanManage(actor, c) {
        return Some(Forbidden);
      }
      c := c.(graders := Where(c.graders, Without(user)));
      c := c.(totalUsers := |c.students| + |c.graders| + if c.professor.Some? then 1 else 0);
      classrooms := classrooms[id := c];
      refused := None;
    }

    /** `BatchesService.addStudents`. */
    method AddStudentsToBatch(classroomId: Id, id: Id, ids: seq<Id>, actor: Actor) returns (refused: Option<Reason>)
      modifies this`batches
      ensures Outcome(old(Rows()), Rows(), refused, AddToBatch(old(Rows()), classroomId, id, ids, actor))
    {
      var got := GetBatch(Rows(), classroomId, id, actor);
      if got.Err? {
        return Some(got.error);
      }
      var batch := got.value;
      var resolved := ResolveBatch(classrooms[classroomId], ids);
      if resolved.Err? {
        return Some(resolved.error);
      }
      var toAdd := resolved.value;
      var existing := Elems(batch.students);
      var list := batch.students;
      for k := 0 to |toAdd|
        invariant Rows() == old(Rows())
        invariant list == AddAll(batch.students, toAdd[..k])
      {
        WhereSnoc(toAdd[..k], toAdd[k], NotIn(batch.students));
        assert toAdd[..k + 1] == toAdd[..k] + [toAdd[k]];
        if toAdd[k] !in existing {
          list := list + [toAdd[k]];
        }
      }
      assert toAdd[..|toAdd|] == toAdd;
      batches := batches[id := batch.(students := list)];
      refused := None;
    }

    /** `BatchesService.update`. */
    method EditBatch(classroomId: Id, id: Id, name: Option<string>, ids: Option<seq<Id>>, actor: Actor) returns (refused: Option<Reason>)
      modifies this`batches
      ensures Outcome(old(Rows()), Rows(), refused, UpdateBatch(old(Rows()), classroomId, id, name, ids, actor))
    {
      var got := GetBatch(Rows(), classroomId, id, actor);
      if got.Err? {
        return Some(got.error);
      }
      var batch := got.value;
      if name.Some? && name.value != batch.name {
        if NameClash(Rows(), classroomId, name.value, Some(id)) {
          return Some(NameTaken);
        }
        batch := batch.(name := name.value);
      }
      if ids.Some? {
        var resolved := ResolveBatch(classrooms[classroomId], ids.value);
        if resolved.Err? {
          return Some(resolved.error);
        }
        batch := batch.(students := resolved.value);
      }
      batches := batches[id := batch];
      refused := None;
    }

    /** `BatchesService.remove`. */
    method DropBatch(classroomId: Id, id: Id, actor: Actor) returns (refused: Option<Reason>)
      modifies this`batches
      ensures Outcome(old(Rows()), Rows(), refused, RemoveBatch(old(Rows()), classroomId, id, actor))
    {
      var got := GetBatch(Rows(), classroomId, id, actor);
      if got.Err? {
        return Some(got.error);
      }
      if exists a :: a in assignments && id in assignments[a].targets {
        return Some(BatchTargeted);
      }
      batches := batches - {id};
      refused := None;
    }

    /** `getById`: the time transition found due is saved before anything is checked. */
    method Refresh(id: Id)
      modifies this`assignments
      ensures Rows() == Seen(old(Rows()), id)
    {
      if id in assignments {
        var a := assignments[id];
        assignments := assignments[id := a.(status := Schedule.Refresh(a.status, a.start, a.end, now))];
      }
    }

    /** The field writes of `update`, with the merged targeting resolved when any of it was sent. */
    method EditFields(row: Assignment, start: Option<int>, end: Option<int>, t: Targeting, actor: Actor) returns (edited: Result<Assignment, Reason>)
      ensures edited == EditedAssignment(Rows(), row, start, end, t, actor)
    {
      var a := row;
      if start.Some? {
        a := a.(start := start.value);
      }
      if end.Some? {
        a := a.(end := end.value);
      }
      if t.kind.Some? || t.target.Some? || t.duration.Some? || t.batchIds.Some? {
        var merged := Targeting(
          Some(if t.kind.Some? then t.kind.value else a.kind), Some(if t.target.Some? then t.target.value else a.target),
          if t.duration.Some? then t.duration else a.duration, Some(if t.batchIds.Some? then t.batchIds.value else a.targets));
        return ResolveTargeting(Rows(), a, merged, actor);
      }
      edited := Ok(a);
    }

    /** `AssignmentsService.update`, on the refreshed row, which stays refreshed when the call is refused. */
    method EditAssignment(id: Id, start: Option<int>, end: Option<int>, t: Targeting, actor: Actor) returns (refused: Option<Reason>)
      modifies this`assignments
      ensures Outcome(Seen(old(Rows()), id), Rows(), refused, UpdateAssignment(old(Rows()), id, start, end, t, actor))
    {
      hide EditedAssignment, StaffOrGrader;
      var found := Managed(Rows(), id, actor);
      Refresh(id);
      if found.Err? {
        return Some(found.error);
      }
      TargetingReadsBatchesOnly(old(Rows()), id, found.value, start, end, t, actor);
      var edited := EditFields(found.value, start, end, t, actor);
      if edited.Err? {
        return Some(edited.error);
      }
      assignments := assignments[id := edited.value];
      refused := None;
    }

    /** `transition`, on the refreshed row, and the save that follows it. */
    method MoveAssignment(id: Id, actor: Actor, from: Status, to: Status) returns (refused: Option<Reason>)
      modifies this`assignments
      ensures Outcome(Seen(old(Rows()), id), Rows(), refused, Transition(old(Rows()), id, actor, from, to))
    {
      var found := Managed(Rows(), id, actor);
      Refresh(id);
      if found.Err? {
        return Some(found.error);
      }
      if found.value.status != from {
        return Some(WrongStatus);
      }
      assignments := assignments[id := found.value.(status := to)];
      refused := None;
    }
  }

  /** The first refusal met is the refusal of the whole list. */
  lemma {:induction false} FirstRefusalStands(db: Db, c: Classroom, toAdd: seq<Id>, k: nat)
    requires k <= |toAdd| && GraderRefusal(db, c, toAdd[..k]).Some?
    ensures GraderRefusal(db, c, toAdd) == GraderRefusal(db, c, toAdd[..k])
  {
    if k < |toAdd| {
      assert toAdd[..|toAdd| - 1][..k] == toAdd[..k];
      FirstRefusalStands(db, c, toAdd[..|toAdd| - 1], k);
    } else {
      assert toAdd[..k] == toAdd;
    }
  }
}
