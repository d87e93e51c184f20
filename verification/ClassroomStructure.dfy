/** The relational structure of classrooms, batches and targeting, kept by every operation. */
module ClassroomStructure {
  import opened Common
  import opened Roles
  import opened Schedule
  import opened Tables
  import opened Classrooms

  /** Members are listed once, on one side, and counted. */
  ghost predicate Sorted(c: Classroom) {
    && NoDup(c.students) && NoDup(c.graders)
    && (forall u :: u in c.students ==> u !in c.graders)
    && c.totalUsers == |c.students| + |c.graders| + Head(c.professor)
  }

  /** A batch is a duplicate-free part of its classroom's students. */
  ghost predicate Within(db: Db, b: Batch) {
    && b.classroomId in db.classrooms && NoDup(b.students)
    && (forall u :: u in b.students ==> u in db.classrooms[b.classroomId].students)
  }

  /** A batch-targeted assignment has target batches, all of its own classroom; a classroom-targeted one has none; a test has a clock. */
  ghost predicate Aimed(db: Db, a: Assignment) {
    && a.classroomId in db.classrooms && a.org == db.classrooms[a.classroomId].org
    && (a.target == ToBatches <==> a.targets != {})
    && (forall b :: b in a.targets ==> b in db.batches && db.batches[b].classroomId == a.classroomId)
    && (a.kind == Test ==> a.duration.Some? && a.duration.value >= 1)
  }

  /** No two batches of a classroom share a name. */
  ghost predicate NamesApart(db: Db) {
    forall b, d :: b in db.batches && d in db.batches && b != d
      ==> db.batches[b].classroomId != db.batches[d].classroomId || db.batches[b].name != db.batches[d].name
  }

  ghost predicate Structured(db: Db) {
    && (forall c :: c in db.classrooms ==> Sorted(db.classrooms[c]))
    && (forall b :: b in db.batches ==> Within(db, db.batches[b]))
    && NamesApart(db)
    && (forall a :: a in db.assignments ==> Aimed(db, db.assignments[a]))
  }

  lemma StructureAt(db: Db)
    requires Structured(db)
    ensures forall c :: c in db.classrooms ==> Sorted(db.classrooms[c])
    ensures forall b :: b in db.batches ==> Within(db, db.batches[b])
    ensures forall a :: a in db.assignments ==> Aimed(db, db.assignments[a])
    ensures NamesApart(db)
  {
  }

  // ---------------------------------------------------------------- lists of people

  lemma AddAllDistinct(xs: seq<Id>, toAdd: seq<Id>)
    requires NoDup(xs) && NoDup(toAdd)
    ensures NoDup(AddAll(xs, toAdd)) && forall x :: x in AddAll(xs, toAdd) <==> x in xs || x in toAdd
  {
    WhereDistinct(toAdd, NotIn(xs));
    var more := Where(toAdd, NotIn(xs));
    forall i, j | 0 <= i < j < |xs + more| ensures (xs + more)[i] != (xs + more)[j] {
      if i < |xs| <= j {
        assert more[j - |xs|] in more && xs[i] in xs;
      }
    }
  }

  /** Loading people gives exactly the people asked for, once each, all of them known. */
  lemma LoadUsersMeans(db: Db, ids: seq<Id>, actor: Actor)
    requires LoadUsers(db, ids, actor).Ok?
    ensures var us := LoadUsers(db, ids, actor).value;
            && NoDup(us) && (forall u :: u in us <==> u in ids)
            && forall u :: u in us ==> u in db.users && SameOrg(actor, db.users[u].org)
  {
    DedupMembers(ids);
    WhereDistinct(Dedup(ids), Known(db));
    NoDupCard(Dedup(ids));
    NoDupCard(Where(Dedup(ids), Known(db)));
    SubsetCard(Elems(Where(Dedup(ids), Known(db))), Elems(Dedup(ids)));
    forall u | u in ids ensures u in Where(Dedup(ids), Known(db)) {
      assert u in Elems(Dedup(ids));
    }
  }

  lemma LoadSomeMeans(db: Db, ids: seq<Id>, actor: Actor)
    requires LoadSome(db, ids, actor).Ok?
    ensures var us := LoadSome(db, ids, actor).value; NoDup(us) && forall u :: u in us <==> u in ids
  {
    if ids != [] {
      LoadUsersMeans(db, ids, actor);
    }
  }

  lemma {:induction false} GradersPass(db: Db, c: Classroom, toAdd: seq<Id>)
    requires GraderRefusal(db, c, toAdd).None?
    ensures forall u :: u in toAdd ==> IsStudent(db, u) && u !in c.students
  {
    if toAdd != [] {
      GradersPass(db, c, toAdd[..|toAdd| - 1]);
      assert toAdd == toAdd[..|toAdd| - 1] + [toAdd[|toAdd| - 1]];
    }
  }

  // ---------------------------------------------------------------- each operation

  lemma CreatedSorted(db: Db, dto: NewClassroom, actor: Actor, id: Id)
    requires CreateClassroom(db, dto, actor, id).Ok?
    ensures Sorted(CreateClassroom(db, dto, actor, id).value.classrooms[id])
  {
    var (professor, students, graders) := ResolveMembers(db, dto, actor).value;
    DedupMembers(dto.studentIds);
    DedupMembers(dto.graderIds);
    LoadSomeMeans(db, Dedup(dto.studentIds), actor);
    LoadSomeMeans(db, Dedup(dto.graderIds), actor);
  }

  lemma CreateClassroomKeeps(db: Db, dto: NewClassroom, actor: Actor, id: Id)
    requires Structured(db) && id !in db.classrooms && CreateClassroom(db, dto, actor, id).Ok?
    ensures Structured(CreateClassroom(db, dto, actor, id).value)
  {
    hide ResolveMembers, Sorted;
    CreatedSorted(db, dto, actor, id);
    ClassroomGrows(db, id, CreateClassroom(db, dto, actor, id).value.classrooms[id]);
  }

  /** Saving a sorted classroom that lost nobody and moved nowhere keeps the structure. */
  lemma ClassroomGrows(db: Db, id: Id, c: Classroom)
    requires Structured(db) && Sorted(c)
    requires id in db.classrooms ==> c.org == db.classrooms[id].org && forall u :: u in db.classrooms[id].students ==> u in c.students
    ensures Structured(SaveClassroom(db, id, c))
  {
    var after := SaveClassroom(db, id, c);
    forall b | b in after.batches ensures Within(after, after.batches[b]) {
      assert Within(db, db.batches[b]);
    }
    forall a | a in after.assignments ensures Aimed(after, after.assignments[a]) {
      assert Aimed(db, db.assignments[a]);
    }
  }

  /** An update of a sorted classroom leaves it sorted and loses no student. */
  lemma UpdatedSorted(db: Db, id: Id, studentIds: seq<Id>, graderIds: seq<Id>, professor: Option<Option<Id>>, actor: Actor)
    requires UpdateClassroom(db, id, studentIds, graderIds, professor, actor).Ok? && Sorted(db.classrooms[id])
    ensures var c := UpdateClassroom(db, id, studentIds, graderIds, professor, actor).value.classrooms[id];
            Sorted(c) && c.org == db.classrooms[id].org && forall u :: u in db.classrooms[id].students ==> u in c.students
  {
    var c0 := db.classrooms[id];
    var c1 := WithStudents(db, c0, studentIds, actor).value;
    var c2 := WithGraders(db, c1, graderIds, actor).value;
    var c3 := WithProfessor(db, c2, professor, actor).value;
    LoadSomeMeans(db, studentIds, actor);
    AddAllDistinct(c0.students, LoadSome(db, studentIds, actor).value);
    LoadSomeMeans(db, graderIds, actor);
    AddAllDistinct(c1.graders, LoadSome(db, graderIds, actor).value);
    GradersPass(db, c1, LoadSome(db, graderIds, actor).value);
    assert c3 == c2.(professor := c3.professor);
  }

  lemma UpdateClassroomKeeps(db: Db, id: Id, studentIds: seq<Id>, graderIds: seq<Id>, professor: Option<Option<Id>>, actor: Actor)
    requires Structured(db) && UpdateClassroom(db, id, studentIds, graderIds, professor, actor).Ok?
    ensures Structured(UpdateClassroom(db, id, studentIds, graderIds, professor, actor).value)
  {
    hide Sorted, WithStudents, WithGraders, WithProfessor;
    UpdatedSorted(db, id, studentIds, graderIds, professor, actor);
    ClassroomGrows(db, id, UpdateClassroom(db, id, studentIds, graderIds, professor, actor).value.classrooms[id]);
  }

  /** The professor is not among the members. */
  predicate ProfessorApart(c: Classroom) {
    c.professor.Some? ==> c.professor.value !in c.students && c.professor.value !in c.graders
  }

  /** An update adds exactly the people sent, on the side they were sent to, and removes nobody. */
  lemma UpdateAddsExactly(db: Db, id: Id, studentIds: seq<Id>, graderIds: seq<Id>, professor: Option<Option<Id>>, actor: Actor)
    requires Structured(db) && UpdateClassroom(db, id, studentIds, graderIds, professor, actor).Ok?
    ensures var c := db.classrooms[id]; var after := UpdateClassroom(db, id, studentIds, graderIds, professor, actor).value;
            && after == db.(classrooms := db.classrooms[id := after.classrooms[id]])
            && (forall u :: u in after.classrooms[id].students <==> u in c.students || u in studentIds)
            && (forall u :: u in after.classrooms[id].graders <==> u in c.graders || u in graderIds)
            && (professor == None ==> after.classrooms[id].professor == c.professor)
            && (forall u :: u in graderIds ==> IsStudent(db, u))
  {
    var c0 := db.classrooms[id];
    var c1 := WithStudents(db, c0, studentIds, actor).value;
    assert Sorted(c0);
    LoadSomeMeans(db, studentIds, actor);
    AddAllDistinct(c0.students, LoadSome(db, studentIds, actor).value);
    LoadSomeMeans(db, graderIds, actor);
    AddAllDistinct(c1.graders, LoadSome(db, graderIds, actor).value);
    GradersPass(db, c1, LoadSome(db, graderIds, actor).value);
  }

  /** A manager adding known colleagues as students is refused exactly when one of them already grades the class. */
  lemma AddingStudentsRefusedExactlyWhen(db: Db, id: Id, studentIds: seq<Id>, actor: Actor)
    requires Structured(db) && id in db.classrooms && CanManage(actor, db.classrooms[id]) && DirectoryOpen(actor)
    requires forall u :: u in studentIds ==> u in db.users && SameOrg(actor, db.users[u].org)
    ensures UpdateClassroom(db, id, studentIds, [], None, actor).Ok? <==> forall u :: u in studentIds ==> u !in db.classrooms[id].graders
  {
    hide Structured;
    LoadsKnown(db, studentIds, actor);
    LoadSomeMeans(db, studentIds, actor);
  }

  lemma LoadsKnown(db: Db, ids: seq<Id>, actor: Actor)
    requires DirectoryOpen(actor) && forall u :: u in ids ==> u in db.users && SameOrg(actor, db.users[u].org)
    ensures LoadSome(db, ids, actor).Ok?
  {
    DedupMembers(ids);
    WhereDistinct(Dedup(ids), Known(db));
    NoDupCard(Dedup(ids));
    NoDupCard(Where(Dedup(ids), Known(db)));
    assert Elems(Where(Dedup(ids), Known(db))) == Elems(Dedup(ids));
  }

  /** Creation keeps professor and creator out of the member lists. */
  lemma CreatedApart(db: Db, dto: NewClassroom, actor: Actor, id: Id)
    requires CreateClassroom(db, dto, actor, id).Ok?
    ensures var c := CreateClassroom(db, dto, actor, id).value.classrooms[id];
            ProfessorApart(c) && c.createdBy !in c.students && c.createdBy !in c.graders
  {
    DedupMembers(dto.studentIds);
    DedupMembers(dto.graderIds);
    LoadSomeMeans(db, Dedup(dto.studentIds), actor);
    LoadSomeMeans(db, Dedup(dto.graderIds), actor);
  }

  /** An update does not check this: the professor ends up apart exactly when the one in office afterwards was neither a member before nor is being added. */
  lemma UpdatedApartExactlyWhen(db: Db, id: Id, studentIds: seq<Id>, graderIds: seq<Id>, professor: Option<Option<Id>>, actor: Actor)
    requires Structured(db) && UpdateClassroom(db, id, studentIds, graderIds, professor, actor).Ok?
    ensures var c := db.classrooms[id];
            var p := if professor.None? then c.professor else if Blank(professor.value) then None else professor.value;
            ProfessorApart(UpdateClassroom(db, id, studentIds, graderIds, professor, actor).value.classrooms[id])
            <==> (p.Some? ==> p.value !in c.students && p.value !in c.graders && p.value !in studentIds && p.value !in graderIds)
  {
    var c0 := db.classrooms[id];
    var c1 := WithStudents(db, c0, studentIds, actor).value;
    assert Sorted(c0);
    LoadSomeMeans(db, studentIds, actor);
    AddAllDistinct(c0.students, LoadSome(db, studentIds, actor).value);
    LoadSomeMeans(db, graderIds, actor);
    AddAllDistinct(c1.graders, LoadSome(db, graderIds, actor).value);
  }

  /** The professor in office is enrolled by an update that any manager may make. */
  lemma AnUpdateCanEnrolTheProfessor(db: Db, id: Id, actor: Actor)
    requires Structured(db) && id in db.classrooms && CanManage(actor, db.classrooms[id]) && DirectoryOpen(actor)
    requires var c := db.classrooms[id];
             && ProfessorApart(c) && c.professor.Some? && c.professor.value in db.users && SameOrg(actor, db.users[c.professor.value].org)
    ensures var p := db.classrooms[id].professor.value;
            && UpdateClassroom(db, id, [p], [], None, actor).Ok?
            && !ProfessorApart(UpdateClassroom(db, id, [p], [], None, actor).value.classrooms[id])
  {
    hide CanManage, DirectoryOpen, SameOrg, ProfessorApart, Structured;
    ApartMeans(db.classrooms[id]);
    var p := db.classrooms[id].professor.value;
    assert [p][..0] == [];
    assert Dedup([p]) == [p];
    assert Where([p], Known(db)) == [p];
    assert LoadUsers(db, [p], actor) == Ok([p]);
    UpdatedApartExactlyWhen(db, id, [p], [], None, actor);
    assert p in [p];
  }

  lemma ApartMeans(c: Classroom)
    requires ProfessorApart(c) && c.professor.Some?
    ensures c.professor.value !in c.students && c.professor.value !in c.graders
  {
  }

  lemma RemoveProfessorKeeps(db: Db, id: Id, actor: Actor)
    requires Structured(db) && RemoveProfessor(db, id, actor).Ok?
    ensures Structured(RemoveProfessor(db, id, actor).value)
  {
    hide Structured, Within, Aimed;
    StructureAt(db);
    var c := db.classrooms[id];
    assert Sorted(c);
    ClassroomGrows(db, id, c.(professor := None, totalUsers := |c.students| + |c.graders|));
  }

  lemma RemoveGraderKeeps(db: Db, id: Id, user: Id, actor: Actor)
    requires Structured(db) && RemoveGrader(db, id, user, actor).Ok?
    ensures Structured(RemoveGrader(db, id, user, actor).value)
  {
    hide Structured, Within, Aimed;
    StructureAt(db);
    var c := db.classrooms[id];
    assert Sorted(c);
    WhereDistinct(c.graders, Without(user));
    ClassroomGrows(db, id, Totalled(c.(graders := Where(c.graders, Without(user)))));
  }

  /** Leaving a classroom is leaving its batches: the subset invariant survives, and the student is gone from both. */
  lemma RemoveStudentKeeps(db: Db, id: Id, user: Id, actor: Actor)
    requires Structured(db) && RemoveStudent(db, id, user, actor).Ok?
    ensures Structured(RemoveStudent(db, id, user, actor).value)
    ensures var after := RemoveStudent(db, id, user, actor).value;
            && user !in after.classrooms[id].students
            && (forall b :: b in after.batches && after.batches[b].classroomId == id ==> user !in after.batches[b].students)
            && (forall u :: u != user && u in db.classrooms[id].students ==> u in after.classrooms[id].students)
  {
    hide Structured, Sorted, Within, Aimed;
    StructureAt(db);
    var after := RemoveStudent(db, id, user, actor).value;
    StripKeepsMembers(db, id, user);
    assert after == StripFrom(db, id, user);
    forall b | b in after.batches
      ensures Within(after, after.batches[b]) && (after.batches[b].classroomId == id ==> user !in after.batches[b].students)
    {
      StripKeepsBatch(db, id, user, b);
    }
    forall a | a in after.assignments ensures Aimed(after, after.assignments[a]) {
      StripKeepsAim(db, id, user, db.assignments[a]);
    }
    StripKeepsNames(db, id, user);
    StructureFrom(after);
  }

  function StripFrom(db: Db, id: Id, user: Id): Db
    requires id in db.classrooms
  {
    SaveClassroom(db, id, Totalled(db.classrooms[id].(students := Where(db.classrooms[id].students, Without(user)))))
    .(batches := map b | b in db.batches :: Stripped(db.batches[b], id, user))
  }

  lemma StripKeepsMembers(db: Db, id: Id, user: Id)
    requires id in db.classrooms && forall c :: c in db.classrooms ==> Sorted(db.classrooms[c])
    ensures var after := StripFrom(db, id, user);
            && (forall c :: c in after.classrooms ==> Sorted(after.classrooms[c]))
            && user !in after.classrooms[id].students
            && (forall u :: u != user && u in db.classrooms[id].students ==> u in after.classrooms[id].students)
  {
    assert Sorted(db.classrooms[id]);
    WhereDistinct(db.classrooms[id].students, Without(user));
  }

  lemma StripKeepsBatch(db: Db, id: Id, user: Id, b: Id)
    requires id in db.classrooms && b in db.batches && Within(db, db.batches[b]) && Sorted(db.classrooms[id])
    ensures var after := StripFrom(db, id, user);
            Within(after, after.batches[b]) && (after.batches[b].classroomId == id ==> user !in after.batches[b].students)
  {
    WhereDistinct(db.batches[b].students, Without(user));
    WhereDistinct(db.classrooms[id].students, Without(user));
  }

  lemma StripKeepsAim(db: Db, id: Id, user: Id, a: Assignment)
    requires id in db.classrooms && Aimed(db, a)
    ensures Aimed(StripFrom(db, id, user), a)
  {
  }

  lemma StripKeepsNames(db: Db, id: Id, user: Id)
    requires id in db.classrooms && NamesApart(db)
    ensures NamesApart(StripFrom(db, id, user))
  {
  }

  lemma StructureFrom(db: Db)
    requires forall c :: c in db.classrooms ==> Sorted(db.classrooms[c])
    requires forall b :: b in db.batches ==> Within(db, db.batches[b])
    requires forall a :: a in db.assignments ==> Aimed(db, db.assignments[a])
    requires NamesApart(db)
    ensures Structured(db)
  {
  }

  lemma RemoveClassroomKeeps(db: Db, id: Id, actor: Actor)
    requires Structured(db) && RemoveClassroom(db, id, actor).Ok?
    ensures Structured(RemoveClassroom(db, id, actor).value)
  {
    var after := RemoveClassroom(db, id, actor).value;
    forall b | b in after.batches ensures Within(after, after.batches[b]) {
      assert Within(db, db.batches[b]);
    }
    forall a | a in after.assignments ensures Aimed(after, after.assignments[a]) {
      assert Aimed(db, db.assignments[a]);
    }
  }

  /** Saving a batch under a free name, with enrolled students, keeps the structure. */
  lemma BatchFits(db: Db, id: Id, b: Batch)
    requires Structured(db) && Within(db, b) && !NameClash(db, b.classroomId, b.name, Some(id))
    requires id in db.batches ==> b.classroomId == db.batches[id].classroomId
    ensures Structured(SaveBatch(db, id, b))
  {
    var after := SaveBatch(db, id, b);
    forall d | d in after.batches ensures Within(after, after.batches[d]) {
      assert d != id ==> Within(db, db.batches[d]);
    }
    forall a | a in after.assignments ensures Aimed(after, after.assignments[a]) {
      assert Aimed(db, db.assignments[a]);
    }
  }

  lemma ResolveBatchMeans(c: Classroom, ids: seq<Id>)
    requires ResolveBatch(c, ids).Ok?
    ensures NoDup(ResolveBatch(c, ids).value) && forall u :: u in ResolveBatch(c, ids).value ==> u in c.students
  {
    DedupMembers(ids);
  }

  /** A batch that keeps its name clashes with nobody. */
  lemma OwnNameIsFree(db: Db, id: Id)
    requires Structured(db) && id in db.batches
    ensures !NameClash(db, db.batches[id].classroomId, db.batches[id].name, Some(id))
  {
  }

  /** Batches hold exactly the enrolled students they were given: on creation, on replacement, and added to what was there. */
  lemma BatchesHoldWhatTheyWereGiven(db: Db, classroomId: Id, id: Id, ids: seq<Id>, actor: Actor)
    requires Structured(db) && GetBatch(db, classroomId, id, actor).Ok?
    ensures AddToBatch(db, classroomId, id, ids, actor).Ok? <==> forall u :: u in ids ==> u in db.classrooms[classroomId].students
    ensures UpdateBatch(db, classroomId, id, None, Some(ids), actor).Ok? <==> forall u :: u in ids ==> u in db.classrooms[classroomId].students
    ensures AddToBatch(db, classroomId, id, ids, actor).Ok? ==>
              forall u :: u in AddToBatch(db, classroomId, id, ids, actor).value.batches[id].students
                          <==> u in db.batches[id].students || u in ids
    ensures UpdateBatch(db, classroomId, id, None, Some(ids), actor).Ok? ==>
              forall u :: u in UpdateBatch(db, classroomId, id, None, Some(ids), actor).value.batches[id].students <==> u in ids
    ensures forall u, x :: u in RemoveFromBatch(db, classroomId, id, x, actor).value.batches[id].students
                           <==> u in db.batches[id].students && u != x
  {
    assert Within(db, db.batches[id]);
    hide Structured;
    DedupMembers(ids);
    if ResolveBatch(db.classrooms[classroomId], ids).Ok? {
      AddAllDistinct(db.batches[id].students, Dedup(ids));
    }
    forall x ensures forall u :: u in Where(db.batches[id].students, Without(x)) <==> u in db.batches[id].students && u != x {
      WhereDistinct(db.batches[id].students, Without(x));
    }
  }

  lemma CreateBatchKeeps(db: Db, classroomId: Id, name: string, ids: seq<Id>, actor: Actor, id: Id)
    requires Structured(db) && id !in db.batches && CreateBatch(db, classroomId, name, ids, actor, id).Ok?
    ensures Structured(CreateBatch(db, classroomId, name, ids, actor, id).value)
  {
    ResolveBatchMeans(db.classrooms[classroomId], ids);
    BatchFits(db, id, Batch(classroomId, name, ResolveBatch(db.classrooms[classroomId], ids).value));
  }

  lemma UpdateBatchKeeps(db: Db, classroomId: Id, id: Id, name: Option<string>, ids: Option<seq<Id>>, actor: Actor)
    requires Structured(db) && UpdateBatch(db, classroomId, id, name, ids, actor).Ok?
    ensures Structured(UpdateBatch(db, classroomId, id, name, ids, actor).value)
  {
    OwnNameIsFree(db, id);
    assert Within(db, db.batches[id]);
    if ids.Some? {
      ResolveBatchMeans(db.classrooms[classroomId], ids.value);
    }
    BatchFits(db, id, UpdateBatch(db, classroomId, id, name, ids, actor).value.batches[id]);
  }

  lemma AddToBatchKeeps(db: Db, classroomId: Id, id: Id, ids: seq<Id>, actor: Actor)
    requires Structured(db) && AddToBatch(db, classroomId, id, ids, actor).Ok?
    ensures Structured(AddToBatch(db, classroomId, id, ids, actor).value)
  {
    OwnNameIsFree(db, id);
    assert Within(db, db.batches[id]);
    ResolveBatchMeans(db.classrooms[classroomId], ids);
    AddAllDistinct(db.batches[id].students, ResolveBatch(db.classrooms[classroomId], ids).value);
    BatchFits(db, id, AddToBatch(db, classroomId, id, ids, actor).value.batches[id]);
  }

  lemma RemoveFromBatchKeeps(db: Db, classroomId: Id, id: Id, user: Id, actor: Actor)
    requires Structured(db) && RemoveFromBatch(db, classroomId, id, user, actor).Ok?
    ensures Structured(RemoveFromBatch(db, classroomId, id, user, actor).value)
  {
    OwnNameIsFree(db, id);
    assert Within(db, db.batches[id]);
    WhereDistinct(db.batches[id].students, Without(user));
    BatchFits(db, id, RemoveFromBatch(db, classroomId, id, user, actor).value.batches[id]);
  }

  lemma RemoveBatchKeeps(db: Db, classroomId: Id, id: Id, actor: Actor)
    requires Structured(db) && RemoveBatch(db, classroomId, id, actor).Ok?
    ensures Structured(RemoveBatch(db, classroomId, id, actor).value)
  {
    var after := RemoveBatch(db, classroomId, id, actor).value;
    forall b | b in after.batches ensures Within(after, after.batches[b]) {
      assert Within(db, db.batches[b]);
    }
    forall a | a in after.assignments ensures Aimed(after, after.assignments[a]) {
      assert Aimed(db, db.assignments[a]);
      assert id !in db.assignments[a].targets;
    }
  }

  lemma AssignmentFits(db: Db, id: Id, a: Assignment)
    requires Structured(db) && Aimed(db, a)
    ensures Structured(db.(assignments := db.assignments[id := a]))
  {
    var after := db.(assignments := db.assignments[id := a]);
    forall b | b in after.batches ensures Within(after, after.batches[b]) {
      assert Within(db, db.batches[b]);
    }
    forall x | x in after.assignments ensures Aimed(after, after.assignments[x]) {
      assert x != id ==> Aimed(db, db.assignments[x]);
    }
  }

  /** What `resolveTargeting` lets through is well aimed. */
  lemma ResolvedIsAimed(db: Db, a: Assignment, t: Targeting, actor: Actor)
    requires a.classroomId in db.classrooms && a.org == db.classrooms[a.classroomId].org
    requires ResolveTargeting(db, a, t, actor).Ok?
    ensures Aimed(db, ResolveTargeting(db, a, t, actor).value)
  {
  }

  /** Targeting is accepted exactly when a test has a clock and a batch target names batches of the classroom; it then stores what was sent. */
  lemma TargetingAcceptedExactlyWhen(db: Db, a: Assignment, t: Targeting, actor: Actor)
    requires SameOrg(actor, Some(a.org))
    ensures ResolveTargeting(db, a, t, actor).Ok?
       <==> && (t.kind == Some(Test) ==> t.duration.Some? && t.duration.value >= 1)
            && (t.target == Some(ToBatches) ==>
                  t.batchIds.Some? && t.batchIds.value != {}
                  && forall b :: b in t.batchIds.value ==> b in db.batches && db.batches[b].classroomId == a.classroomId)
    ensures ResolveTargeting(db, a, t, actor).Ok? ==>
              var r := ResolveTargeting(db, a, t, actor).value;
              && (r.kind == Test <==> t.kind == Some(Test)) && r.duration == t.duration
              && r.targets == (if t.target == Some(ToBatches) then t.batchIds.value else {})
              && r.status == a.status && r.start == a.start && r.end == a.end && r.createdBy == a.createdBy
  {
  }

  lemma CreateAssignmentKeeps(db: Db, classroomId: Id, start: int, end: int, t: Targeting, asDraft: bool, actor: Actor, id: Id)
    requires Structured(db) && CreateAssignment(db, classroomId, start, end, t, asDraft, actor, id).Ok?
    ensures Structured(CreateAssignment(db, classroomId, start, end, t, asDraft, actor, id).value)
  {
    var blank := Assignment(classroomId, db.classrooms[classroomId].org, actor.id, if asDraft then Draft else Scheduled,
                            start, end, Plain, None, ToClassroom, {});
    ResolvedIsAimed(db, blank, t, actor);
    AssignmentFits(db, id, ResolveTargeting(db, blank, t, actor).value);
  }

  lemma UpdatedIsAimed(db: Db, id: Id, start: Option<int>, end: Option<int>, t: Targeting, actor: Actor)
    requires UpdateAssignment(db, id, start, end, t, actor).Ok? && Aimed(db, db.assignments[id])
    ensures var after := UpdateAssignment(db, id, start, end, t, actor).value;
            id in after.assignments && after == db.(assignments := db.assignments[id := after.assignments[id]]) && Aimed(db, after.assignments[id])
  {
    hide ResolveTargeting;
    var a := Managed(db, id, actor).value;
    var dated := a.(start := if start.Some? then start.value else a.start, end := if end.Some? then end.value else a.end);
    if t != Targeting(None, None, None, None) {
      var duration := if t.duration.Some? then t.duration else a.duration;
      ResolvedIsAimed(db, dated, Targeting(Merge(t.kind, a.kind), Merge(t.target, a.target), duration, Merge(t.batchIds, a.targets)), actor);
    }
  }

  lemma UpdateAssignmentKeeps(db: Db, id: Id, start: Option<int>, end: Option<int>, t: Targeting, actor: Actor)
    requires Structured(db) && UpdateAssignment(db, id, start, end, t, actor).Ok?
    ensures Structured(UpdateAssignment(db, id, start, end, t, actor).value)
  {
    hide Structured, Aimed, ResolveTargeting;
    StructureAt(db);
    UpdatedIsAimed(db, id, start, end, t, actor);
    AssignmentFits(db, id, UpdateAssignment(db, id, start, end, t, actor).value.assignments[id]);
  }

  lemma TransitionKeeps(db: Db, id: Id, actor: Actor, from: Status, to: Status)
    requires Structured(db) && Transition(db, id, actor, from, to).Ok?
    ensures Structured(Transition(db, id, actor, from, to).value)
  {
    assert Aimed(db, db.assignments[id]);
    AssignmentFits(db, id, Transition(db, id, actor, from, to).value.assignments[id]);
  }

  lemma SeenKeeps(db: Db, id: Id)
    requires Structured(db)
    ensures Structured(Seen(db, id))
  {
    if id in db.assignments {
      assert Aimed(db, db.assignments[id]);
      AssignmentFits(db, id, Aged(db.assignments[id], db.now));
    }
  }

  lemma RemoveAssignmentKeeps(db: Db, id: Id, actor: Actor)
    requires Structured(db) && RemoveAssignment(db, id, actor).Ok?
    ensures Structured(RemoveAssignment(db, id, actor).value)
  {
    var after := RemoveAssignment(db, id, actor).value;
    forall b | b in after.batches ensures Within(after, after.batches[b]) {
      assert Within(db, db.batches[b]);
    }
    forall a | a in after.assignments ensures Aimed(after, after.assignments[a]) {
      assert Aimed(db, db.assignments[a]);
    }
  }

  // ---------------------------------------------------------------- runs

  datatype Step =
    | Tick(ms: nat)
    | NewRoom(dto: NewClassroom, actor: Actor, id: Id)
    | EditRoom(id: Id, studentIds: seq<Id>, graderIds: seq<Id>, professor: Option<Option<Id>>, actor: Actor)
    | DropProfessor(id: Id, actor: Actor)
    | DropStudent(id: Id, user: Id, actor: Actor)
    | DropGrader(id: Id, user: Id, actor: Actor)
    | DropRoom(id: Id, actor: Actor)
    | NewBatch(room: Id, name: string, ids: seq<Id>, actor: Actor, id: Id)
    | EditBatch(room: Id, id: Id, rename: Option<string>, newIds: Option<seq<Id>>, actor: Actor)
    | JoinBatch(room: Id, id: Id, ids: seq<Id>, actor: Actor)
    | LeaveBatch(room: Id, id: Id, user: Id, actor: Actor)
    | DropBatch(room: Id, id: Id, actor: Actor)
    | NewAssignment(room: Id, start: int, end: int, t: Targeting, asDraft: bool, actor: Actor, id: Id)
    | EditAssignment(id: Id, newStart: Option<int>, newEnd: Option<int>, t: Targeting, actor: Actor)
    | Open(id: Id, actor: Actor)
    | Finish(id: Id, actor: Actor)
    | Release(id: Id, actor: Actor)
    | See(id: Id)
    | DropAssignment(id: Id, actor: Actor)

  /** What the step asks for; ids of new rows are fresh. */
  function Attempted(db: Db, step: Step): Result<Db, Reason> {
    match step
    case Tick(ms) => Ok(db.(now := db.now + ms))
    case NewRoom(dto, actor, id) => if id in db.classrooms then Err(NotFound) else CreateClassroom(db, dto, actor, id)
    case EditRoom(id, studentIds, graderIds, professor, actor) => UpdateClassroom(db, id, studentIds, graderIds, professor, actor)
    case DropProfessor(id, actor) => RemoveProfessor(db, id, actor)
    case DropStudent(id, user, actor) => RemoveStudent(db, id, user, actor)
    case DropGrader(id, user, actor) => RemoveGrader(db, id, user, actor)
    case DropRoom(id, actor) => RemoveClassroom(db, id, actor)
    case NewBatch(room, name, ids, actor, id) => if id in db.batches then Err(NotFound) else CreateBatch(db, room, name, ids, actor, id)
    case EditBatch(room, id, name, ids, actor) => UpdateBatch(db, room, id, name, ids, actor)
    case JoinBatch(room, id, ids, actor) => AddToBatch(db, room, id, ids, actor)
    case LeaveBatch(room, id, user, actor) => RemoveFromBatch(db, room, id, user, actor)
    case DropBatch(room, id, actor) => RemoveBatch(db, room, id, actor)
    case NewAssignment(room, start, end, t, asDraft, actor, id) =>
      if id in db.assignments then Err(NotFound) else CreateAssignment(db, room, start, end, t, asDraft, actor, id)
    case EditAssignment(id, start, end, t, actor) => UpdateAssignment(db, id, start, end, t, actor)
    case Open(id, actor) => Publish(db, id, actor)
    case Finish(id, actor) => Complete(db, id, actor)
    case Release(id, actor) => PublishGrades(db, id, actor)
    case See(id) => Ok(Seen(db, id))
    case DropAssignment(id, actor) => RemoveAssignment(db, id, actor)
  }

  /** A refused call on an assignment has already saved the time transition it found due; other refusals change nothing. */
  function RefusedLeaves(db: Db, step: Step): Db {
    match step
    case EditAssignment(id, _, _, _, _) => Seen(db, id)
    case Open(id, _) => Seen(db, id)
    case Finish(id, _) => Seen(db, id)
    case Release(id, _) => Seen(db, id)
    case DropAssignment(id, _) => Seen(db, id)
    case _ => db
  }

  function Apply(db: Db, step: Step): Db {
    match Attempted(db, step)
    case Ok(d) => d
    case Err(_) => RefusedLeaves(db, step)
  }

  function Run(db: Db, steps: seq<Step>): Db {
    if steps == [] then db else Apply(Run(db, steps[..|steps| - 1]), steps[|steps| - 1])
  }

  lemma AttemptedKeeps(db: Db, step: Step)
    requires Structured(db) && Attempted(db, step).Ok?
    ensures Structured(Attempted(db, step).value)
  {
    hide Structured, CreateClassroom, UpdateClassroom, RemoveProfessor, RemoveStudent, RemoveGrader, RemoveClassroom,
      CreateBatch, UpdateBatch, AddToBatch, RemoveFromBatch, RemoveBatch, CreateAssignment, UpdateAssignment, Transition,
      Seen, RemoveAssignment;
    match step
    case Tick(ms) => TickKeeps(db, ms);
    case NewRoom(dto, actor, id) => CreateClassroomKeeps(db, dto, actor, id);
    case EditRoom(id, studentIds, graderIds, professor, actor) => UpdateClassroomKeeps(db, id, studentIds, graderIds, professor, actor);
    case DropProfessor(id, actor) => RemoveProfessorKeeps(db, id, actor);
    case DropStudent(id, user, actor) => RemoveStudentKeeps(db, id, user, actor);
    case DropGrader(id, user, actor) => RemoveGraderKeeps(db, id, user, actor);
    case DropRoom(id, actor) => RemoveClassroomKeeps(db, id, actor);
    case NewBatch(room, name, ids, actor, id) => CreateBatchKeeps(db, room, name, ids, actor, id);
    case EditBatch(room, id, name, ids, actor) => UpdateBatchKeeps(db, room, id, name, ids, actor);
    case JoinBatch(room, id, ids, actor) => AddToBatchKeeps(db, room, id, ids, actor);
    case LeaveBatch(room, id, user, actor) => RemoveFromBatchKeeps(db, room, id, user, actor);
    case DropBatch(room, id, actor) => RemoveBatchKeeps(db, room, id, actor);
    case NewAssignment(room, start, end, t, asDraft, actor, id) => CreateAssignmentKeeps(db, room, start, end, t, asDraft, actor, id);
    case EditAssignment(id, start, end, t, actor) => UpdateAssignmentKeeps(db, id, start, end, t, actor);
    case Open(id, actor) => TransitionKeeps(db, id, actor, Draft, Active);
    case Finish(id, actor) => TransitionKeeps(db, id, actor, Active, Completed);
    case Release(id, actor) => TransitionKeeps(db, id, actor, Completed, GradePublished);
    case See(id) => SeenKeeps(db, id);
    case DropAssignment(id, actor) => RemoveAssignmentKeeps(db, id, actor);
  }

  lemma RefusalKeeps(db: Db, step: Step)
    requires Structured(db)
    ensures Structured(RefusedLeaves(db, step))
  {
    hide Structured, Seen;
    match step
    case EditAssignment(id, _, _, _, _) => SeenKeeps(db, id);
    case Open(id, _) => SeenKeeps(db, id);
    case Finish(id, _) => SeenKeeps(db, id);
    case Release(id, _) => SeenKeeps(db, id);
    case DropAssignment(id, _) => SeenKeeps(db, id);
    case _ =>
  }

  lemma TickKeeps(db: Db, ms: nat)
    requires Structured(db)
    ensures Structured(db.(now := db.now + ms))
  {
    var after := db.(now := db.now + ms);
    forall b | b in after.batches ensures Within(after, after.batches[b]) {
      assert Within(db, db.batches[b]);
    }
    forall a | a in after.assignments ensures Aimed(after, after.assignments[a]) {
      assert Aimed(db, db.assignments[a]);
    }
  }

  /** Over any run of membership, batch and assignment operations the structure holds. */
  lemma {:induction false} StructureOverEveryRun(db: Db, steps: seq<Step>)
    requires Structured(db)
    ensures Structured(Run(db, steps))
  {
    hide Structured, Attempted;
    if steps != [] {
      StructureOverEveryRun(db, steps[..|steps| - 1]);
      var before, step := Run(db, steps[..|steps| - 1]), steps[|steps| - 1];
      if Attempted(before, step).Ok? {
        AttemptedKeeps(before, step);
      } else {
        RefusalKeeps(before, step);
      }
    }
  }

  /** The step removes neither this assignment nor any classroom. */
  predicate Spares(step: Step, id: Id) {
    !step.DropRoom? && !(step.DropAssignment? && step.id == id)
  }

  /** Membership calls leave the assignments alone. */
  lemma RoomsKeepAssignments(db: Db, step: Step)
    requires step.NewRoom? || step.EditRoom? || step.DropProfessor? || step.DropStudent? || step.DropGrader?
    ensures Apply(db, step).assignments == db.assignments
  {
    hide ResolveMembers, WithStudents, WithGraders, WithProfessor, CanManage, SameOrg, Where;
  }

  /** So do batch calls. */
  lemma BatchesKeepAssignments(db: Db, step: Step)
    requires step.NewBatch? || step.EditBatch? || step.JoinBatch? || step.LeaveBatch? || step.DropBatch?
    ensures Apply(db, step).assignments == db.assignments
  {
    hide CanManage, GetBatch, ResolveBatch, NameClash, Where;
  }

  lemma StatusStep(db: Db, step: Step, id: Id)
    requires id in db.assignments && Spares(step, id)
    ensures id in Apply(db, step).assignments
    ensures Stage(db.assignments[id].status) <= Stage(Apply(db, step).assignments[id].status)
  {
    hide CreateClassroom, UpdateClassroom, RemoveProfessor, RemoveStudent, RemoveGrader, RemoveClassroom,
      CreateBatch, UpdateBatch, AddToBatch, RemoveFromBatch, RemoveBatch, UpdateAssignment, StaffOrGrader, ResolveTargeting;
    match step
    case EditAssignment(a, start, end, t, actor) => UpdateKeepsStatus(db, a, start, end, t, actor);
    case NewRoom(_, _, _) => RoomsKeepAssignments(db, step);
    case EditRoom(_, _, _, _, _) => RoomsKeepAssignments(db, step);
    case DropProfessor(_, _) => RoomsKeepAssignments(db, step);
    case DropStudent(_, _, _) => RoomsKeepAssignments(db, step);
    case DropGrader(_, _, _) => RoomsKeepAssignments(db, step);
    case NewBatch(_, _, _, _, _) => BatchesKeepAssignments(db, step);
    case EditBatch(_, _, _, _, _) => BatchesKeepAssignments(db, step);
    case JoinBatch(_, _, _, _) => BatchesKeepAssignments(db, step);
    case LeaveBatch(_, _, _, _) => BatchesKeepAssignments(db, step);
    case DropBatch(_, _, _) => BatchesKeepAssignments(db, step);
    case _ =>
  }

  lemma UpdateKeepsStatus(db: Db, id: Id, start: Option<int>, end: Option<int>, t: Targeting, actor: Actor)
    ensures UpdateAssignment(db, id, start, end, t, actor).Ok? ==>
              var after := UpdateAssignment(db, id, start, end, t, actor).value;
              id in db.assignments && id in after.assignments && after.assignments.Keys == db.assignments.Keys
              && after.assignments[id].status == Aged(db.assignments[id], db.now).status
              && forall a :: a in db.assignments && a != id ==> after.assignments[a] == db.assignments[a]
  {
  }

  /** While an assignment exists its status never goes back: once open it is never hidden again, and released grades stay released. */
  lemma {:induction false} StatusNeverGoesBack(db: Db, steps: seq<Step>, id: Id)
    requires id in db.assignments && forall k :: 0 <= k < |steps| ==> Spares(steps[k], id)
    ensures id in Run(db, steps).assignments
    ensures Stage(db.assignments[id].status) <= Stage(Run(db, steps).assignments[id].status)
  {
    hide Apply;
    if steps != [] {
      StatusNeverGoesBack(db, steps[..|steps| - 1], id);
      StatusStep(Run(db, steps[..|steps| - 1]), steps[|steps| - 1], id);
    }
  }
}
