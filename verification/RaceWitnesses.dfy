/** Interleavings of classroom calls, each call sound alone, that leave the structure broken. */
module RaceWitnesses {
  import opened Common
  import opened Roles
  import opened Schedule
  import opened Tables
  import opened Classrooms
  import opened ClassroomStructure
  import opened ClassroomRaces
  import opened RaceRuns

  lemma RunTakes(w: World, step: RaceStep, rest: seq<RaceStep>)
    ensures ClassroomRaces.Run(w, [step] + rest) == ClassroomRaces.Run(ClassroomRaces.Apply(w, step), rest)
  {
    assert ([step] + rest)[1..] == rest;
  }

  lemma QuietIs(db: Db)
    ensures Quiet(db).db == db && Quiet(db).requests == map[]
  {
  }

  lemma RunEnds(w: World)
    ensures ClassroomRaces.Run(w, []) == w
  {
  }

  /** A call loads without touching a table. */
  lemma Loads(w: World, req: RequestId, call: Step, d: Db)
    requires req !in w.requests && Attempted(w.db, call) == Ok(d) && FreshFor(w, call)
    requires call.EditRoom? || call.DropStudent? || call.JoinBatch? || call.DropBatch? || call.NewAssignment?
    ensures call.NewAssignment? && call.id in d.assignments ==>
              ClassroomRaces.Apply(w, Load(req, call)) == Goes(w, req, Carried(d, call)).(papers := w.papers[call.id := d.assignments[call.id].classroomId])
    ensures !call.NewAssignment? ==> ClassroomRaces.Apply(w, Load(req, call)) == Goes(w, req, Carried(d, call))
    ensures call.EditRoom? && call.id in d.classrooms ==> Carried(d, call) == HoldsRoom(call.id, d.classrooms[call.id], None)
    ensures call.DropStudent? && call.id in d.classrooms ==> Carried(d, call) == HoldsRoom(call.id, d.classrooms[call.id], Some(call.user))
    ensures call.JoinBatch? && call.id in d.batches ==> Carried(d, call) == HoldsBatch(call.id, d.batches[call.id])
    ensures call.NewAssignment? && call.id in d.assignments ==> Carried(d, call) == HoldsAssignment(call.id, d.assignments[call.id])
    ensures call.DropBatch? ==> Carried(d, call) == DeletesBatch(call.id)
  {
    hide Attempted;
  }

  lemma Compares(w: World, req: RequestId, id: Id, room: Classroom, leaver: Option<Id>)
    requires req in w.requests && w.requests[req] == HoldsRoom(id, room, leaver) && id in w.db.classrooms
    ensures ClassroomRaces.Apply(w, Advance(req)) == Goes(w, req, ComparedRoom(id, w.db.classrooms[id], room, leaver))
  {
  }

  lemma NoDuplicateApplies(w: World, p: Phase)
    requires p.ComparedRoom? && p.id in w.db.classrooms && !Duplicates(w.db.classrooms[p.id], DeltaOf(p))
    ensures Applies(w, p)
  {
  }

  lemma Writes(w: World, req: RequestId, id: Id, base: Classroom, goal: Classroom, leaver: Option<Id>)
    requires req in w.requests && w.requests[req] == ComparedRoom(id, base, goal, leaver) && Applies(w, w.requests[req])
    ensures ClassroomRaces.Apply(w, Advance(req))
         == Goes(w.(db := SaveClassroom(w.db, id, Merged(w.db.classrooms[id], Compare(base, goal)))), req, Finished(id, leaver))
  {
    hide Merged, Applies, Compare;
  }

  lemma Strips(w: World, req: RequestId, id: Id, user: Id)
    requires req in w.requests && w.requests[req] == Stripping(id, user)
    ensures ClassroomRaces.Apply(w, Advance(req)) == Goes(w.(db := StripBatches(w.db, id, user)), req, Done)
  {
    hide StripBatches;
  }

  lemma SavesBatch(w: World, req: RequestId, id: Id, b: Batch)
    requires req in w.requests && w.requests[req] == HoldsBatch(id, b) && BatchSaves(w, w.requests[req])
    ensures ClassroomRaces.Apply(w, Advance(req)) == Goes(w.(db := SaveBatch(w.db, id, b)), req, Done)
  {
    hide BatchSaves;
  }

  lemma DeletesTheBatch(w: World, req: RequestId, id: Id)
    requires req in w.requests && w.requests[req] == DeletesBatch(id)
    ensures ClassroomRaces.Apply(w, Advance(req)) == Goes(w.(db := BatchDeleted(w.db, id)), req, Done)
  {
    hide BatchDeleted;
  }

  lemma SavesAssignment(w: World, req: RequestId, id: Id, a: Assignment)
    requires req in w.requests && w.requests[req] == HoldsAssignment(id, a) && AssignmentSaves(w, w.requests[req])
    ensures ClassroomRaces.Apply(w, Advance(req)) == Goes(w.(db := w.db.(assignments := w.db.assignments[id := a])), req, Done)
  {
    hide AssignmentSaves;
  }

  // ---------------------------------------------------------------- one user on both sides

  /** A user of the directory who may be put on either side of the classroom. */
  predicate Outsider(db: Db, id: Id, u: Id, actor: Actor) {
    && id in db.classrooms && CanManage(actor, db.classrooms[id]) && DirectoryOpen(actor)
    && IsStudent(db, u) && SameOrg(actor, db.users[u].org)
    && u !in db.classrooms[id].students && u !in db.classrooms[id].graders
  }

  lemma LoadsOne(db: Db, u: Id, actor: Actor)
    requires DirectoryOpen(actor) && IsStudent(db, u) && SameOrg(actor, db.users[u].org)
    ensures LoadUsers(db, [u], actor) == Ok([u])
  {
    assert [u][..0] == [];
    assert Dedup([u]) == [u];
    assert Where([u], Known(db)) == [u];
  }

  lemma AddsOne(xs: seq<Id>, u: Id)
    requires u !in xs
    ensures AddAll(xs, [u]) == xs + [u]
  {
    assert [u][..0] == [];
    assert Where([u], NotIn(xs)) == [u];
  }

  function AsStudent(c: Classroom, u: Id): Classroom { Totalled(c.(students := c.students + [u])) }

  function AsGrader(c: Classroom, u: Id): Classroom { Totalled(c.(graders := c.graders + [u])) }

  lemma EditingInOne(db: Db, id: Id, u: Id, actor: Actor)
    requires Outsider(db, id, u, actor)
    ensures Attempted(db, EditRoom(id, [u], [], None, actor)) == Ok(SaveClassroom(db, id, AsStudent(db.classrooms[id], u)))
    ensures Attempted(db, EditRoom(id, [], [u], None, actor)) == Ok(SaveClassroom(db, id, AsGrader(db.classrooms[id], u)))
  {
    hide LoadUsers, CanManage, SameOrg, DirectoryOpen;
    var c := db.classrooms[id];
    LoadsOne(db, u, actor);
    AddsOne(c.students, u);
    AddsOne(c.graders, u);
    AddsNone(c.students);
    AddsNone(c.graders);
    assert GraderRefusal(db, c, [u]) == None;
    assert GraderRefusal(db, c.(students := c.students + [u]), []) == None;
  }

  lemma AddsNone(xs: seq<Id>)
    ensures AddAll(xs, []) == xs
  {
    assert Where([], NotIn(xs)) == [];
    assert xs + [] == xs;
  }

  lemma {:induction false} AllStay(xs: seq<Id>)
    ensures Where(xs, NotIn([])) == xs
  {
    if xs != [] {
      AllStay(xs[..|xs| - 1]);
    }
  }

  lemma OneNew(xs: seq<Id>, u: Id)
    requires u !in xs
    ensures Where(xs + [u], NotIn(xs)) == [u] && Where(xs, NotIn(xs + [u])) == []
  {
    NothingNew(xs, xs);
    NothingNew(xs, xs + [u]);
    assert (xs + [u])[..|xs|] == xs;
  }

  lemma ComparingOneAddition(c: Classroom, u: Id)
    requires u !in c.students && u !in c.graders && c.totalUsers == |c.students| + |c.graders| + Head(c.professor)
    ensures Compare(c, AsStudent(c, u)) == Delta([u], [], [], [], None, Some(c.totalUsers + 1))
    ensures Compare(c, AsGrader(c, u)) == Delta([], [], [u], [], None, Some(c.totalUsers + 1))
  {
    hide Where, NotIn;
    OneNew(c.students, u);
    OneNew(c.graders, u);
    NothingNew(c.students, c.students);
    NothingNew(c.graders, c.graders);
  }

  /** What the second of the two comparisons finds when it is applied. */
  function OnBothSides(c: Classroom, u: Id): Classroom {
    c.(students := c.students + [u], graders := c.graders + [u], totalUsers := c.totalUsers + 1)
  }

  lemma ApplyingBoth(c: Classroom, u: Id)
    requires u !in c.students && u !in c.graders && c.totalUsers == |c.students| + |c.graders| + Head(c.professor)
    ensures Merged(Merged(c, Compare(c, AsStudent(c, u))), Compare(c, AsGrader(c, u))) == OnBothSides(c, u)
    ensures !Duplicates(c, Compare(c, AsStudent(c, u)))
    ensures !Duplicates(Merged(c, Compare(c, AsStudent(c, u))), Compare(c, AsGrader(c, u)))
  {
    hide Where, NotIn, Compare, AsStudent, AsGrader;
    ComparingOneAddition(c, u);
    AllStay(c.students);
    AllStay(c.graders);
    AllStay(c.students + [u]);
    assert c.students + [u] + [] == c.students + [u];
    assert c.graders + [] == c.graders;
  }

  /** Two updates load, two saves compare, two saves write. */
  function BothUpdates(first: Step, second: Step, a: RequestId, b: RequestId): seq<RaceStep> {
    [Load(a, first)] + ([Load(b, second)] + ([Advance(a)] + ([Advance(b)] + ([Advance(a)] + ([Advance(b)] + [])))))
  }

  /** What such a run leaves: the second comparison applied to what the first one made of the row. */
  lemma OverlappingUpdates(db: Db, id: Id, first: Step, second: Step, x: Classroom, y: Classroom, a: RequestId, b: RequestId)
    requires id in db.classrooms && a != b && first.EditRoom? && second.EditRoom? && first.id == id && second.id == id
    requires Attempted(db, first) == Ok(SaveClassroom(db, id, x)) && Attempted(db, second) == Ok(SaveClassroom(db, id, y))
    requires var c := db.classrooms[id];
             !Duplicates(c, Compare(c, x)) && !Duplicates(Merged(c, Compare(c, x)), Compare(c, y))
    ensures var after := ClassroomRaces.Run(Quiet(db), BothUpdates(first, second, a, b)); var c := db.classrooms[id];
            && after.requests == map[a := Done, b := Done]
            && after.db == SaveClassroom(db, id, Merged(Merged(c, Compare(c, x)), Compare(c, y)))
  {
    hide Attempted, Compare, Merged, Duplicates, Quiet, ClassroomRaces.Apply, ClassroomRaces.Run, Carried, BothUpdates;
    QuietIs(db);
    var c := db.classrooms[id];
    var w0 := Quiet(db);
    var w1 := Goes(w0, a, HoldsRoom(id, x, None));
    var w2 := Goes(w1, b, HoldsRoom(id, y, None));
    Loads(w0, a, first, SaveClassroom(db, id, x));
    assert ClassroomRaces.Apply(w0, Load(a, first)) == w1;
    Loads(w1, b, second, SaveClassroom(db, id, y));
    assert ClassroomRaces.Apply(w1, Load(b, second)) == w2;
    OverlappingSaves(w2, id, x, y, a, b);
    var w3 := ClassroomRaces.Apply(w2, Advance(a));
    var w4 := ClassroomRaces.Apply(w3, Advance(b));
    var w5 := ClassroomRaces.Apply(w4, Advance(a));
    var w6 := ClassroomRaces.Apply(w5, Advance(b));
    TakesSix(w0, w1, w2, w3, w4, w5, w6, Load(a, first), Load(b, second), Advance(a), Advance(b), Advance(a), Advance(b));
    assert BothUpdates(first, second, a, b) == [Load(a, first)] + ([Load(b, second)] + ([Advance(a)] + ([Advance(b)] + ([Advance(a)] + ([Advance(b)] + []))))) by {
      BothUpdatesAre(first, second, a, b);
    }
    assert w6.requests == map[a := Done, b := Done];
  }

  lemma BothUpdatesAre(first: Step, second: Step, a: RequestId, b: RequestId)
    ensures BothUpdates(first, second, a, b)
         == [Load(a, first)] + ([Load(b, second)] + ([Advance(a)] + ([Advance(b)] + ([Advance(a)] + ([Advance(b)] + [])))))
  {
  }

  lemma OverlappingSaves(w: World, id: Id, x: Classroom, y: Classroom, a: RequestId, b: RequestId)
    requires id in w.db.classrooms && a != b && a in w.requests && b in w.requests
    requires w.requests[a] == HoldsRoom(id, x, None) && w.requests[b] == HoldsRoom(id, y, None)
    requires var c := w.db.classrooms[id]; !Duplicates(c, Compare(c, x)) && !Duplicates(Merged(c, Compare(c, x)), Compare(c, y))
    ensures var w3 := ClassroomRaces.Apply(w, Advance(a)); var w4 := ClassroomRaces.Apply(w3, Advance(b));
            var w5 := ClassroomRaces.Apply(w4, Advance(a)); var after := ClassroomRaces.Apply(w5, Advance(b)); var c := w.db.classrooms[id];
            && after.requests == w.requests[a := Done][b := Done]
            && after.db == SaveClassroom(w.db, id, Merged(Merged(c, Compare(c, x)), Compare(c, y)))
  {
    hide Compare, Merged, Duplicates, Applies, ClassroomRaces.Apply;
    var c := w.db.classrooms[id];
    Compares(w, a, id, x, None);
    var w3 := ClassroomRaces.Apply(w, Advance(a));
    Compares(w3, b, id, y, None);
    var w4 := ClassroomRaces.Apply(w3, Advance(b));
    NoDuplicateApplies(w4, w4.requests[a]);
    Writes(w4, a, id, c, x, None);
    var w5 := ClassroomRaces.Apply(w4, Advance(a));
    NoDuplicateApplies(w5, w5.requests[b]);
    Writes(w5, b, id, c, y, None);
    assert w.requests[a := ComparedRoom(id, c, x, None)][b := ComparedRoom(id, c, y, None)][a := Done][b := Done] == w.requests[a := Done][b := Done];
  }

  /** Neither update finds the user on the other side, and the user ends on both, counted once. */
  lemma TwoUpdatesPutOneUserOnBothSides(db: Db, id: Id, u: Id, actor: Actor, a: RequestId, b: RequestId)
    requires Structured(db) && Outsider(db, id, u, actor) && a != b
    ensures var after := ClassroomRaces.Run(Quiet(db), BothUpdates(EditRoom(id, [u], [], None, actor), EditRoom(id, [], [u], None, actor), a, b));
            && after.requests == map[a := Done, b := Done]
            && after.db == SaveClassroom(db, id, OnBothSides(db.classrooms[id], u))
            && !Structured(after.db)
  {
    hide Outsider, Attempted, Compare, Merged, Duplicates, Structured, OnBothSides, AsStudent, AsGrader, BothUpdates, ClassroomRaces.Run;
    OutsiderOf(db, id, u, actor);
    var c := db.classrooms[id];
    EditingInOne(db, id, u, actor);
    ApplyingBoth(c, u);
    OverlappingUpdates(db, id, EditRoom(id, [u], [], None, actor), EditRoom(id, [], [u], None, actor), AsStudent(c, u), AsGrader(c, u), a, b);
    BothSidesBreaks(SaveClassroom(db, id, OnBothSides(c, u)), id, c, u);
  }

  // ---------------------------------------------------------------- a count one short

  function Enrolled(c: Classroom, u: Id, v: Id): Classroom {
    c.(students := c.students + [u] + [v], totalUsers := c.totalUsers + 1)
  }

  lemma ApplyingTwoEnrolments(c: Classroom, u: Id, v: Id)
    requires u != v && u !in c.students && u !in c.graders && v !in c.students && v !in c.graders
    requires c.totalUsers == |c.students| + |c.graders| + Head(c.professor)
    ensures Merged(Merged(c, Compare(c, AsStudent(c, u))), Compare(c, AsStudent(c, v))) == Enrolled(c, u, v)
    ensures !Duplicates(c, Compare(c, AsStudent(c, u)))
    ensures !Duplicates(Merged(c, Compare(c, AsStudent(c, u))), Compare(c, AsStudent(c, v)))
  {
    hide Where, NotIn, Compare, AsStudent, AsGrader;
    ComparingOneAddition(c, u);
    ComparingOneAddition(c, v);
    AllStay(c.students);
    AllStay(c.graders);
    AllStay(c.students + [u]);
    assert c.students + [u] + [] == c.students + [u];
    assert c.graders + [] == c.graders;
  }

  /** Two overlapping updates that each enrol one more student: both are in, and counted as one. */
  lemma TwoEnrolmentsLeaveTheCountShort(db: Db, id: Id, u: Id, v: Id, actor: Actor, a: RequestId, b: RequestId)
    requires Structured(db) && Outsider(db, id, u, actor) && Outsider(db, id, v, actor) && u != v && a != b
    ensures var after := ClassroomRaces.Run(Quiet(db), BothUpdates(EditRoom(id, [u], [], None, actor), EditRoom(id, [v], [], None, actor), a, b));
            && after.requests == map[a := Done, b := Done]
            && after.db == SaveClassroom(db, id, Enrolled(db.classrooms[id], u, v))
            && !Structured(after.db)
  {
    hide Outsider, Attempted, Compare, Merged, Duplicates, Structured, Enrolled, AsStudent, AsGrader, BothUpdates, ClassroomRaces.Run;
    OutsiderOf(db, id, u, actor);
    OutsiderOf(db, id, v, actor);
    var c := db.classrooms[id];
    EditingInOne(db, id, u, actor);
    EditingInOne(db, id, v, actor);
    ApplyingTwoEnrolments(c, u, v);
    OverlappingUpdates(db, id, EditRoom(id, [u], [], None, actor), EditRoom(id, [v], [], None, actor), AsStudent(c, u), AsStudent(c, v), a, b);
    ShortCountBreaks(SaveClassroom(db, id, Enrolled(c, u, v)), id, c, u, v);
  }

  lemma ShortCountBreaks(db: Db, id: Id, c: Classroom, u: Id, v: Id)
    requires id in db.classrooms && db.classrooms[id] == Enrolled(c, u, v)
    requires c.totalUsers == |c.students| + |c.graders| + Head(c.professor)
    ensures !Structured(db)
  {
    assert !Sorted(db.classrooms[id]);
  }

  lemma OutsiderOf(db: Db, id: Id, u: Id, actor: Actor)
    requires Structured(db) && Outsider(db, id, u, actor)
    ensures id in db.classrooms && Quiet(db).db == db && Quiet(db).requests == map[]
    ensures var c := db.classrooms[id]; u !in c.students && u !in c.graders && c.totalUsers == |c.students| + |c.graders| + Head(c.professor)
  {
    StructureAt(db);
  }

  lemma BothSidesBreaks(db: Db, id: Id, c: Classroom, u: Id)
    requires id in db.classrooms && db.classrooms[id] == OnBothSides(c, u)
    ensures !Structured(db)
  {
    var both := db.classrooms[id];
    assert both.students[|c.students|] == u && both.graders[|c.graders|] == u;
    assert u in both.students && u in both.graders;
    if Structured(db) {
      StructureAt(db);
      assert false;
    }
  }

  // ---------------------------------------------------------------- a batch outside its classroom

  /** Enrolling one student in a batch loads; the student leaves the classroom, batch rows and all; then the enrolment saves. */
  function LeaveWhileJoining(room: Id, batch: Id, u: Id, actor: Actor, a: RequestId, b: RequestId): seq<RaceStep> {
    [Load(a, JoinBatch(room, batch, [u], actor))] + ([Load(b, DropStudent(room, u, actor))]
    + ([Advance(b)] + ([Advance(b)] + ([Advance(b)] + ([Advance(a)] + [])))))
  }

  /** Enrolled, and not yet in the batch. */
  predicate Joinable(db: Db, room: Id, batch: Id, u: Id, actor: Actor) {
    && room in db.classrooms && batch in db.batches && db.batches[batch].classroomId == room
    && CanManage(actor, db.classrooms[room]) && u in db.classrooms[room].students && u !in db.batches[batch].students
  }

  function Left(c: Classroom, u: Id): Classroom { Totalled(c.(students := Where(c.students, Without(u)))) }

  lemma JoiningAndLeaving(db: Db, room: Id, batch: Id, u: Id, actor: Actor)
    requires Joinable(db, room, batch, u, actor)
    ensures var joined := db.batches[batch].(students := db.batches[batch].students + [u]);
            Attempted(db, JoinBatch(room, batch, [u], actor)) == Ok(SaveBatch(db, batch, joined))
    ensures Attempted(db, DropStudent(room, u, actor)).Ok?
    ensures var d := Attempted(db, DropStudent(room, u, actor)).value; room in d.classrooms && d.classrooms[room] == Left(db.classrooms[room], u)
  {
    AddsOne(db.batches[batch].students, u);
    assert [u][..0] == [];
    assert Dedup([u]) == [u];
  }

  lemma ComparingOneDeparture(c: Classroom, u: Id)
    requires Sorted(c) && u in c.students
    ensures Compare(c, Left(c, u)) == Delta([], Compare(c, Left(c, u)).dropStudents, [], [], None, Compare(c, Left(c, u)).total)
    ensures u in Compare(c, Left(c, u)).dropStudents
    ensures u !in Merged(c, Compare(c, Left(c, u))).students
    ensures !Duplicates(c, Compare(c, Left(c, u)))
  {
    WhereMembers(c.students, Without(u));
    NothingNew(Left(c, u).students, c.students);
    NothingNew(c.graders, c.graders);
    WhereMembers(c.students, NotIn(Left(c, u).students));
    var d := Compare(c, Left(c, u));
    WhereMembers(c.students, NotIn(d.dropStudents));
  }

  /** The batch ends with a student its classroom no longer has. */
  lemma LeavingWhileJoiningLeavesABatchOutside(db: Db, room: Id, batch: Id, u: Id, actor: Actor, a: RequestId, b: RequestId)
    requires Structured(db) && Joinable(db, room, batch, u, actor) && a != b
    ensures var after := ClassroomRaces.Run(Quiet(db), LeaveWhileJoining(room, batch, u, actor, a, b));
            && after.requests[a := Done] == after.requests && after.requests[b := Done] == after.requests
            && room in after.db.classrooms && u !in after.db.classrooms[room].students
            && batch in after.db.batches && after.db.batches[batch].classroomId == room && u in after.db.batches[batch].students
            && !Structured(after.db)
  {
    hide Attempted, Structured, Left, Sorted, Joinable, Quiet, NamesApart, ClassroomRaces.Apply, ClassroomRaces.Run, Carried;
    JoinableMeans(db, room, batch, u, actor);
    var c, held := db.classrooms[room], db.batches[batch];
    var joined := held.(students := held.students + [u]);
    JoiningAndLeaving(db, room, batch, u, actor);
    var join, drop := JoinBatch(room, batch, [u], actor), DropStudent(room, u, actor);
    var w0 := Quiet(db);
    var w1 := Goes(w0, a, HoldsBatch(batch, joined));
    var w2 := Goes(w1, b, HoldsRoom(room, Left(c, u), Some(u)));
    Loads(w0, a, join, SaveBatch(db, batch, joined));
    Loads(w1, b, drop, Attempted(db, drop).value);
    LeaveThenJoin(w2, a, b, room, batch, u, joined);
    var w3 := ClassroomRaces.Apply(w2, Advance(b));
    var w4 := ClassroomRaces.Apply(w3, Advance(b));
    var w5 := ClassroomRaces.Apply(w4, Advance(b));
    var w6 := ClassroomRaces.Apply(w5, Advance(a));
    TakesSix(w0, w1, w2, w3, w4, w5, w6, Load(a, join), Load(b, drop), Advance(b), Advance(b), Advance(b), Advance(a));
    assert joined.students[|held.students|] == u;
    OutsideBreaks(w6.db, room, batch, u);
  }

  lemma LeaveThenJoin(w: World, a: RequestId, b: RequestId, room: Id, batch: Id, u: Id, joined: Batch)
    requires a != b && a in w.requests && w.requests[a] == HoldsBatch(batch, joined) && NamesApart(w.db)
    requires room in w.db.classrooms && Sorted(w.db.classrooms[room]) && u in w.db.classrooms[room].students
    requires b in w.requests && w.requests[b] == HoldsRoom(room, Left(w.db.classrooms[room], u), Some(u))
    requires batch in w.db.batches && joined.classroomId == room == w.db.batches[batch].classroomId && joined.name == w.db.batches[batch].name
    ensures var w3 := ClassroomRaces.Apply(w, Advance(b)); var w4 := ClassroomRaces.Apply(w3, Advance(b));
            var w5 := ClassroomRaces.Apply(w4, Advance(b)); var after := ClassroomRaces.Apply(w5, Advance(a));
            && after.requests[a := Done] == after.requests && after.requests[b := Done] == after.requests
            && room in after.db.classrooms && u !in after.db.classrooms[room].students
            && batch in after.db.batches && after.db.batches[batch] == joined
  {
    hide Compare, Merged, Left, Sorted, NameClash, Duplicates, StripBatches, BatchSaves, Applies, ClassroomRaces.Apply, NamesApart;
    var c := w.db.classrooms[room];
    ComparingOneDeparture(c, u);
    Compares(w, b, room, Left(c, u), Some(u));
    var w3 := ClassroomRaces.Apply(w, Advance(b));
    NoDuplicateApplies(w3, w3.requests[b]);
    Writes(w3, b, room, c, Left(c, u), Some(u));
    var w4 := ClassroomRaces.Apply(w3, Advance(b));
    Strips(w4, b, room, u);
    var w5 := ClassroomRaces.Apply(w4, Advance(b));
    StripKeepsNames(w4.db, room, u);
    NameStillFree(w.db, w5.db, batch);
    JoinedSaves(w5, a, batch, joined);
    SavesBatch(w5, a, batch, joined);
  }

  lemma OutsideBreaks(db: Db, room: Id, batch: Id, u: Id)
    requires room in db.classrooms && u !in db.classrooms[room].students
    requires batch in db.batches && db.batches[batch].classroomId == room && u in db.batches[batch].students
    ensures !Structured(db)
  {
    assert !Within(db, db.batches[batch]);
  }

  lemma JoinableMeans(db: Db, room: Id, batch: Id, u: Id, actor: Actor)
    requires Structured(db) && Joinable(db, room, batch, u, actor)
    ensures room in db.classrooms && Sorted(db.classrooms[room]) && u in db.classrooms[room].students
    ensures batch in db.batches && db.batches[batch].classroomId == room && NamesApart(db)
    ensures Quiet(db).db == db && Quiet(db).requests == map[]
  {
    StructureAt(db);
  }

  lemma StripKeepsNames(db: Db, room: Id, u: Id)
    ensures var after := StripBatches(db, room, u);
            && after.classrooms == db.classrooms && after.batches.Keys == db.batches.Keys
            && forall b :: b in after.batches ==>
                 after.batches[b].name == db.batches[b].name && after.batches[b].classroomId == db.batches[b].classroomId
  {
  }

  lemma JoinedSaves(w: World, req: RequestId, batch: Id, joined: Batch)
    requires req in w.requests && w.requests[req] == HoldsBatch(batch, joined)
    requires joined.classroomId in w.db.classrooms && !NameClash(w.db, joined.classroomId, joined.name, Some(batch))
    ensures BatchSaves(w, w.requests[req])
  {
    hide NameClash;
  }

  lemma TakesSix(w0: World, w1: World, w2: World, w3: World, w4: World, w5: World, w6: World,
                 s0: RaceStep, s1: RaceStep, s2: RaceStep, s3: RaceStep, s4: RaceStep, s5: RaceStep)
    requires ClassroomRaces.Apply(w0, s0) == w1 && ClassroomRaces.Apply(w1, s1) == w2 && ClassroomRaces.Apply(w2, s2) == w3
    requires ClassroomRaces.Apply(w3, s3) == w4 && ClassroomRaces.Apply(w4, s4) == w5 && ClassroomRaces.Apply(w5, s5) == w6
    ensures ClassroomRaces.Run(w0, [s0] + ([s1] + ([s2] + ([s3] + ([s4] + ([s5] + [])))))) == w6
  {
    hide ClassroomRaces.Apply, ClassroomRaces.Run;
    RunTakes(w0, s0, [s1] + ([s2] + ([s3] + ([s4] + ([s5] + [])))));
    RunTakes(w1, s1, [s2] + ([s3] + ([s4] + ([s5] + []))));
    RunTakes(w2, s2, [s3] + ([s4] + ([s5] + [])));
    RunTakes(w3, s3, [s4] + ([s5] + []));
    RunTakes(w4, s4, [s5] + []);
    RunTakes(w5, s5, []);
    RunEnds(w6);
  }

  /** A batch keeps its own name when no other batch is renamed. */
  lemma NameStillFree(db: Db, after: Db, batch: Id)
    requires NamesApart(db) && batch in db.batches
    requires forall b :: b in after.batches ==> b in db.batches
    requires forall b :: b in after.batches ==>
      after.batches[b].name == db.batches[b].name && after.batches[b].classroomId == db.batches[b].classroomId
    ensures !NameClash(after, db.batches[batch].classroomId, db.batches[batch].name, Some(batch))
  {
  }

  // ---------------------------------------------------------------- a target batch gone

  /** Deleting a batch nobody targets checks; an assignment targeting it is created; then the delete runs. */
  function TargetWhileDeleting(room: Id, batch: Id, start: int, end: int, actor: Actor, id: Id, a: RequestId, b: RequestId): seq<RaceStep> {
    [Load(a, DropBatch(room, batch, actor))]
    + ([Load(b, NewAssignment(room, start, end, Targeting(None, Some(ToBatches), None, Some({batch})), false, actor, id))]
    + ([Advance(b)] + ([Advance(a)] + [])))
  }

  predicate Untargeted(db: Db, room: Id, batch: Id, actor: Actor) {
    && room in db.classrooms && batch in db.batches && db.batches[batch].classroomId == room
    && CanManage(actor, db.classrooms[room]) && StaffOrGrader(actor, db.classrooms[room]) && SameOrg(actor, Some(db.classrooms[room].org))
    && (forall x :: x in db.assignments ==> batch !in db.assignments[x].targets)
  }

  function ForBatch(db: Db, room: Id, batch: Id, start: int, end: int, actor: Actor): Assignment
    requires room in db.classrooms
  {
    Assignment(room, db.classrooms[room].org, actor.id, Scheduled, start, end, Plain, None, ToBatches, {batch})
  }

  lemma DeletingAndTargeting(db: Db, room: Id, batch: Id, start: int, end: int, actor: Actor, id: Id)
    requires Untargeted(db, room, batch, actor) && start < end && id !in db.assignments
    ensures Attempted(db, DropBatch(room, batch, actor)).Ok?
    ensures var t := Targeting(None, Some(ToBatches), None, Some({batch}));
            Attempted(db, NewAssignment(room, start, end, t, false, actor, id))
              == Ok(db.(assignments := db.assignments[id := ForBatch(db, room, batch, start, end, actor)]))
  {
    hide CanManage, StaffOrGrader, SameOrg;
    assert batch in {batch};
  }

  /** The assignment ends targeted at batches, with none. */
  lemma TargetingWhileDeletingLeavesNoTarget(
    db: Db, room: Id, batch: Id, start: int, end: int, actor: Actor, id: Id, a: RequestId, b: RequestId)
    requires Structured(db) && Untargeted(db, room, batch, actor) && start < end && id !in db.assignments && a != b
    ensures var after := ClassroomRaces.Run(Quiet(db), TargetWhileDeleting(room, batch, start, end, actor, id, a, b));
            && after.requests[a := Done] == after.requests && after.requests[b := Done] == after.requests
            && id in after.db.assignments && after.db.assignments[id].target == ToBatches && after.db.assignments[id].targets == {}
            && !Structured(after.db)
  {
    hide CanManage, StaffOrGrader, SameOrg, Attempted, Structured;
    hide ClassroomRaces.Apply, ClassroomRaces.Run, Carried;
    DeletingAndTargeting(db, room, batch, start, end, actor, id);
    var t := Targeting(None, Some(ToBatches), None, Some({batch}));
    var drop, create := DropBatch(room, batch, actor), NewAssignment(room, start, end, t, false, actor, id);
    var aimed := ForBatch(db, room, batch, start, end, actor);
    var w0 := Quiet(db);
    var w1 := Goes(w0, a, DeletesBatch(batch));
    var w2 := Goes(w1, b, HoldsAssignment(id, aimed)).(papers := w1.papers[id := room]);
    var w3 := Goes(w2.(db := db.(assignments := db.assignments[id := aimed])), b, Done);
    var w4 := Goes(w3.(db := BatchDeleted(w3.db, batch)), a, Done);
    Loads(w0, a, drop, Attempted(db, drop).value);
    Loads(w1, b, create, db.(assignments := db.assignments[id := aimed]));
    SavesAssignment(w2, b, id, aimed);
    DeletesTheBatch(w3, a, batch);
    RunTakes(w0, Load(a, drop), [Load(b, create)] + ([Advance(b)] + ([Advance(a)] + [])));
    RunTakes(w1, Load(b, create), [Advance(b)] + ([Advance(a)] + []));
    RunTakes(w2, Advance(b), [Advance(a)] + []);
    RunTakes(w3, Advance(a), []);
    RunEnds(w4);
    assert w4.db.assignments[id] == aimed.(targets := {batch} - {batch});
    assert aimed.targets - {batch} == {};
    NoTargetBreaks(w4.db, id);
  }

  lemma NoTargetBreaks(db: Db, id: Id)
    requires id in db.assignments && db.assignments[id].target == ToBatches && db.assignments[id].targets == {}
    ensures !Structured(db)
  {
    assert !Aimed(db, db.assignments[id]);
  }
}
