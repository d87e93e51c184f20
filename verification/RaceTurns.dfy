/**
 Calls that take turns: no step changes the rows of a classroom that another call is still
 working on. Then every save finds what its guard asks for, and nothing goes wrong.
 */
module RaceTurns {
  import opened Common
  import opened Roles
  import opened Schedule
  import opened Tables
  import opened Classrooms
  import opened ClassroomStructure
  import opened ClassroomRaces
  import opened RaceRuns

  /** A classroom, its batches and its assignments are the same in both. */
  ghost predicate SameRoom(x: Db, y: Db, c: Id) {
    && (c in x.classrooms <==> c in y.classrooms) && (c in x.classrooms ==> x.classrooms[c] == y.classrooms[c])
    && (forall b :: b in x.batches && x.batches[b].classroomId == c ==> b in y.batches && y.batches[b] == x.batches[b])
    && (forall b :: b in y.batches && y.batches[b].classroomId == c ==> b in x.batches && y.batches[b] == x.batches[b])
    && (forall a :: a in x.assignments && x.assignments[a].classroomId == c ==> a in y.assignments && y.assignments[a] == x.assignments[a])
    && (forall a :: a in y.assignments && y.assignments[a].classroomId == c ==> a in x.assignments && y.assignments[a] == x.assignments[a])
  }

  /** The call has loaded rows of this classroom and not finished with them. */
  predicate WorksOn(w: World, p: Phase, c: Id) {
    match p
    case HoldsRoom(id, _, _) => id == c
    case ComparedRoom(id, _, _, _) => id == c
    case Stripping(id, _) => id == c
    case HoldsBatch(_, b) => b.classroomId == c
    case DeletesBatch(id) => id in w.homes && w.homes[id] == c
    case HoldsAssignment(_, a) => a.classroomId == c
    case HoldsRefresh(rows, _, _) => exists id :: id in rows && rows[id].classroomId == c
    case Resumes(call) => OnAssignment(call) && call.id in w.papers && w.papers[call.id] == c
    case DeletesRoom(id) => id == c
    case DeletesAssignment(id) => id in w.papers && w.papers[id] == c
    case _ => false
  }

  ghost predicate TakesTurns(w: World, step: RaceStep) {
    forall r, c :: r in w.requests && WorksOn(w, w.requests[r], c) && step != Advance(r) ==> SameRoom(w.db, ClassroomRaces.Apply(w, step).db, c)
  }

  ghost predicate TurnsTaken(w: World, steps: seq<RaceStep>)
    decreases |steps|
  {
    steps == [] || (TakesTurns(w, steps[0]) && TurnsTaken(ClassroomRaces.Apply(w, steps[0]), steps[1..]))
  }

  // ---------------------------------------------------------------- what a call loaded still stands

  ghost predicate Current(w: World, p: Phase) {
    match p
    case HoldsRoom(id, room, leaver) =>
      id in w.db.classrooms ==> forall u :: u in w.db.classrooms[id].students && u !in room.students ==> leaver == Some(u)
    case ComparedRoom(id, base, goal, leaver) =>
      id in w.db.classrooms ==> w.db.classrooms[id] == base && forall u :: u in base.students && u !in goal.students ==> leaver == Some(u)
    case HoldsBatch(id, b) =>
      b.classroomId in w.db.classrooms ==>
        forall u :: u in b.students ==>
          u in w.db.classrooms[b.classroomId].students
          || (Excused(w.requests, b.classroomId, u) && id in w.db.batches && u in w.db.batches[id].students)
    case DeletesBatch(id) => NobodysOnlyTarget(w.db, id)
    case HoldsAssignment(id, a) => id in w.db.assignments ==> Stage(w.db.assignments[id].status) <= Stage(a.status)
    case HoldsRefresh(rows, _, _) =>
      forall id :: id in rows ==> id in w.db.assignments && Behind(w.db.assignments[id], rows[id])
    case _ => true
  }

  /** Refreshing did not change the kind of target and did not go back. */
  predicate Behind(stored: Assignment, held: Assignment) {
    held.target == stored.target && Stage(stored.status) <= Stage(held.status)
  }

  ghost predicate AllCurrent(w: World) {
    forall r :: r in w.requests ==> Current(w, w.requests[r])
  }

  // ---------------------------------------------------------------- a current call is safe

  lemma CurrentIsSafe(w: World, req: RequestId)
    requires Sound(w) && AllCurrent(w)
    ensures Safe(w, Advance(req))
  {
    hide Sorted, WellAimed, BatchHome, Compare, NobodysOnlyTarget, Applies, CountFits, NoCrossing;
    if req in w.requests {
      assert Current(w, w.requests[req]) && PhaseSound(w, w.requests[req]);
      match w.requests[req]
      case ComparedRoom(id, base, goal, leaver) =>
        if Applies(w, w.requests[req]) {
          AppliesHere(w, w.requests[req]);
          FreshComparisonGivesTheEditedRow(base, goal);
          NobodyOrphaned(w, req);
        }
      case HoldsRefresh(rows, _, _) =>
        forall a | a in rows ensures TargetsFit(w.db, a, rows[a]) {
          BehindFits(w, a, rows[a]);
        }
      case _ =>
    }
  }

  lemma AppliesHere(w: World, p: Phase)
    requires p.ComparedRoom? && Applies(w, p)
    ensures p.id in w.db.classrooms
  {
  }

  lemma NobodyOrphaned(w: World, req: RequestId)
    requires req in w.requests && w.requests[req].ComparedRoom? && PhaseSound(w, w.requests[req]) && Current(w, w.requests[req])
    requires w.requests[req].id in w.db.classrooms
    ensures NoOrphans(w, w.requests[req])
  {
    hide Compare;
    var p := w.requests[req];
    ComparedIsSound(p.base, p.goal);
  }

  lemma BehindFits(w: World, id: Id, row: Assignment)
    requires AssignmentsSound(w) && id in w.db.assignments && Behind(w.db.assignments[id], row)
    ensures TargetsFit(w.db, id, row)
  {
    assert WellAimed(w, w.db.assignments[id]);
  }

  /** And it takes no status back. */
  lemma CurrentTakesNothingBack(w: World, step: RaceStep, id: Id)
    requires AllCurrent(w)
    ensures !TakesBack(w, step, id)
  {
    hide AssignmentSaves, RefreshSaves;
    if step.Advance? && step.req in w.requests {
      assert Current(w, w.requests[step.req]);
    }
  }

  // ---------------------------------------------------------------- loading

  /** What a call has just loaded stands. */
  lemma LoadedIsCurrent(w: World, call: Step, d: Db)
    requires Sound(w) && Attempted(w.db, call) == Ok(d)
    ensures Current(w, Carried(d, call))
  {
    hide Sorted, WellAimed, BatchHome, Attempted, Sound, NobodysOnlyTarget;
    match call
    case NewRoom(_, _, id) => NewRoomIsNew(w.db, call, d);
    case EditRoom(id, _, _, _, _) => EditKeepsStudents(w.db, call, d);
    case DropProfessor(id, _) => OthersKeepStudents(w.db, call, d);
    case DropGrader(id, _, _) => OthersKeepStudents(w.db, call, d);
    case DropStudent(id, _, _) => OthersKeepStudents(w.db, call, d);
    case NewBatch(_, _, _, _, _) => BatchIsCurrent(w, call, d);
    case EditBatch(_, _, _, _, _) => BatchIsCurrent(w, call, d);
    case JoinBatch(_, _, _, _) => BatchIsCurrent(w, call, d);
    case LeaveBatch(_, _, _, _) => BatchIsCurrent(w, call, d);
    case DropBatch(_, id, _) => UntargetedAtLoad(w.db, call, d);
    case NewAssignment(_, _, _, _, _, _, _) => NewAssignmentIsNew(w.db, call, d);
    case _ =>
  }

  lemma NewRoomIsNew(db: Db, call: Step, d: Db)
    requires call.NewRoom? && Attempted(db, call) == Ok(d)
    ensures call.id !in db.classrooms
  {
    hide CreateClassroom;
  }

  lemma NewAssignmentIsNew(db: Db, call: Step, d: Db)
    requires call.NewAssignment? && Attempted(db, call) == Ok(d)
    ensures call.id !in db.assignments
  {
    hide CreateAssignment;
  }

  lemma UntargetedAtLoad(db: Db, call: Step, d: Db)
    requires call.DropBatch? && Attempted(db, call) == Ok(d)
    ensures NobodysOnlyTarget(db, call.id)
  {
    hide GetBatch;
    assert call.id in {call.id};
  }

  lemma EditKeepsStudents(db: Db, call: Step, d: Db)
    requires call.EditRoom? && Attempted(db, call) == Ok(d)
    ensures call.id in db.classrooms && call.id in d.classrooms
    ensures forall u :: u in db.classrooms[call.id].students ==> u in d.classrooms[call.id].students
  {
    hide CanManage, LoadSome, ResolveProfessor, GraderRefusal;
  }

  lemma OthersKeepStudents(db: Db, call: Step, d: Db)
    requires (call.DropProfessor? || call.DropGrader? || call.DropStudent?) && Attempted(db, call) == Ok(d)
    ensures call.id in db.classrooms && call.id in d.classrooms
    ensures forall u :: u in db.classrooms[call.id].students && u !in d.classrooms[call.id].students ==> call.DropStudent? && call.user == u
  {
    hide CanManage, SameOrg;
    if call.DropStudent? {
      WhereMembers(db.classrooms[call.id].students, Without(call.user));
    }
  }

  lemma BatchIsCurrent(w: World, call: Step, d: Db)
    requires Sound(w) && Attempted(w.db, call) == Ok(d)
    requires call.NewBatch? || call.EditBatch? || call.JoinBatch? || call.LeaveBatch?
    ensures Current(w, Carried(d, call))
  {
    hide CanManage, NameClash, RoomsSound, AssignmentsSound, Sorted, WellAimed, BatchHome;
    BatchFrom(w.db, call, d);
    var b := d.batches[call.id];
    forall u | u in b.students && u !in w.db.classrooms[call.room].students
      ensures Excused(w.requests, call.room, u)
    {
      HomeOf(w, call.id);
      MemberHome(w, call.id, u);
    }
  }

  lemma MemberHome(w: World, id: Id, u: Id)
    requires id in w.db.batches && BatchHome(w.db, w.requests, w.db.batches[id]) && u in w.db.batches[id].students
    ensures w.db.batches[id].classroomId in w.db.classrooms
    ensures u in w.db.classrooms[w.db.batches[id].classroomId].students || Excused(w.requests, w.db.batches[id].classroomId, u)
  {
  }

  /** The members a batch call carries are enrolled, or were members already. */
  lemma BatchFrom(db: Db, call: Step, d: Db)
    requires Attempted(db, call) == Ok(d) && (call.NewBatch? || call.EditBatch? || call.JoinBatch? || call.LeaveBatch?)
    ensures call.room in db.classrooms && call.id in d.batches && d.batches[call.id].classroomId == call.room
    ensures !call.NewBatch? ==> call.id in db.batches && db.batches[call.id].classroomId == call.room
    ensures forall u :: u in d.batches[call.id].students ==>
              u in db.classrooms[call.room].students || (call.id in db.batches && u in db.batches[call.id].students)
  {
    hide CanManage, NameClash;
    var room := db.classrooms[call.room];
    match call
    case NewBatch(_, _, ids, _, id) => ResolveBatchMeans(room, ids);
    case EditBatch(_, id, _, ids, _) => if ids.Some? { ResolveBatchMeans(room, ids.value); }
    case JoinBatch(_, id, ids, _) =>
      ResolveBatchMeans(room, ids);
      WhereMembers(ResolveBatch(room, ids).value, NotIn(db.batches[id].students));
    case LeaveBatch(_, id, user, _) => WhereMembers(db.batches[id].students, Without(user));
  }

  lemma JudgedIsCurrent(w: World, call: Step)
    ensures Current(w, Judged(w.db, call))
  {
    hide StaffOrGrader, ResolveTargeting, EditedAssignment;
    if call.EditAssignment? && StoredFor(w.db, call.id, call.actor).Ok? {
      var a := w.db.assignments[call.id];
      if EditedAssignment(w.db, a, call.newStart, call.newEnd, call.t, call.actor).Ok? {
        EditedKeepsRoom(w.db, a, call.newStart, call.newEnd, call.t, call.actor);
      }
    }
  }

  lemma LookIsCurrent(w: World, req: RequestId, ids: set<Id>, related: bool, next: Option<Step>)
    ensures Current(w, StepLook(w, req, ids, related, next).requests[req])
  {
    hide Judged, Due;
    if Due(w.db, ids) != map[] {
      DueIsBehind(w.db, ids);
    } else if next.Some? {
      JudgedIsCurrent(w, next.value);
    }
  }

  lemma DueIsBehind(db: Db, ids: set<Id>)
    ensures forall id :: id in Due(db, ids) ==> id in db.assignments && Behind(db.assignments[id], Due(db, ids)[id])
  {
  }

  // ---------------------------------------------------------------- one step

  /** A waiting call stays current when its classrooms are left alone. */
  lemma CurrentStays(w: World, step: RaceStep, r: RequestId)
    requires Sound(w) && Sound(ClassroomRaces.Apply(w, step)) && r in w.requests && Current(w, w.requests[r]) && step != Advance(r)
    requires forall c :: WorksOn(w, w.requests[r], c) ==> SameRoom(w.db, ClassroomRaces.Apply(w, step).db, c)
    ensures Current(ClassroomRaces.Apply(w, step), w.requests[r])
  {
    hide Sorted, WellAimed, BatchHome, BatchesSound, RoomsSound, AssignmentsSound, ClassroomRaces.Apply, SameRoom, NobodysOnlyTarget, Behind;
    var after := ClassroomRaces.Apply(w, step);
    OthersWait(w, step, r);
    assert PhaseSound(w, w.requests[r]) && PhaseSound(after, after.requests[r]);
    match w.requests[r]
    case HoldsRoom(id, _, _) => assert SameRoom(w.db, after.db, id); RoomStands(w.db, after.db, id);
    case ComparedRoom(id, _, _, _) => assert SameRoom(w.db, after.db, id); RoomStands(w.db, after.db, id);
    case HoldsBatch(id, b) => assert SameRoom(w.db, after.db, b.classroomId); BatchStaysCurrent(w, step, r);
    case DeletesBatch(id) => HomesStand(w, step); DeletionStaysCurrent(w, after, r);
    case HoldsAssignment(id, a) => assert SameRoom(w.db, after.db, a.classroomId); AssignmentStaysCurrent(w, after, id, a);
    case HoldsRefresh(rows, _, _) =>
      forall id | id in rows ensures id in after.db.assignments && Behind(after.db.assignments[id], rows[id]) {
        assert WorksOn(w, w.requests[r], rows[id].classroomId);
        RowStands(w, after, id, rows[id]);
      }
    case _ =>
  }

  lemma HomesStand(w: World, step: RaceStep)
    ensures var after := ClassroomRaces.Apply(w, step); forall b :: b in w.homes ==> b in after.homes && after.homes[b] == w.homes[b]
  {
    hide StepLoad, StepLook, StepAdvance;
    match step
    case Wait(_) =>
    case Load(req, call) => LoadMovesOne(w, req, call);
    case Look(req, ids, related) => LookMovesOne(w, req, ids, related, None);
    case Advance(req) => AdvanceMovesOne(w, req);
  }

  lemma RoomStands(x: Db, y: Db, c: Id)
    requires SameRoom(x, y, c)
    ensures (c in x.classrooms <==> c in y.classrooms) && (c in x.classrooms ==> x.classrooms[c] == y.classrooms[c])
  {
  }

  /** A step moves at most the request it names, and forgets no id. */
  lemma OthersWait(w: World, step: RaceStep, r: RequestId)
    requires r in w.requests && step != Advance(r)
    ensures r in ClassroomRaces.Apply(w, step).requests && ClassroomRaces.Apply(w, step).requests[r] == w.requests[r]
  {
    hide StepLoad, StepLook, StepAdvance;
    match step
    case Wait(_) =>
    case Load(req, call) => LoadMovesOne(w, req, call);
    case Look(req, ids, related) => LookMovesOne(w, req, ids, related, None);
    case Advance(req) => AdvanceMovesOne(w, req);
  }

  ghost predicate MovesOnly(w: World, after: World, req: RequestId) {
    forall r :: r in w.requests && r != req ==> r in after.requests && after.requests[r] == w.requests[r]
  }

  lemma LookMovesOne(w: World, req: RequestId, ids: set<Id>, related: bool, next: Option<Step>)
    ensures var after := StepLook(w, req, ids, related, next);
            MovesOnly(w, after, req) && after.homes == w.homes && after.papers == w.papers && req in after.requests
  {
    hide Judged, Due;
  }

  lemma LoadMovesOne(w: World, req: RequestId, call: Step)
    ensures var after := StepLoad(w, req, call);
            && MovesOnly(w, after, req) && (req in w.requests ==> after == w)
            && (forall b :: b in w.homes ==> b in after.homes && after.homes[b] == w.homes[b])
  {
    hide Attempted, Carried, StepLook;
    if req !in w.requests && (call.See? || OnAssignment(call)) {
      LookMovesOne(w, req, {call.id}, true, if call.See? then None else Some(call));
    }
  }

  lemma AdvanceMovesOne(w: World, req: RequestId)
    ensures var after := StepAdvance(w, req);
            MovesOnly(w, after, req) && after.homes == w.homes && after.papers == w.papers && after.requests.Keys == w.requests.Keys
  {
    hide StepAdvance;
    if req in w.requests {
      var p := w.requests[req];
      if p.HoldsRoom? || p.ComparedRoom? || p.HoldsRefresh? {
        SaveMovesOne(w, req);
      } else if p.DeletesBatch? || p.DeletesRoom? || p.DeletesAssignment? {
        DeletionMovesOne(w, req);
      } else {
        OtherMovesOne(w, req);
      }
    } else {
      NothingToAdvance(w, req);
    }
  }

  lemma DeletionMovesOne(w: World, req: RequestId)
    requires req in w.requests && (w.requests[req].DeletesBatch? || w.requests[req].DeletesRoom? || w.requests[req].DeletesAssignment?)
    ensures StepAdvance(w, req) == Goes(w.(db := StepAdvance(w, req).db), req, Done)
  {
    hide BatchDeleted, RoomDeleted;
  }

  lemma OtherMovesOne(w: World, req: RequestId)
    requires req in w.requests
    requires var p := w.requests[req]; p.Stripping? || p.HoldsBatch? || p.HoldsAssignment? || p.Resumes? || p.Done? || p.Failed?
    ensures var after := StepAdvance(w, req);
            req in after.requests && after == Goes(w.(db := after.db), req, after.requests[req])
    ensures !w.requests[req].Resumes? ==> StepAdvance(w, req).requests[req].Done? || StepAdvance(w, req).requests[req].Failed?
  {
    hide BatchSaves, AssignmentSaves, StripBatches, Judged;
  }

  lemma SaveMovesOne(w: World, req: RequestId)
    requires req in w.requests && (w.requests[req].HoldsRoom? || w.requests[req].ComparedRoom? || w.requests[req].HoldsRefresh?)
    ensures var after := StepAdvance(w, req);
            after == Goes(w.(db := after.db), req, if req in after.requests then after.requests[req] else Done)
  {
    hide Applies, RefreshSaves, Refreshed, Merged;
  }

  lemma BatchStaysCurrent(w: World, step: RaceStep, r: RequestId)
    requires Sound(w) && r in w.requests && w.requests[r].HoldsBatch? && Current(w, w.requests[r]) && step != Advance(r)
    requires SameRoom(w.db, ClassroomRaces.Apply(w, step).db, w.requests[r].batch.classroomId)
    ensures Current(ClassroomRaces.Apply(w, step), w.requests[r])
  {
    hide Sorted, WellAimed, BatchHome, ClassroomRaces.Apply;
    var p, after := w.requests[r], ClassroomRaces.Apply(w, step);
    var room := p.batch.classroomId;
    assert PhaseSound(w, p);
    if room in w.db.classrooms {
      forall u | u in p.batch.students && u !in w.db.classrooms[room].students
        ensures Excused(after.requests, room, u) && p.id in after.db.batches && u in after.db.batches[p.id].students
      {
        assert w.db.batches[p.id].classroomId == room;
        StaysExcused(w, step, room, p.id, u);
      }
    }
  }

  /** Deleting the excused user's batch rows would change the classroom. */
  lemma StaysExcused(w: World, step: RaceStep, room: Id, id: Id, u: Id)
    requires Excused(w.requests, room, u) && id in w.db.batches && w.db.batches[id].classroomId == room && u in w.db.batches[id].students
    requires SameRoom(w.db, ClassroomRaces.Apply(w, step).db, room)
    ensures Excused(ClassroomRaces.Apply(w, step).requests, room, u)
  {
    hide ClassroomRaces.Apply;
    var after := ClassroomRaces.Apply(w, step);
    var s :| s in w.requests && w.requests[s] == Stripping(room, u);
    if step == Advance(s) {
      StrippedAway(w, s, room, id, u);
      assert false;
    } else {
      OthersWait(w, step, s);
    }
  }

  lemma StrippedAway(w: World, s: RequestId, room: Id, id: Id, u: Id)
    requires s in w.requests && w.requests[s] == Stripping(room, u) && id in w.db.batches && w.db.batches[id].classroomId == room
    ensures var after := ClassroomRaces.Apply(w, Advance(s)).db; id in after.batches && u !in after.batches[id].students
  {
    WhereMembers(w.db.batches[id].students, Without(u));
  }

  lemma DeletionStaysCurrent(w: World, after: World, r: RequestId)
    requires Sound(w) && Sound(after) && r in w.requests && w.requests[r].DeletesBatch? && Current(w, w.requests[r])
    requires forall c :: WorksOn(w, w.requests[r], c) ==> SameRoom(w.db, after.db, c)
    requires forall b :: b in w.homes ==> b in after.homes && after.homes[b] == w.homes[b]
    ensures NobodysOnlyTarget(after.db, w.requests[r].id)
  {
    hide Sorted, BatchHome, RoomsSound, BatchesSound;
    var id := w.requests[r].id;
    assert PhaseSound(w, w.requests[r]);
    var c := w.homes[id];
    assert WorksOn(w, w.requests[r], c);
    assert SameRoom(w.db, after.db, c);
    forall a | a in after.db.assignments ensures after.db.assignments[a].targets != {id} {
      if id in after.db.assignments[a].targets {
        TargetsAtHome(after, a, id);
        assert w.db.assignments[a] == after.db.assignments[a];
      }
      assert id in {id};
    }
  }

  lemma TargetsAtHome(w: World, a: Id, b: Id)
    requires AssignmentsSound(w) && a in w.db.assignments && b in w.db.assignments[a].targets
    ensures b in w.homes && w.homes[b] == w.db.assignments[a].classroomId
  {
    assert WellAimed(w, w.db.assignments[a]);
  }

  lemma AssignmentStaysCurrent(w: World, after: World, id: Id, a: Assignment)
    requires AssignmentsSound(after) && Filed(after, id, a) && SameRoom(w.db, after.db, a.classroomId)
    requires id in w.db.assignments ==> Stage(w.db.assignments[id].status) <= Stage(a.status)
    ensures id in after.db.assignments ==> Stage(after.db.assignments[id].status) <= Stage(a.status)
  {
    hide WellAimed;
  }

  lemma RowStands(w: World, after: World, id: Id, row: Assignment)
    requires AssignmentsSound(w) && Filed(w, id, row) && SameRoom(w.db, after.db, row.classroomId)
    requires id in w.db.assignments && Behind(w.db.assignments[id], row)
    ensures id in after.db.assignments && Behind(after.db.assignments[id], row)
  {
    hide WellAimed;
  }

  // ---------------------------------------------------------------- every run

  /** The request a step moves, if any, is current afterwards. */
  lemma MoverIsCurrent(w: World, step: RaceStep, req: RequestId)
    requires Sound(w) && AllCurrent(w) && !step.Wait? && step.req == req && req in ClassroomRaces.Apply(w, step).requests
    ensures Current(ClassroomRaces.Apply(w, step), ClassroomRaces.Apply(w, step).requests[req])
  {
    hide StepLoad, StepLook, StepAdvance, Current, Sound;
    match step
    case Load(_, call) => LoadMoverIsCurrent(w, req, call);
    case Look(_, ids, related) =>
      if req in w.requests {
        assert Current(w, w.requests[req]);
      } else {
        LookIsCurrent(w, req, ids, related, None);
        LookKeeps(w, req, ids, related, None);
        SameDbCurrent(w, StepLook(w, req, ids, related, None), req);
      }
    case Advance(_) => AdvanceMoverIsCurrent(w, req);
  }

  lemma LookKeeps(w: World, req: RequestId, ids: set<Id>, related: bool, next: Option<Step>)
    ensures var after := StepLook(w, req, ids, related, next);
            req in after.requests && after == Goes(w, req, after.requests[req]) && !after.requests[req].HoldsBatch?
  {
    hide Judged, Due;
    if next.Some? { JudgedHoldsNoBatch(w.db, next.value); }
  }

  lemma JudgedHoldsNoBatch(db: Db, call: Step)
    ensures !Judged(db, call).HoldsBatch? && !Judged(db, call).ComparedRoom? && !Judged(db, call).HoldsRoom?
  {
  }

  /** Being current is about tables and, for a batch, excuses; a request that excuses nobody yet moves none. */
  lemma SameDbCurrent(w: World, after: World, req: RequestId)
    requires req in after.requests && after.db == w.db && after.requests == w.requests[req := after.requests[req]]
    requires req !in w.requests || !w.requests[req].Stripping?
    requires Current(w, after.requests[req])
    ensures Current(after, after.requests[req])
  {
    hide NobodysOnlyTarget;
    var p := after.requests[req];
    if p.HoldsBatch? && p.batch.classroomId in w.db.classrooms {
      forall u | u in p.batch.students && u !in w.db.classrooms[p.batch.classroomId].students
        ensures Excused(after.requests, p.batch.classroomId, u)
      {
        ExcusesStay(w.requests, req, p, p.batch.classroomId, u);
      }
    }
  }

  lemma LoadMoverIsCurrent(w: World, req: RequestId, call: Step)
    requires Sound(w) && AllCurrent(w) && req in StepLoad(w, req, call).requests
    ensures Current(StepLoad(w, req, call), StepLoad(w, req, call).requests[req])
  {
    hide Attempted, Carried, StepLook, Current, Sound;
    if req in w.requests {
      assert Current(w, w.requests[req]);
    } else if call.See? || OnAssignment(call) {
      var next := if call.See? then None else Some(call);
      LookIsCurrent(w, req, {call.id}, true, next);
      LookKeeps(w, req, {call.id}, true, next);
      SameDbCurrent(w, StepLook(w, req, {call.id}, true, next), req);
    } else if Attempted(w.db, call).Ok? {
      LoadedIsCurrent(w, call, Attempted(w.db, call).value);
      SameDbCurrent(w, StepLoad(w, req, call), req);
    } else {
      FailedIsCurrent(StepLoad(w, req, call));
    }
  }

  lemma FailedIsCurrent(w: World)
    ensures Current(w, Failed) && Current(w, Done)
  {
  }

  lemma AdvanceMoverIsCurrent(w: World, req: RequestId)
    requires Sound(w) && AllCurrent(w) && req in StepAdvance(w, req).requests
    ensures Current(StepAdvance(w, req), StepAdvance(w, req).requests[req])
  {
    hide StepAdvance, Sound, Current;
    if req !in w.requests {
      NothingToAdvance(w, req);
    } else {
      assert Current(w, w.requests[req]);
      match w.requests[req]
      case HoldsRoom(_, _, _) => ComparisonIsCurrent(w, req);
      case Resumes(call) =>
        ResumesStep(w, req);
        JudgedIsCurrent(w, call);
        SameDbCurrent(w, StepAdvance(w, req), req);
      case Done => FinishedStays(w, req);
      case Failed => FinishedStays(w, req);
      case _ => EndsSomewhere(w, req); EndIsCurrent(StepAdvance(w, req), StepAdvance(w, req).requests[req]);
    }
  }

  lemma ComparisonIsCurrent(w: World, req: RequestId)
    requires req in w.requests && w.requests[req].HoldsRoom? && Current(w, w.requests[req])
    ensures req in StepAdvance(w, req).requests && Current(StepAdvance(w, req), StepAdvance(w, req).requests[req])
  {
  }

  /** After a last save nothing loaded is held any more. */
  predicate Ended(p: Phase) {
    p.Done? || p.Failed? || p.Stripping? || p.Resumes?
  }

  lemma EndIsCurrent(w: World, p: Phase)
    requires Ended(p)
    ensures Current(w, p)
  {
  }

  lemma EndsSomewhere(w: World, req: RequestId)
    requires req in w.requests && !w.requests[req].HoldsRoom? && !w.requests[req].Resumes?
    ensures req in StepAdvance(w, req).requests && Ended(StepAdvance(w, req).requests[req])
  {
    hide StepAdvance;
    var p := w.requests[req];
    if p.ComparedRoom? || p.HoldsRefresh? {
      SaveEnds(w, req);
    } else if p.DeletesBatch? || p.DeletesRoom? || p.DeletesAssignment? {
      DeletionMovesOne(w, req);
    } else {
      OtherMovesOne(w, req);
    }
  }

  lemma SaveEnds(w: World, req: RequestId)
    requires req in w.requests && (w.requests[req].ComparedRoom? || w.requests[req].HoldsRefresh?)
    ensures req in StepAdvance(w, req).requests && Ended(StepAdvance(w, req).requests[req])
  {
    hide Applies, RefreshSaves, Refreshed, Merged;
  }

  lemma TurnIsSafe(w: World, step: RaceStep)
    requires Sound(w) && AllCurrent(w) && TakesTurns(w, step)
    ensures Safe(w, step) && Sound(ClassroomRaces.Apply(w, step)) && AllCurrent(ClassroomRaces.Apply(w, step))
  {
    hide Sound, Safe, ClassroomRaces.Apply, Current, WorksOn, SameRoom;
    if step.Advance? {
      CurrentIsSafe(w, step.req);
    } else {
      OnlyAdvancesAreGuarded(w, step);
    }
    StepSoundExactlyWhen(w, step);
    var after := ClassroomRaces.Apply(w, step);
    forall r | r in after.requests ensures Current(after, after.requests[r]) {
      if !step.Wait? && step.req == r {
        MoverIsCurrent(w, step, r);
      } else {
        NoNewRequests(w, step, r);
        OthersWait(w, step, r);
        CurrentStays(w, step, r);
      }
    }
  }

  lemma NoNewRequests(w: World, step: RaceStep, r: RequestId)
    requires r in ClassroomRaces.Apply(w, step).requests && (step.Wait? || step.req != r)
    ensures r in w.requests
  {
    hide Attempted, Carried, Due, Judged, StepAdvance;
    if step.Advance? {
      AdvanceMovesOne(w, step.req);
    }
  }

  /**
   From any structured database, over every interleaving in which no step changes the rows of a
   classroom that another call is still working on: every guard holds, so the structure does.
   */
  lemma TurnsKeepTheStructure(db: Db, steps: seq<RaceStep>)
    requires Structured(db) && TurnsTaken(Quiet(db), steps)
    ensures var after := ClassroomRaces.Run(Quiet(db), steps);
            SafeRun(Quiet(db), steps)
            && ((forall req :: req in after.requests ==> !after.requests[req].Stripping?) ==> Structured(after.db))
  {
    StructuredIsSound(db);
    TurnsAreSafe(Quiet(db), steps);
    StructureOverEveryInterleaving(Quiet(db), steps);
  }

  lemma {:induction false} TurnsAreSafe(w: World, steps: seq<RaceStep>)
    requires Sound(w) && AllCurrent(w) && TurnsTaken(w, steps)
    ensures SafeRun(w, steps)
    decreases |steps|
  {
    hide Sound, AllCurrent, TakesTurns, Safe, ClassroomRaces.Apply;
    if steps != [] {
      TurnIsSafe(w, steps[0]);
      TurnsAreSafe(ClassroomRaces.Apply(w, steps[0]), steps[1..]);
    }
  }

  /** The assignment is there throughout the run. */
  predicate Remains(w: World, steps: seq<RaceStep>, id: Id)
    decreases |steps|
  {
    id in w.db.assignments && (steps != [] ==> Remains(ClassroomRaces.Apply(w, steps[0]), steps[1..], id))
  }

  /** Nor does any status go back. */
  lemma {:induction false} TurnsKeepStatuses(w: World, steps: seq<RaceStep>, id: Id)
    requires Sound(w) && AllCurrent(w) && TurnsTaken(w, steps) && Remains(w, steps, id)
    ensures id in ClassroomRaces.Run(w, steps).db.assignments
    ensures Stage(w.db.assignments[id].status) <= Stage(ClassroomRaces.Run(w, steps).db.assignments[id].status)
    decreases |steps|
  {
    hide Sound, AllCurrent, TakesTurns, Safe, ClassroomRaces.Apply, TakesBack;
    if steps != [] {
      TurnIsSafe(w, steps[0]);
      CurrentTakesNothingBack(w, steps[0], id);
      StatusGoesBackExactlyWhen(w, steps[0], id);
      TurnsKeepStatuses(ClassroomRaces.Apply(w, steps[0]), steps[1..], id);
    }
  }
}
