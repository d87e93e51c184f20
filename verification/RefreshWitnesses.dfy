/** Saves of refreshed assignments that overlap a release of grades or a change of targeting. */
module RefreshWitnesses {
  import opened Common
  import opened Roles
  import opened Schedule
  import opened Tables
  import opened Classrooms
  import opened ClassroomStructure
  import opened ClassroomRaces
  import opened RaceRuns
  import opened RaceWitnesses

  /** The assignment's time transition is due. */
  predicate IsDue(db: Db, id: Id) {
    id in db.assignments && Aged(db.assignments[id], db.now) != db.assignments[id]
  }

  lemma DueAlone(db: Db, id: Id)
    requires IsDue(db, id)
    ensures Due(db, {id}) == map[id := Aged(db.assignments[id], db.now)]
  {
    hide Aged;
    assert id in {id};
  }

  lemma Looks(w: World, req: RequestId, id: Id, related: bool)
    requires req !in w.requests && IsDue(w.db, id)
    ensures ClassroomRaces.Apply(w, Look(req, {id}, related))
         == Goes(w, req, HoldsRefresh(map[id := Aged(w.db.assignments[id], w.db.now)], related, None))
  {
    hide Aged, Due;
    DueAlone(w.db, id);
    assert id in Due(w.db, {id});
  }

  lemma LoadsDue(w: World, req: RequestId, call: Step)
    requires req !in w.requests && OnAssignment(call) && IsDue(w.db, call.id)
    ensures ClassroomRaces.Apply(w, Load(req, call))
         == Goes(w, req, HoldsRefresh(map[call.id := Aged(w.db.assignments[call.id], w.db.now)], true, Some(call)))
  {
    hide Aged, Due, Judged;
    DueAlone(w.db, call.id);
    assert call.id in Due(w.db, {call.id});
  }

  lemma SavesRefresh(w: World, req: RequestId, id: Id, row: Assignment, related: bool, next: Option<Step>)
    requires req in w.requests && w.requests[req] == HoldsRefresh(map[id := row], related, next)
    requires row.classroomId in w.db.classrooms && forall b :: b in row.targets ==> b in w.db.batches
    ensures ClassroomRaces.Apply(w, Advance(req))
         == Goes(w.(db := w.db.(assignments := w.db.assignments[id := WrittenBack(w.db, id, row, related)])), req,
                 if next.Some? then Resumes(next.value) else Done)
  {
    hide WrittenBack, Refreshed;
    OneRefreshed(w.db, id, row, related);
  }

  lemma OneRefreshed(db: Db, id: Id, row: Assignment, related: bool)
    ensures Refreshed(db, map[id := row], related) == db.(assignments := db.assignments[id := WrittenBack(db, id, row, related)])
  {
    hide WrittenBack;
    assert Refreshed(db, map[id := row], related).assignments == db.assignments[id := WrittenBack(db, id, row, related)];
  }

  lemma WritingBack(db: Db, id: Id, row: Assignment)
    ensures WrittenBack(db, id, row, true) == row
    ensures id in db.assignments ==> WrittenBack(db, id, row, false) == row.(targets := db.assignments[id].targets)
  {
  }

  lemma ResumesTo(w: World, req: RequestId, call: Step)
    requires req in w.requests && w.requests[req] == Resumes(call)
    ensures ClassroomRaces.Apply(w, Advance(req)) == Goes(w, req, Judged(w.db, call))
  {
    hide Judged;
  }

  /** One request reads the due row; another call reads it too, refreshes, goes on and saves; the first then saves what it read. */
  function ReadThenCall(reader: RequestId, caller: RequestId, id: Id, related: bool, call: Step): seq<RaceStep> {
    [Look(reader, {id}, related)] + ([Load(caller, call)] + ([Advance(caller)] + ([Advance(caller)] + ([Advance(caller)] + ([Advance(reader)] + [])))))
  }

  /** What such a run leaves, for a call the checks let through on the refreshed row. */
  lemma StaleRefresh(db: Db, reader: RequestId, caller: RequestId, id: Id, related: bool, call: Step, edited: Assignment)
    requires Structured(db) && IsDue(db, id) && reader != caller && OnAssignment(call) && call.id == id
    requires Judged(db.(assignments := db.assignments[id := Aged(db.assignments[id], db.now)]), call) == HoldsAssignment(id, edited)
    requires edited.classroomId in db.classrooms && forall b :: b in edited.targets ==> b in db.batches
    ensures var after := ClassroomRaces.Run(Quiet(db), ReadThenCall(reader, caller, id, related, call)); var seen := Aged(db.assignments[id], db.now);
            && after.requests == map[reader := Done, caller := Done]
            && after.db == db.(assignments := db.assignments[id := if related then seen else seen.(targets := edited.targets)])
  {
    hide Aged, Judged, Structured, ClassroomRaces.Apply, ClassroomRaces.Run, OnAssignment, Quiet, WrittenBack;
    QuietIs(db);
    var seen := Aged(db.assignments[id], db.now);
    DueFits(db, id);
    var w0 := Quiet(db);
    var w1 := Goes(w0, reader, HoldsRefresh(map[id := seen], related, None));
    var w2 := Goes(w1, caller, HoldsRefresh(map[id := seen], true, Some(call)));
    var w3 := Goes(w2.(db := db.(assignments := db.assignments[id := seen])), caller, Resumes(call));
    Looks(w0, reader, id, related);
    LoadsDue(w1, caller, call);
    SavesRefresh(w2, caller, id, seen, true, Some(call));
    WritingBack(w2.db, id, seen);
    assert ClassroomRaces.Apply(w2, Advance(caller)) == w3;
    CallThenReader(w3, reader, caller, id, seen, related, call, edited);
    var w4 := ClassroomRaces.Apply(w3, Advance(caller));
    var w5 := ClassroomRaces.Apply(w4, Advance(caller));
    var w6 := ClassroomRaces.Apply(w5, Advance(reader));
    TakesSix(w0, w1, w2, w3, w4, w5, w6, Look(reader, {id}, related), Load(caller, call), Advance(caller), Advance(caller), Advance(caller), Advance(reader));
    var last := if related then seen else seen.(targets := edited.targets);
    assert w6.db.assignments == db.assignments[id := last];
    assert w6.requests == map[reader := Done, caller := Done];
  }

  lemma CallThenReader(w: World, reader: RequestId, caller: RequestId, id: Id, seen: Assignment, related: bool, call: Step, edited: Assignment)
    requires reader != caller && reader in w.requests && w.requests[reader] == HoldsRefresh(map[id := seen], related, None)
    requires caller in w.requests && w.requests[caller] == Resumes(call) && Judged(w.db, call) == HoldsAssignment(id, edited)
    requires edited.classroomId in w.db.classrooms && forall b :: b in edited.targets ==> b in w.db.batches
    requires seen.classroomId in w.db.classrooms && forall b :: b in seen.targets ==> b in w.db.batches
    ensures var w4 := ClassroomRaces.Apply(w, Advance(caller)); var w5 := ClassroomRaces.Apply(w4, Advance(caller));
            var w6 := ClassroomRaces.Apply(w5, Advance(reader));
            && w6.requests == w.requests[caller := Done][reader := Done]
            && w6.db == w.db.(assignments := w.db.assignments[id := if related then seen else seen.(targets := edited.targets)])
  {
    hide Judged, ClassroomRaces.Apply, WrittenBack, AssignmentSaves;
    ResumesTo(w, caller, call);
    var w4 := Goes(w, caller, HoldsAssignment(id, edited));
    CanSave(w4, caller, edited);
    SavesAssignment(w4, caller, id, edited);
    var w5 := ClassroomRaces.Apply(w4, Advance(caller));
    SavesRefresh(w5, reader, id, seen, related, None);
    WritingBack(w5.db, id, seen);
    var last := if related then seen else seen.(targets := edited.targets);
    assert WrittenBack(w5.db, id, seen, related) == last;
    assert w5.db.assignments[id := last] == w.db.assignments[id := last];
    assert w.requests[caller := HoldsAssignment(id, edited)][caller := Done][reader := Done] == w.requests[caller := Done][reader := Done];
  }

  lemma CanSave(w: World, req: RequestId, edited: Assignment)
    requires req in w.requests && w.requests[req].HoldsAssignment? && w.requests[req].edited == edited
    requires edited.classroomId in w.db.classrooms && forall b :: b in edited.targets ==> b in w.db.batches
    ensures AssignmentSaves(w, w.requests[req])
  {
  }

  /** A refreshed row of a structured database can be saved. */
  lemma DueFits(db: Db, id: Id)
    requires Structured(db) && id in db.assignments
    ensures var seen := Aged(db.assignments[id], db.now);
            seen.classroomId in db.classrooms && forall b :: b in seen.targets ==> b in db.batches
  {
    StructureAt(db);
    assert Aimed(db, db.assignments[id]);
  }

  /** Grades released between a reader's load and its save are taken back: the assignment ends merely completed. */
  lemma AStaleRefreshTakesBackReleasedGrades(db: Db, reader: RequestId, caller: RequestId, id: Id, actor: Actor)
    requires Structured(db) && reader != caller
    requires id in db.assignments && db.assignments[id].status == Active && db.assignments[id].end <= db.now
    requires StaffOrGrader(actor, db.classrooms[db.assignments[id].classroomId])
    ensures var after := ClassroomRaces.Run(Quiet(db), ReadThenCall(reader, caller, id, true, Release(id, actor)));
            && after.requests == map[reader := Done, caller := Done]
            && id in after.db.assignments && after.db.assignments[id].status == Completed
  {
    hide StaffOrGrader, Structured, ReadThenCall, ClassroomRaces.Run;
    DueFits(db, id);
    var seen := Aged(db.assignments[id], db.now);
    StaleRefresh(db, reader, caller, id, true, Release(id, actor), seen.(status := GradePublished));
  }

  /**
   A sweep reads the due row without its target rows; a manager retargets the assignment from the
   classroom to batches or back; the sweep's save leaves the old kind of target with the new
   target rows: a classroom-targeted assignment with batches, or a batch-targeted one with none.
   */
  lemma ASweepMisplacesTheTargets(db: Db, sweep: RequestId, caller: RequestId, id: Id, t: Targeting, actor: Actor, edited: Assignment)
    requires Structured(db) && IsDue(db, id) && sweep != caller
    requires StaffOrGrader(actor, db.classrooms[db.assignments[id].classroomId])
    requires EditedAssignment(db, Aged(db.assignments[id], db.now), None, None, t, actor) == Ok(edited)
    requires edited.target != db.assignments[id].target
    ensures var after := ClassroomRaces.Run(Quiet(db), ReadThenCall(sweep, caller, id, false, EditAssignment(id, None, None, t, actor)));
            && after.requests == map[sweep := Done, caller := Done]
            && id in after.db.assignments && (after.db.assignments[id].target == ToBatches <==> after.db.assignments[id].targets == {})
            && !Structured(after.db)
  {
    hide StaffOrGrader, Structured, ReadThenCall, ClassroomRaces.Run, EditedAssignment, Aged;
    var seen := Aged(db.assignments[id], db.now);
    DueFits(db, id);
    AgedKeepsTargets(db.assignments[id], db.now);
    var d := db.(assignments := db.assignments[id := seen]);
    EditingReadsBatches(db, d, seen, None, None, t, actor);
    RetargetedFits(db, id, seen, t, actor, edited);
    StaleRefresh(db, sweep, caller, id, false, EditAssignment(id, None, None, t, actor), edited);
    var after := ClassroomRaces.Run(Quiet(db), ReadThenCall(sweep, caller, id, false, EditAssignment(id, None, None, t, actor))).db;
    MisplacedBreaks(after, id);
  }

  lemma AgedKeepsTargets(a: Assignment, now: int)
    ensures Aged(a, now) == a.(status := Aged(a, now).status)
  {
  }

  lemma RetargetedFits(db: Db, id: Id, a: Assignment, t: Targeting, actor: Actor, edited: Assignment)
    requires Structured(db) && id in db.assignments && a == db.assignments[id].(status := a.status)
    requires EditedAssignment(db, a, None, None, t, actor) == Ok(edited)
    ensures edited.classroomId in db.classrooms && (forall b :: b in edited.targets ==> b in db.batches)
    ensures edited.target == ToBatches <==> edited.targets != {}
  {
    hide ResolveTargeting, Structured;
    StructureAt(db);
    assert Aimed(db, db.assignments[id]);
    if t != Targeting(None, None, None, None) {
      EditedIsAimed(Quiet(db), a, None, None, t, actor);
    }
  }

  lemma MisplacedBreaks(db: Db, id: Id)
    requires id in db.assignments && (db.assignments[id].target == ToBatches <==> db.assignments[id].targets == {})
    ensures !Structured(db)
  {
    assert !Aimed(db, db.assignments[id]);
  }
}
