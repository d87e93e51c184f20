/** The structure of classrooms, batches and targeting over interleaved calls. */
module RaceRuns {
  import opened Common
  import opened Roles
  import opened Schedule
  import opened Tables
  import opened Classrooms
  import opened ClassroomStructure
  import opened ClassroomRaces

  // ---------------------------------------------------------------- saving a classroom

  /** Applying a comparison to a sorted row gives a sorted row exactly when nobody crosses sides and the count fits. */
  lemma MergedSortedExactlyWhen(c: Classroom, base: Classroom, goal: Classroom)
    requires Sorted(c) && Sorted(base) && Sorted(goal) && !Duplicates(c, Compare(base, goal))
    ensures var d := Compare(base, goal);
            && (Sorted(Merged(c, d)) <==> NoCrossing(c, d) && CountFits(c, base, goal))
            && (forall u :: u in Merged(c, d).students <==> (u in c.students && u !in d.dropStudents) || u in d.addStudents)
  {
    hide Gone, Drift, CountFits, Compare;
    var d := Compare(base, goal);
    var after := Merged(c, d);
    ComparedIsSound(base, goal);
    JoinDistinct(c.students, d.dropStudents, d.addStudents);
    JoinDistinct(c.graders, d.dropGraders, d.addGraders);
    CountFitsExactlyWhen(c, base, goal);
    if !NoCrossing(c, d) {
      if u :| u in d.addStudents && u in c.graders && u !in d.dropGraders {
        assert u in after.students && u in after.graders;
      } else {
        var v :| v in d.addGraders && v in c.students && v !in d.dropStudents;
        assert v in after.students && v in after.graders;
      }
    }
  }

  /** The count comes out right exactly when the changes since the comparison cancel out. */
  lemma CountFitsExactlyWhen(c: Classroom, base: Classroom, goal: Classroom)
    requires Sorted(c) && Sorted(base) && Sorted(goal)
    ensures var after := Merged(c, Compare(base, goal));
            after.totalUsers == |after.students| + |after.graders| + Head(after.professor) <==> CountFits(c, base, goal)
  {
    hide Where, NotIn;
    SideLength(c.students, base.students, goal.students);
    SideLength(c.graders, base.graders, goal.graders);
  }

  /** How long one side comes out. */
  lemma SideLength(now: seq<Id>, base: seq<Id>, goal: seq<Id>)
    requires NoDup(now) && NoDup(base) && NoDup(goal)
    ensures var drop, add := Where(base, NotIn(goal)), Where(goal, NotIn(base));
            |Where(now, NotIn(drop))| + |add| == |now| - |base| + |goal| + |Where(drop, NotIn(now))|
  {
    hide Where;
    var drop, add := Where(base, NotIn(goal)), Where(goal, NotIn(base));
    LeftOver(base, goal);
    LeftOver(goal, base);
    LeftOver(now, drop);
    LeftOver(drop, now);
    assert Elems(base) * Elems(goal) == Elems(goal) * Elems(base);
    assert Elems(now) * Elems(drop) == Elems(drop) * Elems(now);
  }

  lemma LeftOver(xs: seq<Id>, ys: seq<Id>)
    requires NoDup(xs)
    ensures NoDup(Where(xs, NotIn(ys))) && |Where(xs, NotIn(ys))| == |xs| - |Elems(xs) * Elems(ys)|
  {
    WhereDistinct(xs, NotIn(ys));
    NoDupCard(xs);
    NoDupCard(Where(xs, NotIn(ys)));
    assert Elems(Where(xs, NotIn(ys))) == Elems(xs) - Elems(ys);
    assert Elems(xs) - Elems(ys) == Elems(xs) - Elems(xs) * Elems(ys);
  }

  lemma JoinDistinct(xs: seq<Id>, drop: seq<Id>, add: seq<Id>)
    requires NoDup(xs) && NoDup(add) && forall u :: u in add ==> u !in xs
    ensures NoDup(Where(xs, NotIn(drop)) + add)
    ensures forall u :: u in Where(xs, NotIn(drop)) + add <==> (u in xs && u !in drop) || u in add
  {
    WhereDistinct(xs, NotIn(drop));
    var kept := Where(xs, NotIn(drop));
    forall i, j | 0 <= i < j < |kept + add| ensures (kept + add)[i] != (kept + add)[j] {
      if i < |kept| <= j {
        assert kept[i] in kept && add[j - |kept|] in add;
      }
    }
  }

  lemma ComparedIsSound(stored: Classroom, edited: Classroom)
    requires Sorted(stored) && Sorted(edited)
    ensures var d := Compare(stored, edited);
            && NoDup(d.addStudents) && NoDup(d.addGraders)
            && (forall u :: u in d.addStudents ==> u !in d.addGraders && u !in d.dropStudents) && (forall u :: u in d.addGraders ==> u !in d.dropGraders)
            && (forall u :: u in d.dropStudents <==> u in stored.students && u !in edited.students)
  {
    WhereDistinct(edited.students, NotIn(stored.students));
    WhereDistinct(stored.students, NotIn(edited.students));
    WhereDistinct(edited.graders, NotIn(stored.graders));
    WhereDistinct(stored.graders, NotIn(edited.graders));
  }

  /** When the row is still the one compared with, only orphans can go wrong: the lists come out as edited. */
  lemma FreshComparisonGivesTheEditedRow(stored: Classroom, edited: Classroom)
    requires Sorted(stored) && Sorted(edited)
    ensures var d := Compare(stored, edited);
            && !Duplicates(stored, d) && NoCrossing(stored, d) && CountFits(stored, stored, edited)
            && (forall u :: u in Merged(stored, d).students <==> u in edited.students)
            && (forall u :: u in Merged(stored, d).graders <==> u in edited.graders)
            && Merged(stored, d).professor == edited.professor && Merged(stored, d).totalUsers == edited.totalUsers
  {
    var d := Compare(stored, edited);
    ComparedIsSound(stored, edited);
    WhereDistinct(edited.students, NotIn(stored.students));
    WhereDistinct(edited.graders, NotIn(stored.graders));
    WhereDistinct(stored.graders, NotIn(edited.graders));
    JoinDistinct(stored.students, d.dropStudents, d.addStudents);
    JoinDistinct(stored.graders, d.dropGraders, d.addGraders);
    SameMembersSameLength(Merged(stored, d).students, edited.students);
    SameMembersSameLength(Merged(stored, d).graders, edited.graders);
    WhereMembers(stored.students, NotIn(edited.students));
    WhereMembers(stored.graders, NotIn(edited.graders));
    NothingNew(d.dropStudents, stored.students);
    NothingNew(d.dropGraders, stored.graders);
  }

  lemma {:induction false} NothingNew(xs: seq<Id>, ys: seq<Id>)
    requires forall x :: x in xs ==> x in ys
    ensures Where(xs, NotIn(ys)) == []
  {
    if xs != [] {
      NothingNew(xs[..|xs| - 1], ys);
    }
  }

  lemma SameMembersSameLength(xs: seq<Id>, ys: seq<Id>)
    requires NoDup(xs) && NoDup(ys) && forall u :: u in xs <==> u in ys
    ensures |xs| == |ys|
  {
    NoDupCard(xs);
    NoDupCard(ys);
    assert Elems(xs) == Elems(ys);
  }

  // ---------------------------------------------------------------- steps that move one request

  /** Excuses last while their request waits. */
  lemma ExcusesStay(requests: map<RequestId, Phase>, req: RequestId, p: Phase, room: Id, user: Id)
    requires Excused(requests, room, user) && !(req in requests && requests[req] == Stripping(room, user))
    ensures Excused(requests[req := p], room, user)
  {
    var r :| r in requests && requests[r] == Stripping(room, user);
    assert r in requests[req := p] && requests[req := p][r] == Stripping(room, user);
  }

  /** The other requests stay sound when nothing they depend on has shrunk. */
  lemma PhasesStay(w: World, after: World, req: RequestId)
    requires forall r :: r in w.requests ==> PhaseSound(w, w.requests[r])
    requires forall c :: c in w.rooms ==> c in after.rooms && after.rooms[c] == w.rooms[c]
    requires forall b :: b in w.homes ==> b in after.homes && after.homes[b] == w.homes[b]
    requires forall a :: a in w.papers ==> a in after.papers && after.papers[a] == w.papers[a]
    requires req in after.requests && after.requests == w.requests[req := after.requests[req]] && PhaseSound(after, after.requests[req])
    ensures forall r :: r in after.requests ==> PhaseSound(after, after.requests[r])
  {
    hide Sorted;
    forall r | r in after.requests ensures PhaseSound(after, after.requests[r]) {
      if r != req {
        assert PhaseSound(w, w.requests[r]);
      }
    }
  }

  lemma PhaseStays(w: World, after: World, p: Phase)
    requires PhaseSound(w, p)
    requires forall c :: c in w.rooms ==> c in after.rooms && after.rooms[c] == w.rooms[c]
    requires forall b :: b in w.homes ==> b in after.homes && after.homes[b] == w.homes[b]
    requires forall a :: a in w.papers ==> a in after.papers && after.papers[a] == w.papers[a]
    ensures PhaseSound(after, p)
  {
    hide Sorted;
  }

  /** Moving a request on, tables untouched and no excuse withdrawn. */
  lemma PhaseMoves(w: World, req: RequestId, p: Phase)
    requires Sound(w) && PhaseSound(w, p) && !(req in w.requests && w.requests[req].Stripping?)
    ensures Sound(Goes(w, req, p))
  {
    hide Sorted, WellAimed;
    var after := Goes(w, req, p);
    PhaseStays(w, after, p);
    PhasesStay(w, after, req);
    AssignmentsStay(w, after);
    forall b | b in after.db.batches ensures BatchHome(after.db, after.requests, after.db.batches[b]) {
      assert BatchHome(w.db, w.requests, w.db.batches[b]);
      BatchStays(w, after, req, w.db.batches[b]);
    }
  }

  lemma BatchStays(w: World, after: World, req: RequestId, b: Batch)
    requires BatchHome(w.db, w.requests, b) && b.classroomId in after.db.classrooms
    requires forall u :: u in b.students && u in w.db.classrooms[b.classroomId].students ==> u in after.db.classrooms[b.classroomId].students
    requires req in after.requests && after.requests == w.requests[req := after.requests[req]]
    requires req in w.requests && w.requests[req].Stripping? ==> w.requests[req].id != b.classroomId || w.requests[req].user !in b.students
    ensures BatchHome(after.db, after.requests, b)
  {
    forall u | u in b.students ensures u in after.db.classrooms[b.classroomId].students || Excused(after.requests, b.classroomId, u) {
      if u !in w.db.classrooms[b.classroomId].students {
        ExcusesStay(w.requests, req, after.requests[req], b.classroomId, u);
      }
    }
  }

  // ---------------------------------------------------------------- each statement, exactly

  lemma RoomSaved(w: World, req: RequestId, id: Id, c: Classroom, p: Phase)
    requires Sound(w) && Sorted(c) && id in w.rooms && w.rooms[id] == c.org && PhaseSound(w, p)
    requires !(req in w.requests && w.requests[req].Stripping?)
    requires forall b, u :: b in w.db.batches && w.db.batches[b].classroomId == id && u in w.db.batches[b].students ==>
               u in c.students || Excused(w.requests[req := p], id, u)
    ensures Sound(Goes(w.(db := SaveClassroom(w.db, id, c)), req, p))
  {
    hide Sorted, WellAimed;
    var after := Goes(w.(db := SaveClassroom(w.db, id, c)), req, p);
    PhaseStays(w, after, p);
    PhasesStay(w, after, req);
    forall b | b in after.db.batches ensures BatchHome(after.db, after.requests, after.db.batches[b]) {
      assert BatchHome(w.db, w.requests, w.db.batches[b]);
      if w.db.batches[b].classroomId != id {
        BatchStays(w, after, req, w.db.batches[b]);
      }
    }
    AssignmentsStay(w, after);
  }

  lemma AssignmentsStay(w: World, after: World)
    requires AssignmentsSound(w) && after.db.assignments == w.db.assignments
    requires after.rooms == w.rooms && after.homes == w.homes && after.papers == w.papers
    requires forall c :: c in w.db.classrooms ==> c in after.db.classrooms
    requires forall b :: b in w.db.batches ==> b in after.db.batches
    ensures AssignmentsSound(after)
  {
    forall a | a in after.db.assignments ensures WellAimed(after, after.db.assignments[a]) {
      assert WellAimed(w, w.db.assignments[a]);
    }
  }

  lemma HoldsRoomSound(w: World, req: RequestId)
    requires Sound(w) && req in w.requests && w.requests[req].HoldsRoom?
    ensures Sound(StepAdvance(w, req))
  {
    hide Sorted, WellAimed, Compare;
    var p := w.requests[req];
    assert PhaseSound(w, p);
    if p.id in w.db.classrooms {
      PhaseMoves(w, req, ComparedRoom(p.id, w.db.classrooms[p.id], p.room, p.leaver));
    } else {
      forall b | b in w.db.batches ensures w.db.batches[b].classroomId != p.id {
        assert BatchHome(w.db, w.requests, w.db.batches[b]);
      }
      RoomSaved(w, req, p.id, p.room, Finished(p.id, p.leaver));
    }
  }

  /** The inserts, deletes and column writes of a classroom save keep the structure exactly when nobody crosses, the count fits and nobody is orphaned. */
  lemma RoomSaveSoundExactlyWhen(w: World, req: RequestId)
    requires Sound(w) && req in w.requests && w.requests[req].ComparedRoom? && Applies(w, w.requests[req])
    ensures var p := w.requests[req]; var c := w.db.classrooms[p.id];
            Sound(StepAdvance(w, req)) <==> NoCrossing(c, DeltaOf(p)) && CountFits(c, p.base, p.goal) && NoOrphans(w, p)
  {
    hide WellAimed, Merged, CountFits, NoCrossing, Sorted, Compare;
    var p := w.requests[req];
    var c, d := w.db.classrooms[p.id], DeltaOf(p);
    assert PhaseSound(w, p) && Sorted(c);
    MergedSortedExactlyWhen(c, p.base, p.goal);
    MergedKeepsOrg(c, d);
    var next := Finished(p.id, p.leaver);
    var after := StepAdvance(w, req);
    assert after == Goes(w.(db := SaveClassroom(w.db, p.id, Merged(c, d))), req, next);
    if NoCrossing(c, d) && CountFits(c, p.base, p.goal) {
      if NoOrphans(w, p) {
        forall b, u | b in w.db.batches && w.db.batches[b].classroomId == p.id && u in w.db.batches[b].students
          ensures u in Merged(c, d).students || Excused(w.requests[req := next], p.id, u)
        {
          MemberAccountedFor(w, req, b, u);
        }
        RoomSaved(w, req, p.id, Merged(c, d), next);
      } else {
        OrphanLeft(w, req);
      }
    } else {
      assert after.db.classrooms[p.id] == Merged(c, d);
    }
  }

  lemma MergedKeepsOrg(c: Classroom, d: Delta)
    ensures Merged(c, d).org == c.org
  {
  }

  lemma MemberAccountedFor(w: World, req: RequestId, b: Id, u: Id)
    requires Sound(w) && req in w.requests && w.requests[req].ComparedRoom? && Applies(w, w.requests[req]) && NoOrphans(w, w.requests[req])
    requires b in w.db.batches && w.db.batches[b].classroomId == w.requests[req].id && u in w.db.batches[b].students
    requires var p := w.requests[req];
             forall x :: x in Merged(w.db.classrooms[p.id], DeltaOf(p)).students
                         <==> (x in w.db.classrooms[p.id].students && x !in DeltaOf(p).dropStudents) || x in DeltaOf(p).addStudents
    ensures var p := w.requests[req];
            u in Merged(w.db.classrooms[p.id], DeltaOf(p)).students || Excused(w.requests[req := Finished(p.id, p.leaver)], p.id, u)
  {
    hide Merged, Sorted, WellAimed, Compare;
    var p := w.requests[req];
    var next := Finished(p.id, p.leaver);
    assert BatchHome(w.db, w.requests, w.db.batches[b]);
    if u in w.db.classrooms[p.id].students && u in DeltaOf(p).dropStudents && p.leaver == Some(u) {
      assert w.requests[req := next][req] == Stripping(p.id, u);
    } else if Excused(w.requests, p.id, u) {
      ExcusesStay(w.requests, req, next, p.id, u);
    }
  }

  lemma OrphanLeft(w: World, req: RequestId)
    requires Sound(w) && req in w.requests && w.requests[req].ComparedRoom? && Applies(w, w.requests[req]) && !NoOrphans(w, w.requests[req])
    requires var p := w.requests[req];
             forall x :: x in Merged(w.db.classrooms[p.id], DeltaOf(p)).students
                         <==> (x in w.db.classrooms[p.id].students && x !in DeltaOf(p).dropStudents) || x in DeltaOf(p).addStudents
    ensures !Sound(StepAdvance(w, req))
  {
    hide Merged, Sorted, WellAimed, Compare;
    var p := w.requests[req];
    assert PhaseSound(w, p);
    var b, u :| b in w.db.batches && w.db.batches[b].classroomId == p.id && u in w.db.batches[b].students && u in DeltaOf(p).dropStudents
                && p.leaver != Some(u) && !Excused(w.requests, p.id, u);
    var after := StepAdvance(w, req);
    forall r | r in after.requests ensures after.requests[r] != Stripping(p.id, u) {
      assert r != req ==> after.requests[r] == w.requests[r];
    }
    assert !BatchHome(after.db, after.requests, after.db.batches[b]);
  }

  lemma StrippedHome(w: World, req: RequestId, id: Id, user: Id, b: Batch)
    requires req in w.requests && w.requests[req] == Stripping(id, user) && BatchHome(w.db, w.requests, b)
    ensures BatchHome(w.db, w.requests[req := Done], Stripped(b, id, user))
  {
    WhereDistinct(b.students, Without(user));
    var stripped := Stripped(b, id, user);
    forall u | u in stripped.students
      ensures u in w.db.classrooms[b.classroomId].students || Excused(w.requests[req := Done], b.classroomId, u)
    {
      if u !in w.db.classrooms[b.classroomId].students {
        ExcusesStay(w.requests, req, Done, b.classroomId, u);
      }
    }
  }

  lemma StrippingSound(w: World, req: RequestId)
    requires Sound(w) && req in w.requests && w.requests[req].Stripping?
    ensures Sound(StepAdvance(w, req))
  {
    hide Sorted, WellAimed, BatchHome;
    var p := w.requests[req];
    var after := StepAdvance(w, req);
    PhasesStay(w, after, req);
    forall b | b in after.db.batches ensures BatchHome(after.db, after.requests, after.db.batches[b]) {
      HomeOf(w, b);
      StrippedHome(w, req, p.id, p.user, w.db.batches[b]);
      SameRooms(w.db, after.db, after.requests, after.db.batches[b]);
    }
    AssignmentsStay(w, after);
  }

  lemma SameRooms(db: Db, after: Db, requests: map<RequestId, Phase>, b: Batch)
    requires after.classrooms == db.classrooms
    ensures BatchHome(after, requests, b) <==> BatchHome(db, requests, b)
  {
  }

  /** Saving a batch keeps the structure exactly when its members are still enrolled. */
  lemma BatchSaveSoundExactlyWhen(w: World, req: RequestId)
    requires Sound(w) && req in w.requests && w.requests[req].HoldsBatch? && BatchSaves(w, w.requests[req])
    ensures Sound(StepAdvance(w, req)) <==> StillEnrolled(w, w.requests[req].batch)
  {
    hide Sorted, WellAimed, BatchHome, StillEnrolled, BatchSaves;
    var p := w.requests[req];
    assert PhaseSound(w, p);
    BatchSavesHere(w, p);
    var after := StepAdvance(w, req);
    PhasesStay(w, after, req);
    HeldBatchHome(w, req, p.batch);
    SameRooms(w.db, after.db, after.requests, p.batch);
    forall b | b in after.db.batches && b != p.id ensures BatchHome(after.db, after.requests, after.db.batches[b]) {
      HomeOf(w, b);
      BatchStays(w, after, req, w.db.batches[b]);
    }
    assert after.db.batches[p.id] == p.batch;
    AssignmentsStay(w, after);
  }

  lemma BatchSavesHere(w: World, p: Phase)
    requires p.HoldsBatch? && BatchSaves(w, p)
    ensures p.batch.classroomId in w.db.classrooms
    ensures NamesApart(w.db) ==> NamesApart(SaveBatch(w.db, p.id, p.batch))
  {
  }

  lemma HeldBatchHome(w: World, req: RequestId, b: Batch)
    requires req in w.requests && !w.requests[req].Stripping? && b.classroomId in w.db.classrooms && NoDup(b.students)
    ensures BatchHome(w.db, w.requests[req := Done], b) <==> StillEnrolled(w, b)
  {
    forall u ensures Excused(w.requests[req := Done], b.classroomId, u) <==> Excused(w.requests, b.classroomId, u) {
      SameExcuses(w.requests, req, b.classroomId, u);
    }
  }

  lemma SameExcuses(requests: map<RequestId, Phase>, req: RequestId, room: Id, u: Id)
    requires req in requests && !requests[req].Stripping?
    ensures Excused(requests[req := Done], room, u) <==> Excused(requests, room, u)
  {
    if Excused(requests[req := Done], room, u) {
      var r :| r in requests[req := Done] && requests[req := Done][r] == Stripping(room, u);
      assert r in requests && requests[r] == Stripping(room, u);
    }
    if Excused(requests, room, u) {
      ExcusesStay(requests, req, Done, room, u);
    }
  }

  /** Deleting a batch keeps the structure exactly when no assignment targets it alone. */
  lemma BatchDeleteSoundExactlyWhen(w: World, req: RequestId)
    requires Sound(w) && req in w.requests && w.requests[req].DeletesBatch?
    ensures Sound(StepAdvance(w, req)) <==> NobodysOnlyTarget(w.db, w.requests[req].id)
  {
    hide Sorted, WellAimed, BatchHome;
    var id := w.requests[req].id;
    var after := StepAdvance(w, req);
    PhasesStay(w, after, req);
    HomesStay(w, after, req);
    forall a | a in after.db.assignments
      ensures WellAimed(after, after.db.assignments[a]) <==> w.db.assignments[a].targets != {id}
    {
      LosesATarget(w, after, w.db.assignments[a], id);
    }
  }

  lemma LosesATarget(w: World, after: World, a: Assignment, id: Id)
    requires WellAimed(w, a) && after.rooms == w.rooms && after.homes == w.homes
    ensures WellAimed(after, a.(targets := a.targets - {id})) <==> a.targets != {id}
  {
  }

  /** Batches no statement touches, in classrooms none touches. */
  lemma HomesStay(w: World, after: World, req: RequestId)
    requires BatchesSound(w) && after.db.classrooms == w.db.classrooms && after.homes == w.homes
    requires forall b :: b in after.db.batches ==> b in w.db.batches && after.db.batches[b] == w.db.batches[b]
    requires req in after.requests && after.requests == w.requests[req := after.requests[req]]
    requires !(req in w.requests && w.requests[req].Stripping?)
    ensures BatchesSound(after)
  {
    hide BatchHome;
    forall b | b in after.db.batches ensures BatchHome(after.db, after.requests, after.db.batches[b]) {
      HomeOf(w, b);
      BatchStays(w, after, req, w.db.batches[b]);
    }
  }

  lemma AssignmentSaveSound(w: World, req: RequestId)
    requires Sound(w) && req in w.requests && w.requests[req].HoldsAssignment? && AssignmentSaves(w, w.requests[req])
    ensures Sound(StepAdvance(w, req))
  {
    hide Sorted, WellAimed, BatchHome, BatchesSound;
    var p := w.requests[req];
    assert PhaseSound(w, p);
    var after := StepAdvance(w, req);
    PhasesStay(w, after, req);
    HomesStay(w, after, req);
    forall a | a in after.db.assignments ensures WellAimed(after, after.db.assignments[a]) {
      AimStays(w, after, after.db.assignments[a]);
    }
  }

  lemma AssignmentDeletionSound(w: World, req: RequestId)
    requires Sound(w) && req in w.requests && w.requests[req].DeletesAssignment?
    ensures Sound(StepAdvance(w, req))
  {
    hide Sorted, WellAimed, BatchHome, BatchesSound;
    var after := StepAdvance(w, req);
    PhasesStay(w, after, req);
    HomesStay(w, after, req);
    forall a | a in after.db.assignments ensures WellAimed(after, after.db.assignments[a]) {
      AimStays(w, after, w.db.assignments[a]);
    }
  }

  /** Saving refreshed rows keeps the structure exactly when, read without their target rows, each still fits the stored ones. */
  lemma RefreshSaveSoundExactlyWhen(w: World, req: RequestId)
    requires Sound(w) && req in w.requests && w.requests[req].HoldsRefresh? && RefreshSaves(w, w.requests[req])
    ensures var p := w.requests[req];
            Sound(StepAdvance(w, req)) <==> p.related || forall id :: id in p.rows ==> TargetsFit(w.db, id, p.rows[id])
  {
    hide Sorted, BatchHome, BatchesSound, AssignmentsSound, TargetsFit, Refreshed;
    var p := w.requests[req];
    assert PhaseSound(w, p);
    var after := StepAdvance(w, req);
    PhasesStay(w, after, req);
    RefreshLeavesTheRest(w.db, p.rows, p.related);
    HomesStay(w, after, req);
    RefreshedAims(w, after, p);
  }

  lemma RefreshLeavesTheRest(db: Db, rows: map<Id, Assignment>, related: bool)
    ensures Refreshed(db, rows, related) == db.(assignments := Refreshed(db, rows, related).assignments)
  {
  }

  lemma RefreshedAims(w: World, after: World, p: Phase)
    requires AssignmentsSound(w) && p.HoldsRefresh? && PhaseSound(w, p) && RefreshSaves(w, p)
    requires after.db == Refreshed(w.db, p.rows, p.related)
    requires after.rooms == w.rooms && after.homes == w.homes && after.papers == w.papers
    ensures AssignmentsSound(after) <==> p.related || forall id :: id in p.rows ==> TargetsFit(w.db, id, p.rows[id])
  {
    hide Sorted, WellAimed, TargetsFit, WrittenBack;
    forall id | id in p.rows
      ensures WellAimed(after, after.db.assignments[id]) <==> p.related || TargetsFit(w.db, id, p.rows[id])
      ensures after.db.assignments[id].classroomId == p.rows[id].classroomId
      ensures forall b :: b in after.db.assignments[id].targets ==> b in after.db.batches
    {
      WrittenBackAim(w, after, id, p.rows[id], p.related);
      WrittenBackTargets(w, id, p.rows[id], p.related);
    }
    forall a | a in after.db.assignments && a !in p.rows ensures WellAimed(after, after.db.assignments[a]) {
      AimStays(w, after, w.db.assignments[a]);
    }
  }

  lemma WrittenBackAim(w: World, after: World, id: Id, row: Assignment, related: bool)
    requires AssignmentsSound(w) && WellAimed(w, row) && Filed(w, id, row)
    requires after.rooms == w.rooms && after.homes == w.homes
    ensures WellAimed(after, WrittenBack(w.db, id, row, related)) <==> related || TargetsFit(w.db, id, row)
  {
    if id in w.db.assignments {
      assert WellAimed(w, w.db.assignments[id]);
    }
  }

  lemma WrittenBackTargets(w: World, id: Id, row: Assignment, related: bool)
    requires AssignmentsSound(w) && (related ==> forall b :: b in row.targets ==> b in w.db.batches)
    ensures WrittenBack(w.db, id, row, related).classroomId == row.classroomId
    ensures forall b :: b in WrittenBack(w.db, id, row, related).targets ==> b in w.db.batches
  {
  }

  lemma AimStays(w: World, after: World, a: Assignment)
    requires WellAimed(w, a) && after.rooms == w.rooms && after.homes == w.homes
    ensures WellAimed(after, a)
  {
  }

  lemma RoomDeletionSound(w: World, req: RequestId)
    requires Sound(w) && req in w.requests && w.requests[req].DeletesRoom?
    ensures Sound(StepAdvance(w, req))
  {
    hide Sorted, WellAimed, BatchHome, AssignmentsSound;
    var after := StepAdvance(w, req);
    PhasesStay(w, after, req);
    forall b | b in after.db.batches ensures BatchHome(after.db, after.requests, after.db.batches[b]) {
      HomeOf(w, b);
      BatchStays(w, after, req, w.db.batches[b]);
    }
    DeletionLeavesAims(w, after, w.requests[req].id);
  }

  lemma DeletionLeavesAims(w: World, after: World, id: Id)
    requires AssignmentsSound(w) && BatchesSound(w) && after.db == RoomDeleted(w.db, id)
    requires after.rooms == w.rooms && after.homes == w.homes && after.papers == w.papers
    ensures AssignmentsSound(after)
  {
    hide WellAimed, BatchHome, BatchesSound;
    forall a | a in after.db.assignments
      ensures WellAimed(after, after.db.assignments[a])
      ensures forall b :: b in after.db.assignments[a].targets ==> b in after.db.batches
    {
      AimStays(w, after, w.db.assignments[a]);
      forall b | b in after.db.assignments[a].targets ensures b in after.db.batches {
        TargetHome(w, a, b);
      }
    }
  }

  lemma HomeOf(w: World, b: Id)
    requires BatchesSound(w) && b in w.db.batches
    ensures BatchHome(w.db, w.requests, w.db.batches[b]) && w.db.batches[b].classroomId in w.db.classrooms
  {
  }

  lemma TargetHome(w: World, a: Id, b: Id)
    requires AssignmentsSound(w) && BatchesSound(w) && a in w.db.assignments && b in w.db.assignments[a].targets
    ensures b in w.db.batches && w.db.batches[b].classroomId == w.db.assignments[a].classroomId
  {
    assert WellAimed(w, w.db.assignments[a]);
  }

  /** A statement of a running call keeps the structure exactly under its guard. */
  lemma AdvanceSoundExactlyWhen(w: World, req: RequestId)
    requires Sound(w)
    ensures Sound(StepAdvance(w, req)) <==> Safe(w, Advance(req))
  {
    hide Sound, StepAdvance, Applies, BatchSaves, AssignmentSaves, RefreshSaves, NoCrossing, CountFits, NoOrphans, StillEnrolled, NobodysOnlyTarget, TargetsFit;
    if req !in w.requests {
      NothingToAdvance(w, req);
    } else {
      match w.requests[req]
      case HoldsRoom(_, _, _) => HoldsRoomSound(w, req);
      case ComparedRoom(_, _, _, _) =>
        if Applies(w, w.requests[req]) {
          RoomSaveSoundExactlyWhen(w, req);
        } else {
          FailingMoves(w, req);
        }
      case Stripping(_, _) => StrippingSound(w, req);
      case HoldsBatch(_, b) =>
        if BatchSaves(w, w.requests[req]) {
          BatchSaveSoundExactlyWhen(w, req);
        } else {
          FailingMoves(w, req);
        }
      case DeletesBatch(id) =>
        BatchDeleteSoundExactlyWhen(w, req);
        if id !in w.db.batches {
          NobodyTargetsAMissingBatch(w, id);
        }
      case HoldsAssignment(_, _) =>
        if AssignmentSaves(w, w.requests[req]) {
          AssignmentSaveSound(w, req);
        } else {
          FailingMoves(w, req);
        }
      case HoldsRefresh(_, _, _) =>
        if RefreshSaves(w, w.requests[req]) {
          RefreshSaveSoundExactlyWhen(w, req);
        } else {
          FailingMoves(w, req);
        }
      case Resumes(call) => JudgedSound(w, call); PhaseMoves(w, req, Judged(w.db, call)); ResumesStep(w, req);
      case DeletesRoom(_) => RoomDeletionSound(w, req);
      case DeletesAssignment(_) => AssignmentDeletionSound(w, req);
      case _ => FinishedStays(w, req);
    }
  }

  lemma NobodyTargetsAMissingBatch(w: World, id: Id)
    requires Sound(w) && id !in w.db.batches
    ensures NobodysOnlyTarget(w.db, id)
  {
    assert id in {id};
  }

  lemma NothingToAdvance(w: World, req: RequestId)
    requires req !in w.requests
    ensures StepAdvance(w, req) == w
  {
  }

  lemma FinishedStays(w: World, req: RequestId)
    requires req in w.requests && (w.requests[req] == Done || w.requests[req] == Failed)
    ensures StepAdvance(w, req) == w
  {
  }

  /** A save the database refuses changes no table. */
  lemma FailingMoves(w: World, req: RequestId)
    requires Sound(w) && req in w.requests
    requires var p := w.requests[req];
             (p.ComparedRoom? && !Applies(w, p)) || (p.HoldsBatch? && !BatchSaves(w, p)) || (p.HoldsAssignment? && !AssignmentSaves(w, p))
             || (p.HoldsRefresh? && !RefreshSaves(w, p))
    ensures Sound(StepAdvance(w, req))
  {
    hide Sound;
    assert StepAdvance(w, req) == Goes(w, req, Failed);
    FailedIsSound(w, req);
  }

  lemma FailedIsSound(w: World, req: RequestId)
    requires Sound(w) && !(req in w.requests && w.requests[req].Stripping?)
    ensures Sound(Goes(w, req, Failed))
  {
    PhaseMoves(w, req, Failed);
  }

  // ---------------------------------------------------------------- loading

  lemma AimedIsWellAimed(w: World, a: Assignment)
    requires RoomsSound(w) && BatchesSound(w) && Aimed(w.db, a)
    ensures WellAimed(w, a)
  {
  }

  lemma CarriedRoomSound(w: World, call: Step, d: Db)
    requires RoomsSound(w) && Attempted(w.db, call) == Ok(d)
    requires call.EditRoom? || call.DropProfessor? || call.DropStudent? || call.DropGrader?
    ensures call.id in d.classrooms && call.id in w.db.classrooms
    ensures Sorted(d.classrooms[call.id]) && d.classrooms[call.id].org == w.db.classrooms[call.id].org
  {
    hide CanManage, SameOrg;
    match call
    case EditRoom(id, studentIds, graderIds, professor, actor) =>
      hide WithStudents, WithGraders, WithProfessor, Sorted;
      assert Sorted(w.db.classrooms[id]);
      UpdatedSorted(w.db, id, studentIds, graderIds, professor, actor);
    case DropProfessor(id, actor) => assert Sorted(w.db.classrooms[id]);
    case DropStudent(id, user, actor) =>
      assert Sorted(w.db.classrooms[id]);
      WhereDistinct(w.db.classrooms[id].students, Without(user));
    case DropGrader(id, user, actor) =>
      assert Sorted(w.db.classrooms[id]);
      WhereDistinct(w.db.classrooms[id].graders, Without(user));
  }

  lemma CarriedBatchSound(w: World, call: Step, d: Db)
    requires BatchesSound(w) && Attempted(w.db, call) == Ok(d)
    requires call.NewBatch? || call.EditBatch? || call.JoinBatch? || call.LeaveBatch?
    ensures call.id in d.batches && NoDup(d.batches[call.id].students)
    ensures !call.NewBatch? ==> call.id in w.homes && w.homes[call.id] == d.batches[call.id].classroomId
  {
    hide CanManage, NameClash;
    match call
    case NewBatch(room, name, ids, actor, id) => ResolveBatchMeans(w.db.classrooms[room], ids);
    case EditBatch(room, id, name, ids, actor) =>
      assert BatchHome(w.db, w.requests, w.db.batches[id]);
      if ids.Some? { ResolveBatchMeans(w.db.classrooms[room], ids.value); }
    case JoinBatch(room, id, ids, actor) =>
      assert BatchHome(w.db, w.requests, w.db.batches[id]);
      ResolveBatchMeans(w.db.classrooms[room], ids);
      AddAllDistinct(w.db.batches[id].students, ResolveBatch(w.db.classrooms[room], ids).value);
    case LeaveBatch(room, id, user, actor) =>
      assert BatchHome(w.db, w.requests, w.db.batches[id]);
      WhereDistinct(w.db.batches[id].students, Without(user));
  }

  lemma CarriedNewAssignmentSound(w: World, call: Step, d: Db)
    requires RoomsSound(w) && BatchesSound(w) && Attempted(w.db, call) == Ok(d) && call.NewAssignment?
    ensures call.id in d.assignments && WellAimed(w, d.assignments[call.id])
  {
    hide StaffOrGrader, RoomsSound, BatchesSound, WellAimed, ResolveTargeting;
    var blank := Assignment(call.room, w.db.classrooms[call.room].org, call.actor.id, if call.asDraft then Draft else Scheduled,
                            call.start, call.end, Plain, None, ToClassroom, {});
    ResolvedIsAimed(w.db, blank, call.t, call.actor);
    AimedIsWellAimed(w, d.assignments[call.id]);
  }

  /** What the checks of a call on an assignment let through is sound by itself. */
  lemma JudgedSound(w: World, call: Step)
    requires Sound(w)
    ensures PhaseSound(w, Judged(w.db, call))
  {
    hide StaffOrGrader, EditedAssignment, BatchesSound, RoomsSound, WellAimed, Sorted, BatchHome;
    if OnAssignment(call) && StoredFor(w.db, call.id, call.actor).Ok? {
      var a := w.db.assignments[call.id];
      assert WellAimed(w, a) && Filed(w, call.id, a);
      forall to ensures WellAimed(w, a.(status := to)) {
        SameAim(w, a, a.(status := to));
      }
      if call.EditAssignment? && EditedAssignment(w.db, a, call.newStart, call.newEnd, call.t, call.actor).Ok? {
        EditedIsWellAimed(w, a, call.newStart, call.newEnd, call.t, call.actor);
        EditedKeepsRoom(w.db, a, call.newStart, call.newEnd, call.t, call.actor);
      }
    }
  }

  /** On the refreshed row the checks and the save of a call on an assignment are its one-step form. */
  lemma JudgedIsTheOneStepForm(db: Db, call: Step)
    requires OnAssignment(call)
    ensures var seen := Seen(db, call.id); var p := Judged(seen, call);
            && (p.Failed? <==> Attempted(db, call).Err?)
            && (p.HoldsAssignment? ==> Attempted(db, call) == Ok(seen.(assignments := seen.assignments[p.id := p.edited])))
            && (p.DeletesAssignment? ==> Attempted(db, call) == Ok(seen.(assignments := seen.assignments - {p.id})))
            && (p.Failed? || p.HoldsAssignment? || p.DeletesAssignment?)
  {
    hide StaffOrGrader, EditedAssignment, Aged;
    if call.id in db.assignments {
      AgedKeepsRoom(db.assignments[call.id], db.now);
    }
    if StoredFor(db, call.id, call.actor).Ok? {
      JudgedWhenManaged(db, call);
    }
  }

  lemma JudgedWhenManaged(db: Db, call: Step)
    requires OnAssignment(call) && StoredFor(db, call.id, call.actor).Ok?
    ensures var seen := Seen(db, call.id); var p := Judged(seen, call);
            && (p.Failed? <==> Attempted(db, call).Err?)
            && (p.HoldsAssignment? ==> Attempted(db, call) == Ok(seen.(assignments := seen.assignments[p.id := p.edited])))
            && (p.DeletesAssignment? ==> Attempted(db, call) == Ok(seen.(assignments := seen.assignments - {p.id})))
            && (p.Failed? || p.HoldsAssignment? || p.DeletesAssignment?)
  {
    hide StaffOrGrader, EditedAssignment, Aged;
    var id, a, seen := call.id, Aged(db.assignments[call.id], db.now), Seen(db, call.id);
    AgedKeepsRoom(db.assignments[id], db.now);
    assert StoredFor(seen, id, call.actor) == Ok(a) && Managed(db, id, call.actor) == Ok(a);
    var p := Judged(seen, call);
    assert p.HoldsAssignment? ==> seen.assignments[id := p.edited] == db.assignments[id := p.edited];
    assert seen.assignments - {id} == db.assignments - {id};
    if call.EditAssignment? {
      EditingReadsBatches(db, seen, a, call.newStart, call.newEnd, call.t, call.actor);
    }
  }

  lemma AgedKeepsRoom(a: Assignment, now: int)
    ensures Aged(a, now).classroomId == a.classroomId
  {
  }

  lemma EditingReadsBatches(x: Db, y: Db, a: Assignment, start: Option<int>, end: Option<int>, t: Targeting, actor: Actor)
    requires x.batches == y.batches
    ensures EditedAssignment(x, a, start, end, t, actor) == EditedAssignment(y, a, start, end, t, actor)
  {
  }

  lemma EditedKeepsRoom(db: Db, a: Assignment, start: Option<int>, end: Option<int>, t: Targeting, actor: Actor)
    requires EditedAssignment(db, a, start, end, t, actor).Ok?
    ensures EditedAssignment(db, a, start, end, t, actor).value.classroomId == a.classroomId
    ensures EditedAssignment(db, a, start, end, t, actor).value.status == a.status
  {
  }

  lemma ResumesStep(w: World, req: RequestId)
    requires req in w.requests && w.requests[req].Resumes?
    ensures StepAdvance(w, req) == Goes(w, req, Judged(w.db, w.requests[req].call))
  {
    hide Judged;
  }

  lemma SameAim(w: World, a: Assignment, b: Assignment)
    requires WellAimed(w, a) && b == a.(status := b.status)
    ensures WellAimed(w, b)
  {
  }

  lemma EditedIsWellAimed(w: World, a: Assignment, start: Option<int>, end: Option<int>, t: Targeting, actor: Actor)
    requires RoomsSound(w) && BatchesSound(w) && WellAimed(w, a) && a.classroomId in w.db.classrooms
    requires EditedAssignment(w.db, a, start, end, t, actor).Ok?
    ensures WellAimed(w, EditedAssignment(w.db, a, start, end, t, actor).value)
  {
    hide ResolveTargeting, BatchesSound;
    if t != Targeting(None, None, None, None) {
      EditedIsAimed(w, a, start, end, t, actor);
      AimedIsWellAimed(w, EditedAssignment(w.db, a, start, end, t, actor).value);
    }
  }

  lemma EditedIsAimed(w: World, a: Assignment, start: Option<int>, end: Option<int>, t: Targeting, actor: Actor)
    requires a.classroomId in w.db.classrooms && a.org == w.db.classrooms[a.classroomId].org && t != Targeting(None, None, None, None)
    requires EditedAssignment(w.db, a, start, end, t, actor).Ok?
    ensures Aimed(w.db, EditedAssignment(w.db, a, start, end, t, actor).value)
  {
    hide ResolveTargeting;
    var dated := a.(start := if start.Some? then start.value else a.start, end := if end.Some? then end.value else a.end);
    var duration := if t.duration.Some? then t.duration else a.duration;
    ResolvedIsAimed(w.db, dated, Targeting(Merge(t.kind, a.kind), Merge(t.target, a.target), duration, Merge(t.batchIds, a.targets)), actor);
  }

  /** What a call carries is sound by itself. */
  lemma CarriedSound(w: World, after: World, call: Step, d: Db)
    requires Sound(w) && Attempted(w.db, call) == Ok(d) && FreshFor(w, call)
    requires after.rooms == if call.NewRoom? && call.id in d.classrooms then w.rooms[call.id := d.classrooms[call.id].org] else w.rooms
    requires after.homes == if call.NewBatch? && call.id in d.batches then w.homes[call.id := d.batches[call.id].classroomId] else w.homes
    requires after.papers == if call.NewAssignment? && call.id in d.assignments then w.papers[call.id := d.assignments[call.id].classroomId] else w.papers
    ensures PhaseSound(after, Carried(d, call))
  {
    hide Attempted, Sorted, RoomsSound, BatchesSound, AssignmentsSound, WellAimed;
    match call
    case NewRoom(dto, actor, id) => NewRoomCarried(w, dto, actor, id, d);
    case EditRoom(_, _, _, _, _) => CarriedRoomSound(w, call, d); RoomRegistered(w, call.id);
    case DropProfessor(_, _) => CarriedRoomSound(w, call, d); RoomRegistered(w, call.id);
    case DropStudent(_, _, _) => CarriedRoomSound(w, call, d); RoomRegistered(w, call.id);
    case DropGrader(_, _, _) => CarriedRoomSound(w, call, d); RoomRegistered(w, call.id);
    case NewBatch(_, _, _, _, _) => CarriedBatchSound(w, call, d);
    case EditBatch(_, _, _, _, _) => CarriedBatchSound(w, call, d);
    case JoinBatch(_, _, _, _) => CarriedBatchSound(w, call, d);
    case LeaveBatch(_, _, _, _) => CarriedBatchSound(w, call, d);
    case DropBatch(_, id, _) => DeletedBatchRegistered(w, call, d);
    case NewAssignment(_, _, _, _, _, _, _) => CarriedNewAssignmentSound(w, call, d); AimStays(w, after, d.assignments[call.id]);
    case _ =>
  }

  lemma DeletedBatchRegistered(w: World, call: Step, d: Db)
    requires BatchesSound(w) && call.DropBatch? && Attempted(w.db, call) == Ok(d)
    ensures call.id in w.homes
  {
    hide BatchHome, NamesApart, CanManage;
  }

  lemma NewRoomCarried(w: World, dto: NewClassroom, actor: Actor, id: Id, d: Db)
    requires Attempted(w.db, NewRoom(dto, actor, id)) == Ok(d)
    ensures id in d.classrooms && Sorted(d.classrooms[id])
  {
    hide ResolveMembers, Sorted;
    CreatedSorted(w.db, dto, actor, id);
  }

  lemma RoomRegistered(w: World, id: Id)
    requires RoomsSound(w) && id in w.db.classrooms
    ensures id in w.rooms && w.rooms[id] == w.db.classrooms[id].org
  {
  }

  lemma RegistryGrows(w: World, after: World, req: RequestId, p: Phase)
    requires Sound(w) && req !in w.requests && after.db == w.db && after.requests == w.requests[req := p] && PhaseSound(after, p)
    requires forall c :: c in w.rooms ==> c in after.rooms && after.rooms[c] == w.rooms[c]
    requires forall b :: b in w.homes ==> b in after.homes && after.homes[b] == w.homes[b]
    requires forall a :: a in w.papers ==> a in after.papers && after.papers[a] == w.papers[a]
    ensures Sound(after)
  {
    hide Sorted, WellAimed, BatchHome;
    PhasesStay(w, after, req);
    forall b | b in after.db.batches ensures BatchHome(after.db, after.requests, after.db.batches[b]) {
      HomeOf(w, b);
      BatchStays(w, after, req, w.db.batches[b]);
    }
    forall a | a in after.db.assignments ensures WellAimed(after, after.db.assignments[a]) {
      AimGrows(w, after, w.db.assignments[a]);
    }
  }

  lemma AimGrows(w: World, after: World, a: Assignment)
    requires WellAimed(w, a)
    requires forall c :: c in w.rooms ==> c in after.rooms && after.rooms[c] == w.rooms[c]
    requires forall b :: b in w.homes ==> b in after.homes && after.homes[b] == w.homes[b]
    ensures WellAimed(after, a)
  {
  }

  lemma LoadSound(w: World, req: RequestId, call: Step)
    requires Sound(w)
    ensures Sound(StepLoad(w, req, call))
  {
    hide Sound, Attempted, Carried, PhaseSound, StepLook;
    if req !in w.requests && FreshFor(w, call) && !call.Tick? {
      var after := StepLoad(w, req, call);
      if call.See? {
        LookSound(w, req, {call.id}, true, None);
      } else if OnAssignment(call) {
        LookSound(w, req, {call.id}, true, Some(call));
      } else {
        match Attempted(w.db, call)
        case Err(_) =>
          assert after == Goes(w, req, Failed);
          FailedIsSound(w, req);
        case Ok(d) =>
          CarriedSound(w, after, call, d);
          RegistryGrows(w, after, req, Carried(d, call));
      }
    }
  }

  lemma LookSound(w: World, req: RequestId, ids: set<Id>, related: bool, next: Option<Step>)
    requires Sound(w) && req !in w.requests
    ensures Sound(StepLook(w, req, ids, related, next))
  {
    hide Sound, Judged, PhaseSound, Due;
    DueSound(w, ids, related, next);
    if Due(w.db, ids) != map[] {
      PhaseMoves(w, req, HoldsRefresh(Due(w.db, ids), related, next));
    } else if next.Some? {
      JudgedSound(w, next.value);
      PhaseMoves(w, req, Judged(w.db, next.value));
    } else {
      PhaseMoves(w, req, Done);
    }
  }

  lemma DueSound(w: World, ids: set<Id>, related: bool, next: Option<Step>)
    requires Sound(w)
    ensures PhaseSound(w, HoldsRefresh(Due(w.db, ids), related, next)) && PhaseSound(w, Done)
  {
    hide Sorted, BatchHome, WellAimed;
    forall id | id in Due(w.db, ids) ensures WellAimed(w, Due(w.db, ids)[id]) && Filed(w, id, Due(w.db, ids)[id]) {
      assert WellAimed(w, w.db.assignments[id]) && Filed(w, id, w.db.assignments[id]);
      SameAim(w, w.db.assignments[id], Due(w.db, ids)[id]);
    }
  }

  // ---------------------------------------------------------------- every run

  /** A step of any kind keeps the structure exactly under its guard. */
  lemma StepSoundExactlyWhen(w: World, step: RaceStep)
    requires Sound(w)
    ensures Sound(ClassroomRaces.Apply(w, step)) <==> Safe(w, step)
  {
    hide Sound, StepLoad, StepLook, StepAdvance, Safe;
    match step
    case Wait(ms) => WaitSound(w, ms);
    case Load(req, call) => LoadSound(w, req, call); OnlyAdvancesAreGuarded(w, step);
    case Look(req, ids, related) =>
      if req !in w.requests { LookSound(w, req, ids, related, None); }
      OnlyAdvancesAreGuarded(w, step);
    case Advance(req) => AdvanceSoundExactlyWhen(w, req);
  }

  lemma OnlyAdvancesAreGuarded(w: World, step: RaceStep)
    requires !step.Advance?
    ensures Safe(w, step)
  {
  }

  lemma WaitSound(w: World, ms: nat)
    requires Sound(w)
    ensures Sound(w.(db := w.db.(now := w.db.now + ms))) && Safe(w, Wait(ms))
  {
    hide Sorted, WellAimed;
    var after := w.(db := w.db.(now := w.db.now + ms));
    forall b | b in after.db.batches ensures BatchHome(after.db, after.requests, after.db.batches[b]) {
      assert BatchHome(w.db, w.requests, w.db.batches[b]);
    }
    AssignmentsStay(w, after);
    forall r | r in after.requests ensures PhaseSound(after, after.requests[r]) {
      PhaseStays(w, after, w.requests[r]);
    }
  }

  ghost predicate SafeRun(w: World, steps: seq<RaceStep>)
    decreases |steps|
  {
    steps == [] || (Safe(w, steps[0]) && SafeRun(ClassroomRaces.Apply(w, steps[0]), steps[1..]))
  }

  /**
   Over every interleaving of calls in which each save finds what its guard asks for, the
   structure holds, up to batch rows that a call still under way is about to delete; and with
   no such call left it holds outright.
   */
  lemma {:induction false} StructureOverEveryInterleaving(w: World, steps: seq<RaceStep>)
    requires Sound(w) && SafeRun(w, steps)
    ensures Sound(ClassroomRaces.Run(w, steps))
    ensures (forall req :: req in ClassroomRaces.Run(w, steps).requests ==> !ClassroomRaces.Run(w, steps).requests[req].Stripping?) ==> Structured(ClassroomRaces.Run(w, steps).db)
    decreases |steps|
  {
    hide Sound, ClassroomRaces.Apply, Safe, Structured;
    if steps != [] {
      StepSoundExactlyWhen(w, steps[0]);
      StructureOverEveryInterleaving(ClassroomRaces.Apply(w, steps[0]), steps[1..]);
    } else {
      if forall req :: req in w.requests ==> !w.requests[req].Stripping? {
        SoundIsStructured(w);
      }
    }
  }

  // ---------------------------------------------------------------- statuses

  /** The step saves the assignment, edited or only refreshed, with a status its stored row has already passed. */
  predicate TakesBack(w: World, step: RaceStep, id: Id) {
    && step.Advance? && step.req in w.requests && id in w.db.assignments
    && var p := w.requests[step.req];
       (p.HoldsAssignment? && p.id == id && AssignmentSaves(w, p) && Stage(p.edited.status) < Stage(w.db.assignments[id].status))
       || (p.HoldsRefresh? && id in p.rows && RefreshSaves(w, p) && Stage(p.rows[id].status) < Stage(w.db.assignments[id].status))
  }

  /** Only such a save takes a status back, and it always does. */
  lemma StatusGoesBackExactlyWhen(w: World, step: RaceStep, id: Id)
    requires id in w.db.assignments && id in ClassroomRaces.Apply(w, step).db.assignments
    ensures Stage(ClassroomRaces.Apply(w, step).db.assignments[id].status) < Stage(w.db.assignments[id].status) <==> TakesBack(w, step, id)
  {
    hide AssignmentSaves, RefreshSaves, StepLoad, StepLook, StepAdvance;
    match step
    case Wait(_) =>
    case Load(req, call) => LoadWritesNothing(w, req, call);
    case Look(req, ids, related) => LookWritesNothing(w, req, ids, related, None);
    case Advance(req) =>
      if req in w.requests && w.requests[req].HoldsAssignment? {
        SavingAnAssignment(w, req);
      } else if req in w.requests && w.requests[req].HoldsRefresh? {
        SavingARefresh(w, req, id);
      } else {
        OtherSavesKeepStatuses(w, req, id);
      }
  }

  lemma LoadWritesNothing(w: World, req: RequestId, call: Step)
    ensures StepLoad(w, req, call).db == w.db
  {
    hide Attempted, Carried, StepLook;
    if req !in w.requests && (call.See? || OnAssignment(call)) {
      LookWritesNothing(w, req, {call.id}, true, if call.See? then None else Some(call));
    }
  }

  lemma LookWritesNothing(w: World, req: RequestId, ids: set<Id>, related: bool, next: Option<Step>)
    ensures StepLook(w, req, ids, related, next).db == w.db
  {
    hide Judged, Due;
  }

  lemma SavingARefresh(w: World, req: RequestId, id: Id)
    requires req in w.requests && w.requests[req].HoldsRefresh? && id in w.db.assignments
    ensures id in StepAdvance(w, req).db.assignments
    ensures var p := w.requests[req];
            StepAdvance(w, req).db.assignments[id].status
              == if RefreshSaves(w, p) && id in p.rows then p.rows[id].status else w.db.assignments[id].status
  {
    hide RefreshSaves;
  }

  lemma SavingAnAssignment(w: World, req: RequestId)
    requires req in w.requests && w.requests[req].HoldsAssignment?
    ensures StepAdvance(w, req).db == if AssignmentSaves(w, w.requests[req])
            then w.db.(assignments := w.db.assignments[w.requests[req].id := w.requests[req].edited]) else w.db
  {
    hide AssignmentSaves;
  }

  lemma OtherSavesKeepStatuses(w: World, req: RequestId, id: Id)
    requires !(req in w.requests && (w.requests[req].HoldsAssignment? || w.requests[req].HoldsRefresh?)) && id in w.db.assignments
    requires id in StepAdvance(w, req).db.assignments
    ensures StepAdvance(w, req).db.assignments[id].status == w.db.assignments[id].status
  {
    hide StepAdvance;
    if req !in w.requests {
      NothingToAdvance(w, req);
    } else {
      match w.requests[req]
      case HoldsRoom(_, _, _) => SavingARoomKeepsStatuses(w, req);
      case ComparedRoom(_, _, _, _) => SavingARoomKeepsStatuses(w, req);
      case Resumes(_) => ResumesStep(w, req);
      case Stripping(_, _) => SavingBatchesKeepsStatuses(w, req);
      case HoldsBatch(_, _) => SavingBatchesKeepsStatuses(w, req);
      case DeletesBatch(_) => DeletingKeepsStatuses(w, req, id);
      case DeletesRoom(_) => DeletingKeepsStatuses(w, req, id);
      case DeletesAssignment(_) => DeletingKeepsStatuses(w, req, id);
      case _ => FinishedStays(w, req);
    }
  }

  lemma SavingBatchesKeepsStatuses(w: World, req: RequestId)
    requires req in w.requests && (w.requests[req].Stripping? || w.requests[req].HoldsBatch?)
    ensures StepAdvance(w, req).db.assignments == w.db.assignments
  {
    hide BatchSaves;
  }

  lemma DeletingKeepsStatuses(w: World, req: RequestId, id: Id)
    requires req in w.requests && (w.requests[req].DeletesBatch? || w.requests[req].DeletesRoom? || w.requests[req].DeletesAssignment?)
    requires id in w.db.assignments && id in StepAdvance(w, req).db.assignments
    ensures StepAdvance(w, req).db.assignments[id].status == w.db.assignments[id].status
  {
  }

  lemma SavingARoomKeepsStatuses(w: World, req: RequestId)
    requires req in w.requests && (w.requests[req].HoldsRoom? || w.requests[req].ComparedRoom?)
    ensures StepAdvance(w, req).db.assignments == w.db.assignments
  {
    hide Applies, Merged, Compare;
  }

  /** The assignment is there throughout, and no step of the run takes its status back. */
  predicate NeverTakenBack(w: World, steps: seq<RaceStep>, id: Id)
    decreases |steps|
  {
    && id in w.db.assignments
    && (steps != [] ==> !TakesBack(w, steps[0], id) && NeverTakenBack(ClassroomRaces.Apply(w, steps[0]), steps[1..], id))
  }

  /** Without such a save an assignment that stays never goes back, whatever interleaves. */
  lemma {:induction false} StatusStandsUnlessTakenBack(w: World, steps: seq<RaceStep>, id: Id)
    requires NeverTakenBack(w, steps, id)
    ensures id in ClassroomRaces.Run(w, steps).db.assignments
    ensures Stage(w.db.assignments[id].status) <= Stage(ClassroomRaces.Run(w, steps).db.assignments[id].status)
    decreases |steps|
  {
    hide ClassroomRaces.Apply, TakesBack;
    if steps != [] {
      StatusGoesBackExactlyWhen(w, steps[0], id);
      StatusStandsUnlessTakenBack(ClassroomRaces.Apply(w, steps[0]), steps[1..], id);
    }
  }
}
