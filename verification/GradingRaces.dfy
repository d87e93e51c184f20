/**
 Grading calls alone and overlapping: run without interference a call is its atomic form; the
 exact condition under which the save of a total, or of a row loaded earlier, still does the
 right thing; and runs that reach the wrong one.
 */
module GradingRaces {
  import opened Common
  import opened Tables
  import opened Grading
  import opened RevealGate
  import opened Rollups
  import opened Totals
  import opened GradingCalls
  import opened GradingRuns

  // ---------------------------------------------------------------- a call alone

  /** The row a call starts from, and the one it leaves. */
  function Loaded(db: Db, slot: Slot): Row {
    match Current(db, slot)
    case None => Blank(slot)
    case Some(row) => row
  }

  function NewRow(db: Db, job: Job): Row {
    Edited(job.edit, Loaded(db, job.slot))
  }

  /** An MCQ grade needs a response to override. */
  predicate Refused(db: Db, job: Job) {
    job.slot.McqSlot? && job.edit.Marking? && Current(db, job.slot).None?
  }

  /** A call up to and including its three sums. */
  function UpToSums(req: RequestId, call: Call): seq<Step> {
    [Begin(req, call), Advance(req), Advance(req), Advance(req), ReadSum(req, Coding), ReadSum(req, Mcq), ReadSum(req, Quiz), Advance(req)]
  }

  /** The rest of it. */
  function FromSums(req: RequestId): seq<Step> {
    [Advance(req), Advance(req), Advance(req)]
  }

  function Uninterrupted(req: RequestId, call: Call): seq<Step> {
    UpToSums(req, call) + FromSums(req)
  }

  lemma {:induction false} RunInTwo(w: World, xs: seq<Step>, ys: seq<Step>)
    ensures Run(w, xs + ys) == Run(Run(w, xs), ys)
    decreases |xs|
  {
    hide Apply;
    if xs == [] {
      assert xs + ys == ys;
    } else {
      assert (xs + ys)[0] == xs[0] && (xs + ys)[1..] == xs[1..] + ys;
      RunInTwo(Apply(w, xs[0]), xs[1..], ys);
    }
  }

  lemma RunThree(w: World, x: Step, y: Step, z: Step)
    ensures Run(w, [x, y, z]) == Apply(Apply(Apply(w, x), y), z)
  {
    hide Apply;
    assert [x, y, z][1..] == [y, z] && [y, z][1..] == [z] && [z][1..] == [];
    assert Run(w, [x, y, z]) == Run(Apply(w, x), [y, z]) == Run(Apply(Apply(w, x), y), [z]) == Run(Apply(Apply(Apply(w, x), y), z), []);
  }

  /** The saved row, by a request that has found its job. */
  lemma RowHalf(w: World, req: RequestId, job: Job)
    requires UniqueKeys(w.db) && req in w.requests && w.requests[req] == Finding(job) && Parent(w.db, job.slot).Some?
    ensures var after := Run(w, [Advance(req), Advance(req), Advance(req)]);
            if Refused(w.db, job) then after == Goes(w, req, Failed)
            else
              && after.db == Save(w.db, NewRow(w.db, job)) && after.basis == w.basis
              && after.requests == w.requests[req := match job.recompute case None => Done case Some(a) => Summing(a, job.slot.user, None)]
  {
    hide UniqueKeys, Parent, Edited, Points, PointsAt, First;
    RunThree(w, Advance(req), Advance(req), Advance(req));
    var w1 := Apply(w, Advance(req));
    if Current(w.db, job.slot).None? && job.slot.PsSlot? {
      FreshRowHalf(w, req, job);
    } else if !Refused(w.db, job) {
      var w2 := Apply(w1, Advance(req));
      SaveSkips(w1, req, job);
    }
  }

  /** Once saved, another advance does nothing until the sums are read. */
  lemma SaveSkips(w: World, req: RequestId, job: Job)
    requires req in w.requests && w.requests[req].Holding? && w.requests[req].job == job && Parent(w.db, job.slot).Some?
    requires w.requests[req].stored || Current(w.db, job.slot).None?
    ensures var saved := Apply(w, Advance(req));
            && Apply(saved, Advance(req)) == saved
            && saved.db == Save(w.db, Edited(job.edit, w.requests[req].row)) && saved.basis == w.basis
            && saved.requests == w.requests[req := match job.recompute case None => Done case Some(a) => Summing(a, job.slot.user, None)]
  {
    hide Parent, Edited, Points, PointsAt, Save, Current;
    var saved := Apply(w, Advance(req));
    assert saved.requests[req] == Done || saved.requests[req].Summing?;
  }

  /** A problem score that does not exist yet is inserted blank first. */
  lemma FreshRowHalf(w: World, req: RequestId, job: Job)
    requires UniqueKeys(w.db) && req in w.requests && w.requests[req] == Finding(job) && Parent(w.db, job.slot).Some?
    requires Current(w.db, job.slot).None? && job.slot.PsSlot?
    ensures var after := Apply(Apply(Apply(w, Advance(req)), Advance(req)), Advance(req));
            && after.db == Save(w.db, NewRow(w.db, job)) && after.basis == w.basis
            && after.requests == w.requests[req := match job.recompute case None => Done case Some(a) => Summing(a, job.slot.user, None)]
  {
    hide UniqueKeys, Points, PointsAt, Edited;
    var blank := Blank(job.slot);
    var w2 := Apply(Apply(w, Advance(req)), Advance(req));
    assert w2.db == Save(w.db, blank) && w2.requests == w.requests[req := Holding(job, blank, true)];
    ParentStands(w.db, blank, job.slot);
    SaveSkips(w2, req, job);
    EditKeepsSlot(job.edit, blank);
    SaveTwice(w.db, blank, Edited(job.edit, blank));
  }

  lemma ParentStands(db: Db, row: Row, slot: Slot)
    ensures Parent(Save(db, row), slot) == Parent(db, slot)
  {
  }

  lemma SaveTwice(db: Db, x: Row, y: Row)
    requires UniqueKeys(db)
    requires SlotOf(x) == SlotOf(y)
    ensures Save(Save(db, x), y) == Save(db, y)
  {
    match x
    case PsRow(r) => PutTwice(db.problemScores, PsKey, r, y.ps);
    case McqRow(r) => PutTwice(db.mcq, McqKey, r, y.mcq);
    case QuizRow(r) => PutTwice(db.quiz, QuizKey, r, y.quiz);
  }

  /** Three sums read together are the total. */
  lemma SumsHalf(w: World, req: RequestId, a: Id, user: Id)
    requires req in w.requests && w.requests[req] == Summing(a, user, None)
    ensures var after := Apply(Apply(Apply(Apply(w, ReadSum(req, Coding)), ReadSum(req, Mcq)), ReadSum(req, Quiz)), Advance(req));
            after == Goes(w, req, FindingTotal(a, user, Version(w, a, user), Rollup(w.db, a, user)))
  {
    hide SumOf, Rollup;
    RollupIsThreeSums(w.db, a, user);
    var c, m, q := SumOf(w.db, Coding, a, user), SumOf(w.db, Mcq, a, user), SumOf(w.db, Quiz, a, user);
    var since := Version(w, a, user);
    var w1 := Apply(w, ReadSum(req, Coding));
    assert w1 == Goes(w, req, Summing(a, user, Some(Sums(since, Some(c), None, None))));
    var w2 := Apply(w1, ReadSum(req, Mcq));
    assert w2 == Goes(w, req, Summing(a, user, Some(Sums(since, Some(c), Some(m), None))));
    var w3 := Apply(w2, ReadSum(req, Quiz));
    assert w3 == Goes(w, req, Summing(a, user, Some(Sums(since, Some(c), Some(m), Some(q)))));
  }

  /** Reading sums for a request that wants none changes nothing. */
  lemma NoSums(w: World, req: RequestId)
    requires req in w.requests && (w.requests[req] == Done || w.requests[req] == Failed)
    ensures Apply(Apply(Apply(Apply(w, ReadSum(req, Coding)), ReadSum(req, Mcq)), ReadSum(req, Quiz)), Advance(req)) == w
    ensures Apply(Apply(Apply(w, Advance(req)), Advance(req)), Advance(req)) == w
  {
  }

  lemma RunEight(w: World, req: RequestId, call: Call)
    requires req !in w.requests
    ensures var begun := Apply(w, Begin(req, call));
            var rows := Run(begun, [Advance(req), Advance(req), Advance(req)]);
            Run(w, UpToSums(req, call)) == Apply(Apply(Apply(Apply(rows, ReadSum(req, Coding)), ReadSum(req, Mcq)), ReadSum(req, Quiz)), Advance(req))
  {
    hide Apply;
    var begun := Apply(w, Begin(req, call));
    var three := [Advance(req), Advance(req), Advance(req)];
    var rows := Run(begun, three);
    var tail := [ReadSum(req, Coding), ReadSum(req, Mcq), ReadSum(req, Quiz), Advance(req)];
    assert UpToSums(req, call) == [Begin(req, call)] + (three + tail);
    RunInTwo(w, [Begin(req, call)], three + tail);
    assert [Begin(req, call)][1..] == [];
    assert Run(w, [Begin(req, call)]) == Run(begun, []) == begun;
    RunInTwo(begun, three, tail);
    assert tail == [ReadSum(req, Coding), ReadSum(req, Mcq), ReadSum(req, Quiz)] + [Advance(req)];
    RunInTwo(rows, [ReadSum(req, Coding), ReadSum(req, Mcq), ReadSum(req, Quiz)], [Advance(req)]);
    RunThree(rows, ReadSum(req, Coding), ReadSum(req, Mcq), ReadSum(req, Quiz));
    var summed := Run(rows, [ReadSum(req, Coding), ReadSum(req, Mcq), ReadSum(req, Quiz)]);
    assert [Advance(req)][1..] == [];
    assert Run(summed, [Advance(req)]) == Run(Apply(summed, Advance(req)), []);
  }

  /** A call run up to its sums has saved its row and holds the true total. */
  lemma UpToSumsMeans(w: World, req: RequestId, call: Call)
    requires UniqueKeys(w.db) && req !in w.requests
    requires Resolve(w.db, call).Some? && Parent(w.db, Resolve(w.db, call).value.slot).Some? && !Refused(w.db, Resolve(w.db, call).value)
    ensures var job := Resolve(w.db, call).value; var after := Run(w, UpToSums(req, call));
            && after.db == Save(w.db, NewRow(w.db, job)) && after.basis == w.basis
            && (forall other :: other != req ==> (other in after.requests <==> other in w.requests))
            && (forall other :: other != req && other in w.requests ==> after.requests[other] == w.requests[other])
            && req in after.requests
            && (job.recompute == None ==> after.requests[req] == Done)
            && (job.recompute.Some? ==>
                  var a := job.recompute.value;
                  after.requests[req] == FindingTotal(a, job.slot.user, Version(after, a, job.slot.user), Rollup(after.db, a, job.slot.user)))
  {
    hide Rollup, UniqueKeys, Save, NewRow, Resolve, Run, SumOf, Parent, Refused;
    var job := Resolve(w.db, call).value;
    RunEight(w, req, call);
    var begun := Apply(w, Begin(req, call));
    assert begun == Goes(w, req, Finding(job));
    RowHalf(begun, req, job);
    var rows := Run(begun, [Advance(req), Advance(req), Advance(req)]);
    if job.recompute.Some? {
      SumsHalf(rows, req, job.recompute.value, job.slot.user);
    } else {
      NoSums(rows, req);
    }
  }

  /** The total row a recompute starts from. */
  function TotalRow(db: Db, a: Id, user: Id): AssignmentScore {
    match First(db.totals, HasKey(TotalKey, (a, user)))
    case None => AssignmentScore(a, user, 0.0, "")
    case Some(r) => r
  }

  /** From the sums on, the held total is stored, whatever the rows are by now. */
  lemma FromSumsMeans(w: World, req: RequestId)
    requires UniqueKeys(w.db) && req in w.requests && w.requests[req].FindingTotal?
    ensures var p := w.requests[req]; var after := Run(w, FromSums(req));
            && after.db == w.db.(totals := Put(w.db.totals, TotalKey, TotalRow(w.db, p.a, p.user).(finalScore := p.total)))
            && after.requests == w.requests[req := Done]
            && after.basis == w.basis[(p.a, p.user) := p.since] && after.writes == w.writes && after.drops == w.drops
  {
    hide UniqueKey, Put, First, Apply;
    RunThree(w, Advance(req), Advance(req), Advance(req));
    if First(w.db.totals, HasKey(TotalKey, (w.requests[req].a, w.requests[req].user))).Some? {
      StoredTotalHalf(w, req);
    } else {
      FreshTotalHalf(w, req);
    }
  }

  lemma StoredTotalHalf(w: World, req: RequestId)
    requires req in w.requests && w.requests[req].FindingTotal?
    requires First(w.db.totals, HasKey(TotalKey, (w.requests[req].a, w.requests[req].user))).Some?
    ensures var p := w.requests[req];
            Apply(Apply(Apply(w, Advance(req)), Advance(req)), Advance(req))
            == w.(db := w.db.(totals := Put(w.db.totals, TotalKey, TotalRow(w.db, p.a, p.user).(finalScore := p.total))),
                  requests := w.requests[req := Done], basis := w.basis[(p.a, p.user) := p.since])
  {
    hide Put, First;
    var p := w.requests[req];
    var r := TotalRow(w.db, p.a, p.user);
    var w1 := Apply(w, Advance(req));
    assert w1 == Goes(w, req, HoldingTotal(p.a, p.user, p.since, p.total, r));
    var w2 := Apply(w1, Advance(req));
    assert w2.requests == w.requests[req := Done];
  }

  lemma FreshTotalHalf(w: World, req: RequestId)
    requires UniqueKeys(w.db) && req in w.requests && w.requests[req].FindingTotal?
    requires First(w.db.totals, HasKey(TotalKey, (w.requests[req].a, w.requests[req].user))).None?
    ensures var p := w.requests[req];
            Apply(Apply(Apply(w, Advance(req)), Advance(req)), Advance(req))
            == w.(db := w.db.(totals := Put(w.db.totals, TotalKey, TotalRow(w.db, p.a, p.user).(finalScore := p.total))),
                  requests := w.requests[req := Done], basis := w.basis[(p.a, p.user) := p.since])
  {
    hide Put, First, UniqueKey;
    var p := w.requests[req];
    var blank := AssignmentScore(p.a, p.user, 0.0, "");
    var w1 := Apply(w, Advance(req));
    assert w1 == Goes(w, req, InsertingTotal(p.a, p.user, p.since, p.total));
    var w2 := Apply(w1, Advance(req));
    assert w2.requests == w.requests[req := HoldingTotal(p.a, p.user, p.since, p.total, blank)];
    PutTwice(w.db.totals, TotalKey, blank, blank.(finalScore := p.total));
    assert (w.basis - {(p.a, p.user)})[(p.a, p.user) := p.since] == w.basis[(p.a, p.user) := p.since];
  }

  // ---------------------------------------------------------------- the atomic form

  lemma PsUpsertIsSave(db: Db, ap: Id, user: Id, edit: Edit, write: ProblemScore -> ProblemScore)
    requires forall r :: PsKey(write(r)) == PsKey(r) && Edited(edit, PsRow(r)) == PsRow(write(r))
    ensures db.(problemScores := Upsert(db.problemScores, HasKey(PsKey, (ap, user)), NewProblemScore(ap, user), write))
         == Save(db, Edited(edit, Loaded(db, PsSlot(ap, user))))
  {
    FoundHasKey(db.problemScores, PsKey, (ap, user));
    UpsertIsPut(db.problemScores, PsKey, (ap, user), NewProblemScore(ap, user), write);
  }

  lemma McqUpsertIsSave(db: Db, id: Id, user: Id, edit: Edit, write: McqResponse -> McqResponse)
    requires forall r :: McqKey(write(r)) == McqKey(r) && Edited(edit, McqRow(r)) == McqRow(write(r))
    ensures db.(mcq := Upsert(db.mcq, HasKey(McqKey, (id, user)), McqResponse(id, user, [], 0.0), write))
         == Save(db, Edited(edit, Loaded(db, McqSlot(id, user))))
  {
    FoundHasKey(db.mcq, McqKey, (id, user));
    UpsertIsPut(db.mcq, McqKey, (id, user), McqResponse(id, user, [], 0.0), write);
  }

  lemma QuizUpsertIsSave(db: Db, id: Id, user: Id, edit: Edit, write: QuizResponse -> QuizResponse)
    requires forall r :: QuizKey(write(r)) == QuizKey(r) && Edited(edit, QuizRow(r)) == QuizRow(write(r))
    ensures db.(quiz := Upsert(db.quiz, HasKey(QuizKey, (id, user)), QuizResponse(id, user, "", None, ""), write))
         == Save(db, Edited(edit, Loaded(db, QuizSlot(id, user))))
  {
    FoundHasKey(db.quiz, QuizKey, (id, user));
    UpsertIsPut(db.quiz, QuizKey, (id, user), QuizResponse(id, user, "", None, ""), write);
  }

  lemma RecomputedIsPut(db: Db, a: Id, user: Id)
    ensures Recomputed(db, a, user) == db.(totals := Put(db.totals, TotalKey, TotalRow(db, a, user).(finalScore := Rollup(db, a, user))))
  {
    hide Rollup;
    FoundHasKey(db.totals, TotalKey, (a, user));
    UpsertIsPut(db.totals, TotalKey, (a, user), AssignmentScore(a, user, 0.0, ""), SetFinal(Rollup(db, a, user)));
  }

  /** The database after a call that nothing interrupted, from its job. */
  function After(db: Db, job: Job): Db {
    var d := Save(db, NewRow(db, job));
    match job.recompute
    case None => d
    case Some(a) => Recomputed(d, a, job.slot.user)
  }

  lemma GradeIsAfter(db: Db, item: Item, user: Id, g: Grade)
    requires ResolveGrade(item, user, g).Some?
    ensures var job := ResolveGrade(item, user, g).value;
            if Refused(db, job) then GradeWrites(db, item, user, g).Err? else GradeWrites(db, item, user, g) == Ok(Save(db, NewRow(db, job)))
  {
    hide Put, Upsert;
    match item.kind
    case Coding => PsUpsertIsSave(db, item.apId.value, user, Marking(g), GradePs(g));
    case Mcq => McqUpsertIsSave(db, item.id, user, Marking(g), GradeMcq(g));
    case Quiz => QuizUpsertIsSave(db, item.id, user, Marking(g), GradeQuiz(g));
  }

  /** The atomic form of a call is its refusal, or its row saved and its total recomputed. */
  lemma AtomicIsAfter(db: Db, call: Call)
    ensures Resolve(db, call).None? ==> Atomic(db, call) == db
    ensures Resolve(db, call).Some? ==>
              var job := Resolve(db, call).value; Atomic(db, call) == if Refused(db, job) then db else After(db, job)
  {
    hide Rollup, Put, Upsert, First, Recomputed;
    match call
    case Grading(itemId, user, g) =>
      if Resolve(db, call).Some? {
        GradeIsAfter(db, First(db.items, HasKey(ItemKey, itemId)).value, user, g);
      }
    case Updating(apId, user, g) => PsUpsertIsSave(db, apId, user, Marking(g), GradePs(g));
    case Finalizing(e, professorOf) =>
      if Resolve(db, call).Some? {
        FoundHasKey(db.problems, ProblemKey, e.apId);
        PsUpsertIsSave(db, e.apId, e.userId, Tracking(e.submission), Track(e.submission));
      }
    case SavingMcq(itemId, user, selected, awarded) =>
      FoundHasKey(db.items, ItemKey, itemId);
      McqUpsertIsSave(db, itemId, user, Answering(selected, awarded), Answer(selected, awarded));
    case SavingQuiz(itemId, user, text) =>
      FoundHasKey(db.items, ItemKey, itemId);
      QuizUpsertIsSave(db, itemId, user, Writing(text), AnswerText(text));
  }

  /** A resolved call hangs on a problem or item that is there. */
  lemma ResolvedHasParent(db: Db, call: Call)
    requires UniqueKeys(db) && WellLinked(db) && Resolve(db, call).Some?
    ensures var job := Resolve(db, call).value;
            Parent(db, job.slot).Some? && (job.recompute.Some? ==> Parent(db, job.slot) == job.recompute)
  {
    match call
    case Grading(itemId, user, g) =>
      ItemFound(db, itemId);
      var item := First(db.items, HasKey(ItemKey, itemId)).value;
      if item.kind == Coding {
        ProblemParent(db, item.apId.value, user, item.assignmentId);
      }
    case Updating(apId, user, g) =>
    case Finalizing(e, professorOf) =>
    case SavingMcq(itemId, user, _, _) =>
    case SavingQuiz(itemId, user, _) =>
  }

  /** Run without interference, the statements of a call add up to its atomic form. */
  lemma UninterruptedIsAtomic(w: World, req: RequestId, call: Call)
    requires UniqueKeys(w.db) && WellLinked(w.db) && req !in w.requests
    ensures Run(w, Uninterrupted(req, call)).db == Atomic(w.db, call)
    ensures var after := Run(w, Uninterrupted(req, call)).requests;
            && req in after && (after[req] == Done || after[req] == Failed)
            && (forall other :: other != req ==> (other in after <==> other in w.requests))
            && (forall other :: other != req && other in w.requests ==> after[other] == w.requests[other])
  {
    hide Run, UniqueKeys, WellLinked, Resolve, Atomic, Parent, Save, NewRow, Rollup, Put, UpToSums, FromSums, TotalRow;
    RunInTwo(w, UpToSums(req, call), FromSums(req));
    AtomicIsAfter(w.db, call);
    if Resolve(w.db, call).Some? && !Refused(w.db, Resolve(w.db, call).value) {
      var job := Resolve(w.db, call).value;
      ResolvedHasParent(w.db, call);
      UpToSumsMeans(w, req, call);
      var summed := Run(w, UpToSums(req, call));
      SaveKeepsTables(w.db, NewRow(w.db, job));
      if job.recompute.Some? {
        FromSumsMeans(summed, req);
        RecomputedIsPut(summed.db, job.recompute.value, job.slot.user);
      } else {
        StaysPut(summed, req);
      }
    } else {
      RefusedStaysPut(w, req, call);
    }
  }

  lemma StaysPut(w: World, req: RequestId)
    requires req in w.requests && (w.requests[req] == Done || w.requests[req] == Failed)
    ensures Run(w, FromSums(req)) == w
  {
    RunThree(w, Advance(req), Advance(req), Advance(req));
    NoSums(w, req);
  }

  lemma RefusedStaysPut(w: World, req: RequestId, call: Call)
    requires UniqueKeys(w.db) && WellLinked(w.db) && req !in w.requests
    requires Resolve(w.db, call).Some? ==> Refused(w.db, Resolve(w.db, call).value)
    ensures Run(Run(w, UpToSums(req, call)), FromSums(req)) == Goes(w, req, Failed)
  {
    hide Run, UniqueKeys, WellLinked, Resolve, Parent;
    RunEight(w, req, call);
    var begun := Apply(w, Begin(req, call));
    if Resolve(w.db, call).None? {
      RunThree(begun, Advance(req), Advance(req), Advance(req));
      NoSums(begun, req);
    } else {
      ResolvedHasParent(w.db, call);
      RowHalf(begun, req, Resolve(w.db, call).value);
      NoSums(Goes(begun, req, Failed), req);
      assert Goes(begun, req, Failed) == Goes(w, req, Failed);
    }
    StaysPut(Goes(w, req, Failed), req);
  }

  // ---------------------------------------------------------------- overlapping calls: totals

  /** Saving a held total leaves it right exactly when it is still the student's true total; no other stored total moves. */
  lemma SavedTotalIsRightExactlyWhen(w: World, req: RequestId)
    requires UniqueKeys(w.db) && req in w.requests && w.requests[req].HoldingTotal?
    requires TotalKey(w.requests[req].held) == (w.requests[req].a, w.requests[req].user)
    ensures var p := w.requests[req]; var after := StepAdvance(w, req).db;
            && (TotalRight(after, p.a, p.user) <==> p.total == Rollup(w.db, p.a, p.user))
            && (forall b, who :: (b, who) != (p.a, p.user) ==> StoredTotal(after, b, who) == StoredTotal(w.db, b, who))
  {
    hide Rollup, UniqueKeys, Put, StoredTotal;
    var p := w.requests[req];
    var r := p.held.(finalScore := p.total);
    assert StepAdvance(w, req).db == w.db.(totals := Put(w.db.totals, TotalKey, r));
    TotalSaved(w.db, r, p.a, p.user);
    forall b, who ensures (b, who) != (p.a, p.user) ==> StoredTotal(StepAdvance(w, req).db, b, who) == StoredTotal(w.db, b, who) {
      TotalSaved(w.db, r, b, who);
    }
  }

  /** Calls resolve the same while items and problems stand. */
  lemma ResolvesTheSame(x: Db, y: Db, call: Call)
    requires x.items == y.items && x.problems == y.problems
    ensures Resolve(x, call) == Resolve(y, call)
  {
  }

  /**
   Two calls for one student and assignment, the second running between the sums and the save
   of the first, and changing that student's points: both complete, and the stored total is
   wrong. No MCQ answer is involved.
   */
  lemma AnOverlappedTotalIsLost(w: World, x: RequestId, y: RequestId, first: Call, second: Call, a: Id, user: Id)
    requires UniqueKeys(w.db) && WellLinked(w.db) && x !in w.requests && y !in w.requests && x != y
    requires Resolve(w.db, first).Some? && Resolve(w.db, second).Some?
    requires var one := Resolve(w.db, first).value; one.recompute == Some(a) && one.slot.user == user && !Refused(w.db, one)
    requires var two := Resolve(w.db, second).value; two.recompute == Some(a) && two.slot.user == user
    requires var between := Save(w.db, NewRow(w.db, Resolve(w.db, first).value)); var two := Resolve(w.db, second).value;
             !Refused(between, two) && Points(NewRow(between, two)) != PointsAt(between, two.slot)
    ensures var after := Run(w, UpToSums(x, first) + Uninterrupted(y, second) + FromSums(x));
            && x in after.requests && after.requests[x] == Done && y in after.requests && after.requests[y] == Done
            && !TotalRight(after.db, a, user)
  {
    hide Run, UniqueKeys, WellLinked, Resolve, Atomic, Parent, Save, NewRow, Rollup, Put, UpToSums, FromSums, TotalRow, Points, PointsAt, Refused, StoredTotal;
    var steps := UpToSums(x, first) + Uninterrupted(y, second);
    RunInTwo(w, steps, FromSums(x));
    RunInTwo(w, UpToSums(x, first), Uninterrupted(y, second));
    ResolvedHasParent(w.db, first);
    UpToSumsMeans(w, x, first);
    var w1 := Run(w, UpToSums(x, first));
    SaveKeepsTables(w.db, NewRow(w.db, Resolve(w.db, first).value));
    SaveKeepsPaper(w.db, NewRow(w.db, Resolve(w.db, first).value));
    ResolvesTheSame(w.db, w1.db, second);
    SecondMovesTheTotal(w1, y, second, a, user);
    var w2 := Run(w1, Uninterrupted(y, second));
    FromSumsMeans(w2, x);
    var w3 := Run(w2, FromSums(x));
    var held := TotalRow(w2.db, a, user).(finalScore := Rollup(w1.db, a, user));
    TotalRowKey(w2.db, a, user);
    TotalSaved(w2.db, held, a, user);
  }

  lemma SaveKeepsPaper(db: Db, row: Row)
    ensures Save(db, row).items == db.items && Save(db, row).problems == db.problems
  {
  }

  lemma TotalRowKey(db: Db, a: Id, user: Id)
    ensures TotalKey(TotalRow(db, a, user)) == (a, user)
  {
    FoundHasKey(db.totals, TotalKey, (a, user));
  }

  lemma SecondMovesTheTotal(w: World, y: RequestId, second: Call, a: Id, user: Id)
    requires UniqueKeys(w.db) && WellLinked(w.db) && y !in w.requests && Resolve(w.db, second).Some?
    requires var two := Resolve(w.db, second).value;
             two.recompute == Some(a) && two.slot.user == user && !Refused(w.db, two) && Points(NewRow(w.db, two)) != PointsAt(w.db, two.slot)
    ensures var after := Run(w, Uninterrupted(y, second));
            && UniqueKeys(after.db) && Rollup(after.db, a, user) != Rollup(w.db, a, user)
            && y in after.requests && after.requests[y] == Done
            && (forall other :: other != y && other in w.requests ==> other in after.requests && after.requests[other] == w.requests[other])
  {
    hide Run, UniqueKeys, WellLinked, Resolve, Atomic, Parent, Save, Rollup, Put, UpToSums, FromSums, TotalRow, Points, PointsAt, Refused, StoredTotal, SumOf, Edited;
    var two := Resolve(w.db, second).value;
    var row := NewRow(w.db, two);
    ResolvedHasParent(w.db, second);
    RunInTwo(w, UpToSums(y, second), FromSums(y));
    UpToSumsMeans(w, y, second);
    var w1 := Run(w, UpToSums(y, second));
    SaveKeepsTables(w.db, row);
    FromSumsMeans(w1, y);
    TotalSaved(w1.db, TotalRow(w1.db, a, user).(finalScore := Rollup(w1.db, a, user)), a, user);
    CurrentHasSlot(w.db, two.slot);
    EditKeepsSlot(two.edit, Loaded(w.db, two.slot));
    assert SlotOf(row) == two.slot;
    SavedRollup(w.db, row, a, user);
  }

  /** A save moves the true total of its student by the change in points. */
  lemma SavedRollup(db: Db, row: Row, a: Id, user: Id)
    requires UniqueKeys(db) && Parent(db, SlotOf(row)) == Some(a) && SlotOf(row).user == user
    ensures Rollup(Save(db, row), a, user) == Rollup(db, a, user) + Points(row) - PointsAt(db, SlotOf(row))
  {
    hide UniqueKeys, SumOf, Parent, Save, Points, PointsAt, Rollup;
    RollupIsThreeSums(db, a, user);
    RollupIsThreeSums(Save(db, row), a, user);
    SaveMovesOneSum(db, row, Coding, a, user);
    SaveMovesOneSum(db, row, Mcq, a, user);
    SaveMovesOneSum(db, row, Quiz, a, user);
    assert KindOf(SlotOf(row)) == Coding || KindOf(SlotOf(row)) == Mcq || KindOf(SlotOf(row)) == Quiz;
  }

  // ---------------------------------------------------------------- overlapping calls: rows

  /** What a save of a loaded row leaves under its key. */
  lemma SavedRow(w: World, req: RequestId)
    requires UniqueKeys(w.db) && req in w.requests && w.requests[req].Holding? && SlotOf(w.requests[req].row) == w.requests[req].job.slot
    requires w.requests[req].stored && Parent(w.db, w.requests[req].job.slot).Some?
    ensures var p := w.requests[req]; Current(StepAdvance(w, req).db, p.job.slot) == Some(Edited(p.job.edit, p.row))
  {
    hide UniqueKeys, Parent, Edited, Save, Current, Points, PointsAt;
    var p := w.requests[req];
    EditKeepsSlot(p.job.edit, p.row);
    SaveIsRead(w.db, Edited(p.job.edit, p.row), p.job.slot);
  }

  /**
   A finalized submission that loaded its row earlier saves the whole of it: the score, the
   feedback and the grade that are stored survive exactly when the loaded row had them too.
   */
  lemma TrackingKeepsTheGradeExactlyWhen(w: World, req: RequestId, now: ProblemScore, was: ProblemScore)
    requires UniqueKeys(w.db) && req in w.requests && w.requests[req].Holding? && w.requests[req].stored
    requires w.requests[req].job.edit.Tracking? && w.requests[req].row == PsRow(was) && SlotOf(PsRow(was)) == w.requests[req].job.slot
    requires Parent(w.db, w.requests[req].job.slot).Some? && Current(w.db, w.requests[req].job.slot) == Some(PsRow(now))
    ensures var after := Current(StepAdvance(w, req).db, w.requests[req].job.slot);
            && after.Some? && after.value.PsRow?
            && (after.value.ps.score == now.score <==> was.score == now.score)
            && (after.value.ps.feedback == now.feedback <==> was.feedback == now.feedback)
            && ((now.gradingStatus == Graded ==> after.value.ps.gradingStatus == Graded)
                <==> (now.gradingStatus == Graded ==> was.gradingStatus == Graded))
  {
    hide UniqueKeys, Parent, Current;
    SavedRow(w, req);
  }

  /** The same for a student's quiz save and an award given meanwhile, and for a grade and an MCQ answer given meanwhile. */
  lemma AnswersAndAwardsKeptExactlyWhen(w: World, req: RequestId)
    requires UniqueKeys(w.db) && req in w.requests && w.requests[req].Holding? && w.requests[req].stored
    requires SlotOf(w.requests[req].row) == w.requests[req].job.slot && Parent(w.db, w.requests[req].job.slot).Some?
    ensures var p := w.requests[req]; var after := Current(StepAdvance(w, req).db, p.job.slot);
            && (forall was, now :: p.row == QuizRow(was) && p.job.edit.Writing? && Current(w.db, p.job.slot) == Some(QuizRow(now)) ==>
                  after.Some? && after.value.QuizRow? && (after.value.quiz.awarded == now.awarded <==> was.awarded == now.awarded))
            && (forall was, now :: p.row == McqRow(was) && p.job.edit.Marking? && Current(w.db, p.job.slot) == Some(McqRow(now)) ==>
                  after.Some? && after.value.McqRow? && (after.value.mcq.selected == now.selected <==> was.selected == now.selected))
  {
    hide UniqueKeys, Parent, Current;
    SavedRow(w, req);
  }

  /** The step writes the row under this key, or may delete it. */
  predicate Touches(w: World, step: Step, slot: Slot) {
    match step
    case Advance(req) => req in w.requests && (w.requests[req].Holding? || w.requests[req].Inserting?) && w.requests[req].job.slot == slot
    case DeleteItem(_) => true
    case DeleteProblem(_) => true
    case _ => false
  }

  ghost predicate Untouched(w: World, steps: seq<Step>, slot: Slot)
    decreases |steps|
  {
    steps == [] || (!Touches(w, steps[0], slot) && Untouched(Apply(w, steps[0]), steps[1..], slot))
  }

  /** A request that is neither inserting nor saving a row writes totals at most. */
  lemma OtherPhasesKeepRows(w: World, req: RequestId)
    requires req in w.requests && !w.requests[req].Holding? && !w.requests[req].Inserting?
    ensures StepAdvance(w, req).db == w.db.(totals := StepAdvance(w, req).db.totals)
  {
    hide Current, First, Put, Blank;
  }

  lemma SavingStepKeepsOtherRows(w: World, req: RequestId, slot: Slot)
    requires UniqueKeys(w.db) && req in w.requests && w.requests[req].Holding? && SlotOf(w.requests[req].row) == w.requests[req].job.slot
    requires w.requests[req].job.slot != slot
    ensures Current(StepAdvance(w, req).db, slot) == Current(w.db, slot) && Parent(StepAdvance(w, req).db, slot) == Parent(w.db, slot)
  {
    hide UniqueKeys, Current, Parent, Edited, Points, PointsAt, Save;
    var p := w.requests[req];
    EditKeepsSlot(p.job.edit, p.row);
    SaveIsRead(w.db, Edited(p.job.edit, p.row), slot);
    ParentStands(w.db, Edited(p.job.edit, p.row), slot);
  }

  lemma InsertingStepKeepsOtherRows(w: World, req: RequestId, slot: Slot)
    requires UniqueKeys(w.db) && req in w.requests && w.requests[req].Inserting? && w.requests[req].job.slot != slot
    ensures Current(StepAdvance(w, req).db, slot) == Current(w.db, slot) && Parent(StepAdvance(w, req).db, slot) == Parent(w.db, slot)
  {
    hide UniqueKeys, Current, Parent, Save;
    var job := w.requests[req].job;
    assert SlotOf(Blank(job.slot)) == job.slot;
    hide Blank;
    SaveIsRead(w.db, Blank(job.slot), slot);
    ParentStands(w.db, Blank(job.slot), slot);
  }

  lemma RowStandsStep(w: World, step: Step, slot: Slot)
    requires Settled(w) && !Touches(w, step, slot)
    ensures Current(Apply(w, step).db, slot) == Current(w.db, slot) && Parent(Apply(w, step).db, slot) == Parent(w.db, slot)
  {
    hide UniqueKeys, WellLinked, BasisSound, Resolve, SumOf, Current, Parent, StepAdvance;
    match step
    case Advance(req) =>
      if req !in w.requests {
        NothingToAdvance(w, req);
      } else if w.requests[req].Holding? {
        assert PhaseSound(w, w.requests[req]);
        SavingStepKeepsOtherRows(w, req, slot);
      } else if w.requests[req].Inserting? {
        InsertingStepKeepsOtherRows(w, req, slot);
      } else {
        OtherPhasesKeepRows(w, req);
        TotalsKeepParent(w.db, StepAdvance(w, req).db, slot);
      }
    case _ =>
  }

  /** A holding request waits for its own next statement. */
  lemma HolderWaits(w: World, step: Step, req: RequestId)
    requires Settled(w) && req in w.requests && w.requests[req].Holding? && !Touches(w, step, w.requests[req].job.slot)
    ensures req in Apply(w, step).requests && Apply(w, step).requests[req] == w.requests[req]
  {
    hide UniqueKeys, WellLinked, BasisSound, PhaseSound, Resolve, SumOf, StepAdvance;
    match step
    case Advance(other) =>
      if other in w.requests {
        AdvanceGood(w, other);
      } else {
        NothingToAdvance(w, other);
      }
    case _ =>
  }

  lemma {:induction false} RowStands(w: World, steps: seq<Step>, req: RequestId)
    requires Settled(w) && req in w.requests && w.requests[req].Holding? && Untouched(w, steps, w.requests[req].job.slot)
    ensures var slot := w.requests[req].job.slot; var after := Run(w, steps);
            && Current(after.db, slot) == Current(w.db, slot) && Parent(after.db, slot) == Parent(w.db, slot)
            && req in after.requests && after.requests[req] == w.requests[req] && Settled(after)
    decreases |steps|
  {
    hide Settled, Apply, Touches;
    if steps != [] {
      RowStandsStep(w, steps[0], w.requests[req].job.slot);
      HolderWaits(w, steps[0], req);
      StepSettles(w, steps[0]);
      RowStands(Apply(w, steps[0]), steps[1..], req);
    }
  }

  /**
   Over any run in which nobody else saves that row between its load and its save, a finalized
   submission awards nothing and takes no grade back, however the rest interleaves.
   */
  lemma SubmittingAwardsNothingUnlessOvertaken(w: World, steps: seq<Step>, req: RequestId, r: ProblemScore)
    requires Settled(w) && req in w.requests && w.requests[req].Holding? && w.requests[req].stored && w.requests[req].job.edit.Tracking?
    requires w.requests[req].row == PsRow(r) && Current(w.db, w.requests[req].job.slot) == Some(PsRow(r))
    requires Parent(w.db, w.requests[req].job.slot).Some? && Untouched(w, steps, w.requests[req].job.slot)
    ensures var after := Current(Apply(Run(w, steps), Advance(req)).db, w.requests[req].job.slot);
            && after.Some? && after.value.PsRow?
            && after.value.ps.score == r.score && after.value.ps.feedback == r.feedback
            && (r.gradingStatus == Graded ==> after.value.ps.gradingStatus == Graded)
            && after.value.ps.submissionCount == r.submissionCount + 1
  {
    hide Run, Current, Parent, Rollup, SumOf, Untouched;
    RowStands(w, steps, req);
    assert PhaseSound(w, w.requests[req]);
    SavedRow(Run(w, steps), req);
  }

  /**
   Reached: a submission loads its row, a grade of that row runs from start to end, and the
   submission's save puts the old score and status back.
   */
  lemma AGradeInBetweenIsTakenBack(w: World, x: RequestId, y: RequestId, e: Finalized, professorOf: map<Id, Id>, g: Grade, r: ProblemScore)
    requires UniqueKeys(w.db) && WellLinked(w.db) && x !in w.requests && y !in w.requests && x != y
    requires Tracked(w.db, e, professorOf).Some? && UpdateScore(w.db, e.apId, e.userId, g).Ok?
    requires Current(w.db, PsSlot(e.apId, e.userId)) == Some(PsRow(r)) && r.gradingStatus != Graded && r.score != g.score
    ensures var after := Run(w, [Begin(x, Finalizing(e, professorOf)), Advance(x)] + Uninterrupted(y, Updating(e.apId, e.userId, g)) + [Advance(x)]);
            && y in after.requests && after.requests[y] == Done
            && ScoreAt(after.db, e.apId, e.userId) == r.score
            && Current(after.db, PsSlot(e.apId, e.userId)).Some? && Current(after.db, PsSlot(e.apId, e.userId)).value.PsRow?
            && Current(after.db, PsSlot(e.apId, e.userId)).value.ps.gradingStatus == Submitted
  {
    hide Run, UniqueKeys, WellLinked, Resolve, Current, Uninterrupted, UpdateScore, Track;
    var finalize, update := Finalizing(e, professorOf), Updating(e.apId, e.userId, g);
    var load := [Begin(x, finalize), Advance(x)];
    RunInTwo(w, load + Uninterrupted(y, update), [Advance(x)]);
    RunInTwo(w, load, Uninterrupted(y, update));
    LoadsItsRow(w, x, e, professorOf, r);
    var w1 := Run(w, load);
    GradeLeavesHolders(w1, x, y, e.apId, e.userId, g);
    var w2 := Run(w1, Uninterrupted(y, update));
    RunOne(w2, Advance(x));
    RestoresItsRow(w2, x, e, r);
    AdvanceLeaves(w2, x, y);
  }

  /** A counted submission of a student who has a row loads that row. */
  lemma LoadsItsRow(w: World, x: RequestId, e: Finalized, professorOf: map<Id, Id>, r: ProblemScore)
    requires x !in w.requests && Tracked(w.db, e, professorOf).Some?
    requires Current(w.db, PsSlot(e.apId, e.userId)) == Some(PsRow(r))
    ensures var after := Run(w, [Begin(x, Finalizing(e, professorOf)), Advance(x)]);
            && after.db == w.db && PsKey(r) == (e.apId, e.userId)
            && after.requests == w.requests[x := Holding(Job(PsSlot(e.apId, e.userId), Tracking(e.submission), Some(Tracked(w.db, e, professorOf).value.0)), PsRow(r), true)]
  {
    hide Run, Current, First;
    var begin, find := Begin(x, Finalizing(e, professorOf)), Advance(x);
    assert [begin, find] == [begin] + [find];
    RunInTwo(w, [begin], [find]);
    RunOne(w, begin);
    RunOne(Apply(w, begin), find);
    CurrentHasSlot(w.db, PsSlot(e.apId, e.userId));
    assert Finalizing(e, professorOf).event == e;
    hide Tracked;
    assert Apply(w, begin).requests[x].Finding?;
  }

  /** A whole grading call leaves other requests waiting where they were, and the problem in place. */
  lemma GradeLeavesHolders(w: World, x: RequestId, y: RequestId, ap: Id, user: Id, g: Grade)
    requires UniqueKeys(w.db) && WellLinked(w.db) && x in w.requests && y !in w.requests
    requires UpdateScore(w.db, ap, user, g).Ok?
    ensures var after := Run(w, Uninterrupted(y, Updating(ap, user, g)));
            && UniqueKeys(after.db) && Parent(after.db, PsSlot(ap, user)).Some?
            && x in after.requests && after.requests[x] == w.requests[x] && y in after.requests && after.requests[y] == Done
  {
    hide Run, UniqueKeys, WellLinked, Parent, Save, Rollup, Put, UpToSums, FromSums, TotalRow, StoredTotal, Current, NewRow;
    var update := Updating(ap, user, g);
    var job := Resolve(w.db, update).value;
    ResolvedHasParent(w.db, update);
    RunInTwo(w, UpToSums(y, update), FromSums(y));
    UpToSumsMeans(w, y, update);
    var w1 := Run(w, UpToSums(y, update));
    SaveKeepsTables(w.db, NewRow(w.db, job));
    FromSumsMeans(w1, y);
    var a := job.recompute.value;
    TotalRowKey(w1.db, a, user);
    TotalSaved(w1.db, TotalRow(w1.db, a, user).(finalScore := Rollup(w1.db, a, user)), a, user);
    ParentStands(w.db, NewRow(w.db, job), PsSlot(ap, user));
    TotalsKeepParent(w1.db, Run(w1, FromSums(y)).db, PsSlot(ap, user));
  }

  lemma RestoresItsRow(w: World, x: RequestId, e: Finalized, r: ProblemScore)
    requires UniqueKeys(w.db) && x in w.requests && w.requests[x].Holding? && w.requests[x].stored && w.requests[x].row == PsRow(r)
    requires PsKey(r) == (e.apId, e.userId) && w.requests[x].job.slot == PsSlot(e.apId, e.userId) && w.requests[x].job.edit == Tracking(e.submission)
    requires Parent(w.db, PsSlot(e.apId, e.userId)).Some? && r.gradingStatus != Graded
    ensures var after := Apply(w, Advance(x)).db;
            && ScoreAt(after, e.apId, e.userId) == r.score
            && Current(after, PsSlot(e.apId, e.userId)).Some? && Current(after, PsSlot(e.apId, e.userId)).value.PsRow?
            && Current(after, PsSlot(e.apId, e.userId)).value.ps.gradingStatus == Submitted
  {
    hide UniqueKeys, Parent, Current, StepAdvance;
    SavedRow(w, x);
    ScoreIsCurrent(w, x, e.apId, e.userId);
    assert Current(StepAdvance(w, x).db, PsSlot(e.apId, e.userId)) == Some(PsRow(Track(e.submission)(r)));
  }

  lemma AdvanceLeaves(w: World, x: RequestId, y: RequestId)
    requires x in w.requests && y in w.requests && x != y && w.requests[x].Holding?
    ensures y in Apply(w, Advance(x)).requests && Apply(w, Advance(x)).requests[y] == w.requests[y]
  {
    hide Current, Parent, Edited, Points, PointsAt, Save;
  }

  lemma RunOne(w: World, step: Step)
    ensures Run(w, [step]) == Apply(w, step)
  {
    assert [step][1..] == [];
    assert Run(w, [step]) == Run(Apply(w, step), []);
  }

  lemma TotalsKeepParent(x: Db, y: Db, slot: Slot)
    requires y == x.(totals := y.totals)
    ensures Parent(y, slot) == Parent(x, slot) && Current(y, slot) == Current(x, slot)
  {
  }

  /** After its save, the score a gradebook looks up is the saved row's. */
  lemma ScoreIsCurrent(w: World, req: RequestId, ap: Id, user: Id)
    requires UniqueKeys(w.db) && req in w.requests && w.requests[req].Holding? && w.requests[req].stored
    requires SlotOf(w.requests[req].row) == w.requests[req].job.slot && Parent(w.db, w.requests[req].job.slot).Some?
    ensures var after := Apply(w, Advance(req)).db;
            ScoreAt(after, ap, user) == PointsAt(after, PsSlot(ap, user))
  {
    hide Parent, Current, Points, PointsAt, Edited;
    var p := w.requests[req];
    SaveKeepsKeys(w.db, Edited(p.job.edit, p.row));
    LookupIsCurrent(Apply(w, Advance(req)).db, ap, user);
  }

  lemma SaveKeepsKeys(db: Db, row: Row)
    requires UniqueKeys(db)
    ensures UniqueKeys(Save(db, row))
  {
    SaveMovesOneSum(db, row, Coding, "", "");
  }

  lemma LookupIsCurrent(db: Db, ap: Id, user: Id)
    requires UniqueKeys(db)
    ensures ScoreAt(db, ap, user) == PointsAt(db, PsSlot(ap, user))
  {
    OneRowPerKey(db.problemScores, PsKey, (ap, user));
    FirstIsLast(db.problemScores, HasKey(PsKey, (ap, user)));
  }
}
