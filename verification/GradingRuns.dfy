/**
 What holds of stored totals over every interleaving of grading calls, finalized submissions,
 saves and deletions: a total is the gradebook's sum unless that student's points changed
 after the sums behind it were read. Also what a save of a row loaded earlier does to a grade
 given in between.
 */
module GradingRuns {
  import opened Common
  import opened Tables
  import opened Grading
  import opened RevealGate
  import opened Rollups
  import opened Totals
  import opened GradingCalls

  lemma RollupIsThreeSums(db: Db, a: Id, user: Id)
    ensures Rollup(db, a, user) == SumOf(db, Coding, a, user) + SumOf(db, Mcq, a, user) + SumOf(db, Quiz, a, user)
  {
  }

  // ---------------------------------------------------------------- one save

  lemma ProblemParent(db: Db, ap: Id, user: Id, b: Id)
    requires UniqueKeys(db)
    ensures ProblemOf(db.problems, b, ap) <==> Parent(db, PsSlot(ap, user)) == Some(b)
  {
    if First(db.problems, HasKey(ProblemKey, ap)).Some? {
      ProblemFound(db, ap);
      var p := First(db.problems, HasKey(ProblemKey, ap)).value;
      if ProblemOf(db.problems, b, ap) {
        OneProblem(db, ap, p.assignmentId, b);
      }
    }
  }

  lemma ItemParent(db: Db, id: Id, kind: Grading.Kind, b: Id)
    requires UniqueKeys(db)
    ensures ItemOf(db.items, b, kind, id) <==> ItemAt(db, id, kind).Some? && ItemAt(db, id, kind).value.assignmentId == b
  {
    if First(db.items, HasKey(ItemKey, id)).Some? {
      ItemFound(db, id);
      var item := First(db.items, HasKey(ItemKey, id)).value;
      if ItemOf(db.items, b, kind, id) {
        OneItem(db, item, b, kind);
      }
    }
  }

  /** What saving a row adds to one of the sums. */
  function Delta(db: Db, row: Row, kind: Grading.Kind, b: Id, who: Id): real {
    if KindOf(SlotOf(row)) == kind && Parent(db, SlotOf(row)) == Some(b) && SlotOf(row).user == who
    then Points(row) - PointsAt(db, SlotOf(row)) else 0.0
  }

  lemma SavePs(db: Db, r: ProblemScore, b: Id, who: Id)
    requires UniqueKeys(db)
    ensures SumOf(Save(db, PsRow(r)), Coding, b, who) == SumOf(db, Coding, b, who) + Delta(db, PsRow(r), Coding, b, who)
    ensures UniqueKeys(Save(db, PsRow(r)))
  {
    PutLookup(db.problemScores, PsKey, r, PsKey(r));
    SumPut(db.problemScores, PsKey, r, CodingRows(db.problems, b, who), PsScore());
    FoundHasKey(db.problemScores, PsKey, PsKey(r));
    ProblemParent(db, r.apId, r.userId, b);
  }

  lemma SaveMcqRow(db: Db, r: McqResponse, b: Id, who: Id)
    requires UniqueKeys(db)
    ensures SumOf(Save(db, McqRow(r)), Mcq, b, who) == SumOf(db, Mcq, b, who) + Delta(db, McqRow(r), Mcq, b, who)
    ensures UniqueKeys(Save(db, McqRow(r)))
  {
    PutLookup(db.mcq, McqKey, r, McqKey(r));
    SumPut(db.mcq, McqKey, r, McqRows(db.items, b, who), McqScore());
    FoundHasKey(db.mcq, McqKey, McqKey(r));
    ItemParent(db, r.itemId, Mcq, b);
  }

  lemma SaveQuizRow(db: Db, r: QuizResponse, b: Id, who: Id)
    requires UniqueKeys(db)
    ensures SumOf(Save(db, QuizRow(r)), Quiz, b, who) == SumOf(db, Quiz, b, who) + Delta(db, QuizRow(r), Quiz, b, who)
    ensures UniqueKeys(Save(db, QuizRow(r)))
  {
    PutLookup(db.quiz, QuizKey, r, QuizKey(r));
    SumPut(db.quiz, QuizKey, r, QuizRows(db.items, b, who), QuizScore());
    FoundHasKey(db.quiz, QuizKey, QuizKey(r));
    ItemParent(db, r.itemId, Quiz, b);
  }

  /** A save moves one sum of one student by the change in points, and no other sum. */
  lemma SaveMovesOneSum(db: Db, row: Row, kind: Grading.Kind, b: Id, who: Id)
    requires UniqueKeys(db)
    ensures UniqueKeys(Save(db, row))
    ensures SumOf(Save(db, row), kind, b, who) == SumOf(db, kind, b, who) + Delta(db, row, kind, b, who)
  {
    hide UniqueKeys;
    match row
    case PsRow(r) => SavePs(db, r, b, who);
    case McqRow(r) => SaveMcqRow(db, r, b, who);
    case QuizRow(r) => SaveQuizRow(db, r, b, who);
  }

  /** A saved row is what its key reads afterwards. */
  lemma SaveIsRead(db: Db, row: Row, slot: Slot)
    requires UniqueKeys(db)
    ensures Current(Save(db, row), slot) == if slot == SlotOf(row) then Some(row) else Current(db, slot)
  {
    match row
    case PsRow(r) => if slot.PsSlot? { PutLookup(db.problemScores, PsKey, r, (slot.ap, slot.user)); }
    case McqRow(r) => if slot.McqSlot? { PutLookup(db.mcq, McqKey, r, (slot.item, slot.user)); }
    case QuizRow(r) => if slot.QuizSlot? { PutLookup(db.quiz, QuizKey, r, (slot.item, slot.user)); }
  }

  lemma EditKeepsSlot(edit: Edit, row: Row)
    ensures SlotOf(Edited(edit, row)) == SlotOf(row)
  {
  }

  lemma CurrentHasSlot(db: Db, slot: Slot)
    ensures Current(db, slot).Some? ==> SlotOf(Current(db, slot).value) == slot
  {
    match slot
    case PsSlot(ap, user) => FoundHasKey(db.problemScores, PsKey, (ap, user));
    case McqSlot(item, user) => FoundHasKey(db.mcq, McqKey, (item, user));
    case QuizSlot(item, user) => FoundHasKey(db.quiz, QuizKey, (item, user));
  }

  // ---------------------------------------------------------------- deletions

  lemma ProblemsAfterDrop(db: Db, ap: Id, b: Id, other: Id)
    ensures ProblemOf(DropProblem(db, ap).problems, b, other) <==> other != ap && ProblemOf(db.problems, b, other)
  {
    WhereMembers(db.problems, ProblemNot(ap));
  }

  lemma ItemsAfterDrop(db: Db, ap: Id, b: Id, kind: Grading.Kind, id: Id)
    requires kind != Coding
    ensures ItemOf(DropProblem(db, ap).items, b, kind, id) <==> ItemOf(db.items, b, kind, id)
  {
    WhereMembers(db.items, ItemNotWrapping(ap));
  }

  /** Deleting a problem touches the totals of its own assignment only. */
  lemma DropProblemElsewhere(db: Db, p: AssignmentProblem, kind: Grading.Kind, b: Id, who: Id)
    requires UniqueKeys(db) && p in db.problems && b != p.assignmentId
    ensures SumOf(DropProblem(db, p.id), kind, b, who) == SumOf(db, kind, b, who)
  {
    var d := DropProblem(db, p.id);
    match kind
    case Coding =>
      assert ProblemOf(db.problems, p.assignmentId, p.id);
      forall r: ProblemScore | r in db.problemScores
        ensures if ScoreNotOf(p.id)(r) then CodingRows(db.problems, b, who)(r) <==> CodingRows(d.problems, b, who)(r)
                else !CodingRows(db.problems, b, who)(r)
      {
        ProblemsAfterDrop(db, p.id, b, r.apId);
        if r.apId == p.id && ProblemOf(db.problems, b, p.id) {
          OneProblem(db, p.id, p.assignmentId, b);
        }
      }
      SumKept(db.problemScores, ScoreNotOf(p.id), CodingRows(db.problems, b, who), CodingRows(d.problems, b, who), PsScore());
    case Mcq =>
      forall r: McqResponse | r in db.mcq ensures McqRows(db.items, b, who)(r) <==> McqRows(d.items, b, who)(r) {
        ItemsAfterDrop(db, p.id, b, Mcq, r.itemId);
      }
      SumCongruent(db.mcq, McqRows(db.items, b, who), McqRows(d.items, b, who), McqScore());
    case Quiz =>
      forall r: QuizResponse | r in db.quiz ensures QuizRows(db.items, b, who)(r) <==> QuizRows(d.items, b, who)(r) {
        ItemsAfterDrop(db, p.id, b, Quiz, r.itemId);
      }
      SumCongruent(db.quiz, QuizRows(db.items, b, who), QuizRows(d.items, b, who), QuizScore());
  }

  lemma ItemsAfterPlainDrop(db: Db, id: Id, b: Id, kind: Grading.Kind, other: Id)
    ensures ItemOf(Where(db.items, ItemNot(id)), b, kind, other) <==> other != id && ItemOf(db.items, b, kind, other)
  {
    WhereMembers(db.items, ItemNot(id));
  }

  /** So does deleting an MCQ or quiz item. */
  lemma DropItemElsewhere(db: Db, item: Item, kind: Grading.Kind, b: Id, who: Id)
    requires UniqueKeys(db) && item in db.items && b != item.assignmentId
    ensures SumOf(DropPlainItem(db, item.id), kind, b, who) == SumOf(db, kind, b, who)
  {
    var d := DropPlainItem(db, item.id);
    match kind
    case Coding =>
    case Mcq =>
      forall r: McqResponse | r in db.mcq
        ensures if McqNotOf(item.id)(r) then McqRows(db.items, b, who)(r) <==> McqRows(d.items, b, who)(r) else !McqRows(db.items, b, who)(r)
      {
        ItemsAfterPlainDrop(db, item.id, b, Mcq, r.itemId);
        if r.itemId == item.id && ItemOf(db.items, b, Mcq, item.id) {
          OneItem(db, item, b, Mcq);
        }
      }
      SumKept(db.mcq, McqNotOf(item.id), McqRows(db.items, b, who), McqRows(d.items, b, who), McqScore());
    case Quiz =>
      forall r: QuizResponse | r in db.quiz
        ensures if QuizNotOf(item.id)(r) then QuizRows(db.items, b, who)(r) <==> QuizRows(d.items, b, who)(r) else !QuizRows(db.items, b, who)(r)
      {
        ItemsAfterPlainDrop(db, item.id, b, Quiz, r.itemId);
        if r.itemId == item.id && ItemOf(db.items, b, Quiz, item.id) {
          OneItem(db, item, b, Quiz);
        }
      }
      SumKept(db.quiz, QuizNotOf(item.id), QuizRows(db.items, b, who), QuizRows(d.items, b, who), QuizScore());
  }

  /** Deleting an unlinked coding item touches no sum. */
  lemma DropUnlinkedCoding(db: Db, item: Item, kind: Grading.Kind, b: Id, who: Id)
    requires UniqueKeys(db) && item in db.items && item.kind == Coding
    ensures SumOf(db.(items := Where(db.items, ItemNot(item.id))), kind, b, who) == SumOf(db, kind, b, who)
  {
    var d := db.(items := Where(db.items, ItemNot(item.id)));
    match kind
    case Coding =>
    case Mcq =>
      forall r: McqResponse | r in db.mcq ensures McqRows(db.items, b, who)(r) <==> McqRows(d.items, b, who)(r) {
        ItemsAfterPlainDrop(db, item.id, b, Mcq, r.itemId);
        if ItemOf(db.items, b, Mcq, item.id) { OneItem(db, item, b, Mcq); }
      }
      SumCongruent(db.mcq, McqRows(db.items, b, who), McqRows(d.items, b, who), McqScore());
    case Quiz =>
      forall r: QuizResponse | r in db.quiz ensures QuizRows(db.items, b, who)(r) <==> QuizRows(d.items, b, who)(r) {
        ItemsAfterPlainDrop(db, item.id, b, Quiz, r.itemId);
        if ItemOf(db.items, b, Quiz, item.id) { OneItem(db, item, b, Quiz); }
      }
      SumCongruent(db.quiz, QuizRows(db.items, b, who), QuizRows(d.items, b, who), QuizScore());
  }

  lemma DropKeepsKeys(db: Db, id: Id)
    requires UniqueKeys(db)
    ensures UniqueKeys(DropProblem(db, id)) && UniqueKeys(DropPlainItem(db, id)) && UniqueKeys(db.(items := Where(db.items, ItemNot(id))))
  {
    UniqueWhere(db.problems, ProblemKey, ProblemNot(id));
    UniqueWhere(db.items, ItemKey, ItemNotWrapping(id));
    UniqueWhere(db.items, ItemKey, ItemNot(id));
    UniqueWhere(db.problemScores, PsKey, ScoreNotOf(id));
    UniqueWhere(db.mcq, McqKey, McqNotOf(id));
    UniqueWhere(db.quiz, QuizKey, QuizNotOf(id));
  }

  lemma DropKeepsLinks(db: Db, id: Id)
    requires WellLinked(db)
    ensures WellLinked(DropProblem(db, id)) && WellLinked(DropPlainItem(db, id)) && WellLinked(db.(items := Where(db.items, ItemNot(id))))
  {
    WherePairwise(db.items, ItemNotWrapping(id), DifferentLinks());
    WherePairwise(db.items, ItemNot(id), DifferentLinks());
    WhereMembers(db.items, ItemNotWrapping(id));
    WhereMembers(db.items, ItemNot(id));
    WhereMembers(db.problems, ProblemNot(id));
  }

  // ---------------------------------------------------------------- the invariant

  predicate TotalRight(db: Db, a: Id, user: Id) {
    StoredTotal(db, a, user).0 == Rollup(db, a, user)
  }

  /** A sum read while the student's points were as they are now is the sum now. */
  predicate StillSum(w: World, a: Id, user: Id, kind: Grading.Kind, v: Option<real>) {
    v.Some? ==> v.value == SumOf(w.db, kind, a, user)
  }

  predicate PhaseSound(w: World, p: Phase) {
    match p
    case Holding(job, row, _) => SlotOf(row) == job.slot
    case Summing(a, user, Some(s)) =>
      s.since <= Version(w, a, user)
      && (s.since == Version(w, a, user) ==>
            StillSum(w, a, user, Coding, s.coding) && StillSum(w, a, user, Mcq, s.mcq) && StillSum(w, a, user, Quiz, s.quiz))
    case FindingTotal(a, user, since, total) => TotalSound(w, a, user, since, total)
    case InsertingTotal(a, user, since, total) => TotalSound(w, a, user, since, total)
    case HoldingTotal(a, user, since, total, held) => TotalSound(w, a, user, since, total) && TotalKey(held) == (a, user)
    case _ => true
  }

  predicate TotalSound(w: World, a: Id, user: Id, since: nat, total: real) {
    since <= Version(w, a, user) && (since == Version(w, a, user) ==> total == Rollup(w.db, a, user))
  }

  /** A stored total whose sums were read since the last change to the student's points is right. */
  ghost predicate BasisSound(w: World) {
    forall a, user :: (a, user) in w.basis ==>
      w.basis[(a, user)] <= Version(w, a, user) && (w.basis[(a, user)] == Version(w, a, user) ==> TotalRight(w.db, a, user))
  }

  ghost predicate Settled(w: World) {
    && UniqueKeys(w.db) && WellLinked(w.db) && BasisSound(w)
    && (forall req :: req in w.requests ==> PhaseSound(w, w.requests[req]))
  }

  /** Versions only grow, and where one stands still so do the student's sums. */
  ghost predicate Grows(w: World, after: World) {
    forall a, user :: Version(w, a, user) <= Version(after, a, user)
      && (Version(w, a, user) == Version(after, a, user) ==> SameSums(w.db, after.db, a, user))
  }

  predicate SameSums(x: Db, y: Db, a: Id, user: Id) {
    && SumOf(x, Coding, a, user) == SumOf(y, Coding, a, user)
    && SumOf(x, Mcq, a, user) == SumOf(y, Mcq, a, user)
    && SumOf(x, Quiz, a, user) == SumOf(y, Quiz, a, user)
  }

  lemma SameSumsSameRollup(x: Db, y: Db, a: Id, user: Id)
    requires SameSums(x, y, a, user)
    ensures Rollup(x, a, user) == Rollup(y, a, user)
  {
    RollupIsThreeSums(x, a, user);
    RollupIsThreeSums(y, a, user);
  }

  lemma PhaseCarries(w: World, after: World, p: Phase)
    requires Grows(w, after) && PhaseSound(w, p)
    ensures PhaseSound(after, p)
  {
    hide Rollup, SumOf, Version;
    if p.Summing? || p.FindingTotal? || p.InsertingTotal? || p.HoldingTotal? {
      assert Version(w, p.a, p.user) <= Version(after, p.a, p.user);
      if Version(w, p.a, p.user) == Version(after, p.a, p.user) {
        SameSumsSameRollup(w.db, after.db, p.a, p.user);
      }
    }
  }

  lemma BasisCarries(w: World, after: World)
    requires BasisSound(w) && Grows(w, after) && after.basis == w.basis && after.db.totals == w.db.totals
    ensures BasisSound(after)
  {
    hide Rollup, SumOf, Version;
    forall a, user | (a, user) in after.basis
      ensures after.basis[(a, user)] <= Version(after, a, user)
      ensures after.basis[(a, user)] == Version(after, a, user) ==> TotalRight(after.db, a, user)
    {
      if Version(w, a, user) == Version(after, a, user) {
        SameSumsSameRollup(w.db, after.db, a, user);
      }
    }
  }

  /** What a step of one request must establish. */
  ghost predicate GoodStep(w: World, after: World, req: RequestId) {
    && UniqueKeys(after.db) && WellLinked(after.db) && Grows(w, after) && BasisSound(after)
    && req in after.requests && PhaseSound(after, after.requests[req])
    && (forall other :: other != req ==> (other in after.requests <==> other in w.requests))
    && (forall other :: other != req && other in w.requests ==> after.requests[other] == w.requests[other])
  }

  lemma GoodStepSettles(w: World, after: World, req: RequestId)
    requires Settled(w) && GoodStep(w, after, req)
    ensures Settled(after)
  {
    hide PhaseSound, BasisSound, UniqueKeys, WellLinked, Grows;
    forall other | other in after.requests ensures PhaseSound(after, after.requests[other]) {
      if other != req {
        PhaseCarries(w, after, w.requests[other]);
      }
    }
  }

  /** A step that changes nothing but its request's phase. */
  lemma QuietStep(w: World, req: RequestId, p: Phase)
    requires Settled(w) && PhaseSound(w, p)
    ensures GoodStep(w, Goes(w, req, p), req)
  {
    hide Rollup, SumOf, UniqueKeys, WellLinked;
    var after := Goes(w, req, p);
    assert forall a, user :: Version(after, a, user) == Version(w, a, user);
    assert Grows(w, after);
    PhaseCarries(w, after, p);
    BasisCarries(w, after);
  }

  lemma StepFindGood(w: World, req: RequestId, job: Job)
    requires Settled(w)
    ensures GoodStep(w, StepFind(w, req, job), req)
  {
    hide Settled, GoodStep, Current;
    CurrentHasSlot(w.db, job.slot);
    QuietStep(w, req, StepFind(w, req, job).requests[req]);
  }

  /** Saving a row: the version moves exactly when the student's points do. */
  lemma SaveGrows(w: World, row: Row, a: Id)
    requires UniqueKeys(w.db) && Parent(w.db, SlotOf(row)) == Some(a)
    ensures var slot := SlotOf(row);
            Grows(w, Noted(w, a, slot.user, Points(row) != PointsAt(w.db, slot)).(db := Save(w.db, row)))
  {
    hide SumOf, Parent, UniqueKeys, Points, PointsAt, Save;
    var slot := SlotOf(row);
    var after := Noted(w, a, slot.user, Points(row) != PointsAt(w.db, slot)).(db := Save(w.db, row));
    forall b, who
      ensures Version(w, b, who) <= Version(after, b, who)
      ensures Version(w, b, who) == Version(after, b, who) ==> SameSums(w.db, after.db, b, who)
    {
      SaveMovesOneSum(w.db, row, Coding, b, who);
      SaveMovesOneSum(w.db, row, Mcq, b, who);
      SaveMovesOneSum(w.db, row, Quiz, b, who);
    }
  }

  lemma SaveKeepsTables(db: Db, row: Row)
    requires UniqueKeys(db) && WellLinked(db)
    ensures UniqueKeys(Save(db, row)) && WellLinked(Save(db, row)) && Save(db, row).totals == db.totals
  {
    SaveMovesOneSum(db, row, Coding, "", "");
  }

  lemma StepSaveGood(w: World, req: RequestId, p: Phase)
    requires Settled(w) && p.Holding? && PhaseSound(w, p)
    ensures GoodStep(w, StepSave(w, req, p), req)
  {
    hide UniqueKeys, WellLinked, Parent, Current, Points, PointsAt, Save, Edited, SumOf, Rollup, Version, Noted;
    var slot, row := p.job.slot, Edited(p.job.edit, p.row);
    EditKeepsSlot(p.job.edit, p.row);
    if Parent(w.db, slot).None? || (!p.stored && Current(w.db, slot).Some?) {
      QuietStep(w, req, Failed);
    } else {
      var a := Parent(w.db, slot).value;
      SaveGrows(w, row, a);
      SaveKeepsTables(w.db, row);
      var moved := Noted(w, a, slot.user, Points(row) != PointsAt(w.db, slot)).(db := Save(w.db, row));
      NotedKeeps(w, a, slot.user, Points(row) != PointsAt(w.db, slot));
      BasisCarries(w, moved);
      RequestOnly(w, moved, req, StepSave(w, req, p).requests[req]);
    }
  }

  lemma NotedKeeps(w: World, a: Id, user: Id, moved: bool)
    ensures Noted(w, a, user, moved).requests == w.requests && Noted(w, a, user, moved).basis == w.basis && Noted(w, a, user, moved).db == w.db
  {
  }

  /** After a change of tables the request moves on. */
  lemma RequestOnly(w: World, moved: World, req: RequestId, p: Phase)
    requires UniqueKeys(moved.db) && WellLinked(moved.db) && Grows(w, moved) && BasisSound(moved) && moved.requests == w.requests
    requires PhaseSound(moved, p)
    ensures GoodStep(w, Goes(moved, req, p), req)
  {
    hide UniqueKeys, WellLinked, SumOf, Rollup;
    var after := Goes(moved, req, p);
    assert forall a, user :: Version(after, a, user) == Version(moved, a, user);
    assert Grows(moved, after);
    assert Grows(w, after);
    PhaseCarries(moved, after, p);
    BasisCarries(moved, after);
  }

  lemma StepInsertGood(w: World, req: RequestId, job: Job)
    requires Settled(w)
    ensures GoodStep(w, StepInsert(w, req, job), req)
  {
    hide UniqueKeys, WellLinked, Parent, Save, SumOf, Rollup, Version, GoodStep, Settled;
    if Current(w.db, job.slot).Some? || Parent(w.db, job.slot).None? {
      QuietStep(w, req, Failed);
    } else {
      InsertGood(w, req, job);
    }
  }

  lemma InsertGood(w: World, req: RequestId, job: Job)
    requires Settled(w) && Current(w.db, job.slot).None? && Parent(w.db, job.slot).Some?
    ensures GoodStep(w, Goes(w.(db := Save(w.db, Blank(job.slot))), req, Holding(job, Blank(job.slot), true)), req)
  {
    hide UniqueKeys, WellLinked, Parent, Save, SumOf, Rollup, Current;
    var row := Blank(job.slot);
    assert SlotOf(row) == job.slot && Points(row) == 0.0 == PointsAt(w.db, job.slot);
    SaveGrows(w, row, Parent(w.db, job.slot).value);
    SaveKeepsTables(w.db, row);
    var moved := w.(db := Save(w.db, row));
    BasisCarries(w, moved);
    RequestOnly(w, moved, req, Holding(job, row, true));
  }

  lemma StepReadSumGood(w: World, req: RequestId, kind: Grading.Kind)
    requires Settled(w) && req in w.requests && w.requests[req].Summing?
    ensures GoodStep(w, StepReadSum(w, req, kind), req)
  {
    hide UniqueKeys, WellLinked, SumOf, Rollup, Version, BasisSound, GoodStep;
    assert PhaseSound(w, w.requests[req]);
    QuietStep(w, req, StepReadSum(w, req, kind).requests[req]);
  }

  lemma StepSummedGood(w: World, req: RequestId, p: Phase)
    requires Settled(w) && req in w.requests && w.requests[req] == p && p.Summing?
    ensures GoodStep(w, StepSummed(w, req, p), req)
  {
    hide UniqueKeys, WellLinked, SumOf, Rollup, Version, BasisSound, GoodStep;
    assert PhaseSound(w, p);
    QuietStep(w, req, p);
    RollupIsThreeSums(w.db, p.a, p.user);
    assert w.requests[req := p] == w.requests;
    if StepSummed(w, req, p) != w {
      QuietStep(w, req, StepSummed(w, req, p).requests[req]);
    }
  }

  lemma StepFindTotalGood(w: World, req: RequestId, p: Phase)
    requires Settled(w) && p.FindingTotal? && PhaseSound(w, p)
    ensures GoodStep(w, StepFindTotal(w, req, p), req)
  {
    hide UniqueKeys, WellLinked, SumOf, Rollup, Version, BasisSound, GoodStep, First;
    FoundHasKey(w.db.totals, TotalKey, (p.a, p.user));
    QuietStep(w, req, StepFindTotal(w, req, p).requests[req]);
  }

  // ---------------------------------------------------------------- saving a total

  lemma TotalSaved(db: Db, r: AssignmentScore, a: Id, user: Id)
    requires UniqueKeys(db)
    ensures var d := db.(totals := Put(db.totals, TotalKey, r));
            && UniqueKeys(d) && SameSums(db, d, a, user) && Rollup(d, a, user) == Rollup(db, a, user)
            && StoredTotal(d, a, user) == if TotalKey(r) == (a, user) then (r.finalScore, r.feedback) else StoredTotal(db, a, user)
  {
    PutLookup(db.totals, TotalKey, r, (a, user));
  }

  lemma TotalSavedWorld(w: World, r: AssignmentScore, basis: map<(Id, Id), nat>)
    requires Settled(w)
    requires forall k :: k in basis && k != TotalKey(r) ==> k in w.basis && basis[k] == w.basis[k]
    requires var (a, user) := TotalKey(r); (a, user) in basis ==> TotalSound(w, a, user, basis[(a, user)], r.finalScore)
    ensures var moved := w.(db := w.db.(totals := Put(w.db.totals, TotalKey, r)), basis := basis);
            UniqueKeys(moved.db) && WellLinked(moved.db) && Grows(w, moved) && BasisSound(moved)
  {
    hide UniqueKeys, SumOf, Rollup, StoredTotal, Put;
    var moved := w.(db := w.db.(totals := Put(w.db.totals, TotalKey, r)), basis := basis);
    forall a, user
      ensures Version(moved, a, user) == Version(w, a, user) && SameSums(w.db, moved.db, a, user) && UniqueKeys(moved.db)
      ensures (a, user) in basis ==> basis[(a, user)] <= Version(moved, a, user) && (basis[(a, user)] == Version(moved, a, user) ==> TotalRight(moved.db, a, user))
    {
      TotalSaved(w.db, r, a, user);
    }
    assert WellLinked(moved.db);
  }

  lemma StepInsertTotalGood(w: World, req: RequestId, p: Phase)
    requires Settled(w) && p.InsertingTotal? && PhaseSound(w, p)
    ensures GoodStep(w, StepInsertTotal(w, req, p), req)
  {
    hide UniqueKeys, WellLinked, SumOf, Rollup, Version, BasisSound, Put, First, GoodStep, Grows;
    var blank := AssignmentScore(p.a, p.user, 0.0, "");
    if First(w.db.totals, HasKey(TotalKey, (p.a, p.user))).Some? {
      QuietStep(w, req, Failed);
    } else {
      var basis := w.basis - {(p.a, p.user)};
      TotalSavedWorld(w, blank, basis);
      var moved := w.(db := w.db.(totals := Put(w.db.totals, TotalKey, blank)), basis := basis);
      PhaseCarries(w, moved, p);
      RequestOnly(w, moved, req, HoldingTotal(p.a, p.user, p.since, p.total, blank));
    }
  }

  lemma StepSaveTotalGood(w: World, req: RequestId, p: Phase)
    requires Settled(w) && p.HoldingTotal? && PhaseSound(w, p)
    ensures GoodStep(w, StepSaveTotal(w, req, p), req)
  {
    hide UniqueKeys, WellLinked, SumOf, Rollup, Version, BasisSound, Put, GoodStep, Grows;
    var r := p.held.(finalScore := p.total);
    var basis := w.basis[(p.a, p.user) := p.since];
    TotalSavedWorld(w, r, basis);
    RequestOnly(w, w.(db := w.db.(totals := Put(w.db.totals, TotalKey, r)), basis := basis), req, Done);
  }

  // ---------------------------------------------------------------- every step

  lemma AdvanceGood(w: World, req: RequestId)
    requires Settled(w) && req in w.requests
    ensures GoodStep(w, StepAdvance(w, req), req)
  {
    hide UniqueKeys, WellLinked, BasisSound, GoodStep, StepFind, StepInsert, StepSave, StepSummed, StepFindTotal, StepInsertTotal, StepSaveTotal;
    var p := w.requests[req];
    assert PhaseSound(w, p);
    hide PhaseSound;
    match p
    case Finding(job) => StepFindGood(w, req, job);
    case Inserting(job) => StepInsertGood(w, req, job);
    case Holding(_, _, _) => StepSaveGood(w, req, p);
    case Summing(_, _, _) => StepSummedGood(w, req, p);
    case FindingTotal(_, _, _, _) => StepFindTotalGood(w, req, p);
    case InsertingTotal(_, _, _, _) => StepInsertTotalGood(w, req, p);
    case HoldingTotal(_, _, _, _, _) => StepSaveTotalGood(w, req, p);
    case _ =>
      QuietStep(w, req, p);
      assert w.requests[req := p] == w.requests;
  }

  lemma DroppedSettles(w: World, a: Id, db: Db)
    requires Settled(w) && UniqueKeys(db) && WellLinked(db) && db.totals == w.db.totals
    requires forall b, who :: b != a ==> SameSums(w.db, db, b, who)
    ensures Settled(Dropped(w, a, db))
  {
    hide UniqueKeys, WellLinked, SumOf, Rollup;
    var after := Dropped(w, a, db);
    forall b, who
      ensures Version(w, b, who) <= Version(after, b, who)
      ensures Version(w, b, who) == Version(after, b, who) ==> SameSums(w.db, after.db, b, who)
    {
    }
    BasisCarries(w, after);
    forall req | req in after.requests ensures PhaseSound(after, after.requests[req]) {
      PhaseCarries(w, after, w.requests[req]);
    }
  }

  lemma DeleteProblemSettles(w: World, ap: Id)
    requires Settled(w)
    ensures Settled(StepDeleteProblem(w, ap))
  {
    hide UniqueKeys, WellLinked, SumOf, Rollup, BasisSound, Dropped;
    if First(w.db.problems, HasKey(ProblemKey, ap)).Some? {
      var p := First(w.db.problems, HasKey(ProblemKey, ap)).value;
      ProblemFoundIn(w.db, ap);
      DropKeepsKeys(w.db, ap);
      DropKeepsLinks(w.db, ap);
      forall b, who | b != p.assignmentId ensures SameSums(w.db, DropProblem(w.db, ap), b, who) {
        DropProblemElsewhere(w.db, p, Coding, b, who);
        DropProblemElsewhere(w.db, p, Mcq, b, who);
        DropProblemElsewhere(w.db, p, Quiz, b, who);
      }
      DroppedSettles(w, p.assignmentId, DropProblem(w.db, ap));
    }
  }

  lemma ProblemFoundIn(db: Db, ap: Id)
    requires First(db.problems, HasKey(ProblemKey, ap)).Some?
    ensures var p := First(db.problems, HasKey(ProblemKey, ap)).value; p in db.problems && p.id == ap
  {
    ProblemFound(db, ap);
    var i := IndexOf(db.problems, HasKey(ProblemKey, ap)).value;
    assert db.problems[i] in db.problems;
  }

  lemma DeleteItemSettles(w: World, id: Id)
    requires Settled(w)
    ensures Settled(StepDeleteItem(w, id))
  {
    hide UniqueKeys, WellLinked, SumOf, Rollup, BasisSound, Dropped;
    if First(w.db.items, HasKey(ItemKey, id)).Some? {
      var item := First(w.db.items, HasKey(ItemKey, id)).value;
      ItemFound(w.db, id);
      DropKeepsKeys(w.db, id);
      DropKeepsLinks(w.db, id);
      if Linked(item) {
        DeleteProblemSettles(w, item.apId.value);
      } else if item.kind == Coding {
        UnlinkedDropSettles(w, item);
      } else {
        forall b, who | b != item.assignmentId ensures SameSums(w.db, DropPlainItem(w.db, id), b, who) {
          DropItemElsewhere(w.db, item, Coding, b, who);
          DropItemElsewhere(w.db, item, Mcq, b, who);
          DropItemElsewhere(w.db, item, Quiz, b, who);
        }
        DroppedSettles(w, item.assignmentId, DropPlainItem(w.db, id));
      }
    }
  }

  lemma UnlinkedDropSettles(w: World, item: Item)
    requires Settled(w) && item in w.db.items && item.kind == Coding
    ensures Settled(w.(db := w.db.(items := Where(w.db.items, ItemNot(item.id)))))
  {
    hide UniqueKeys, WellLinked, SumOf, Rollup;
    var after := w.(db := w.db.(items := Where(w.db.items, ItemNot(item.id))));
    DropKeepsKeys(w.db, item.id);
    DropKeepsLinks(w.db, item.id);
    forall b, who
      ensures Version(w, b, who) == Version(after, b, who) && SameSums(w.db, after.db, b, who)
    {
      DropUnlinkedCoding(w.db, item, Coding, b, who);
      DropUnlinkedCoding(w.db, item, Mcq, b, who);
      DropUnlinkedCoding(w.db, item, Quiz, b, who);
    }
    BasisCarries(w, after);
    forall req | req in after.requests ensures PhaseSound(after, after.requests[req]) {
      PhaseCarries(w, after, w.requests[req]);
    }
  }

  lemma StepSettles(w: World, step: Step)
    requires Settled(w)
    ensures Settled(Apply(w, step))
  {
    hide Settled, StepAdvance, StepReadSum, StepDeleteItem, StepDeleteProblem, Resolve, GoodStep, PhaseSound;
    match step
    case Begin(req, call) =>
      if req !in w.requests {
        BeginSettles(w, req, call);
      }
    case Advance(req) =>
      if req in w.requests {
        AdvanceGood(w, req);
        GoodStepSettles(w, StepAdvance(w, req), req);
      } else {
        NothingToAdvance(w, req);
      }
    case ReadSum(req, kind) =>
      if req in w.requests && w.requests[req].Summing? {
        StepReadSumGood(w, req, kind);
        GoodStepSettles(w, StepReadSum(w, req, kind), req);
      } else {
        NothingToSum(w, req, kind);
      }
    case DeleteItem(id) => DeleteItemSettles(w, id);
    case DeleteProblem(ap) => DeleteProblemSettles(w, ap);
  }

  lemma BeginSettles(w: World, req: RequestId, call: Call)
    requires Settled(w) && req !in w.requests
    ensures Settled(Apply(w, Begin(req, call)))
  {
    hide Settled, Resolve, GoodStep;
    var p := match Resolve(w.db, call) case None => Failed case Some(job) => Finding(job);
    QuietStep(w, req, p);
    GoodStepSettles(w, Goes(w, req, p), req);
  }

  lemma NothingToAdvance(w: World, req: RequestId)
    requires req !in w.requests
    ensures StepAdvance(w, req) == w
  {
  }

  lemma NothingToSum(w: World, req: RequestId, kind: Grading.Kind)
    requires !(req in w.requests && w.requests[req].Summing?)
    ensures StepReadSum(w, req, kind) == w
  {
  }

  lemma {:induction false} SettledOverEveryRun(w: World, steps: seq<Step>)
    requires Settled(w)
    ensures Settled(Run(w, steps))
    decreases |steps|
  {
    hide Settled, Apply;
    if steps != [] {
      StepSettles(w, steps[0]);
      SettledOverEveryRun(Apply(w, steps[0]), steps[1..]);
    }
  }

  /**
   Over every interleaving of calls, saves and deletions: a stored total whose sums were read
   after the last change to that student's points is what the gradebook's lines add up to,
   plus the scores no item shows.
   */
  lemma TotalsOverEveryRun(w: World, steps: seq<Step>, a: Id, user: Id)
    requires Settled(w)
    requires var after := Run(w, steps); (a, user) in after.basis && after.basis[(a, user)] == Version(after, a, user)
    ensures var now := Run(w, steps).db;
            StoredTotal(now, a, user).0 == ShownSum(StudentScore(now, a, user, true).items) + Unwrapped(now, a, user)
  {
    SettledOverEveryRun(w, steps);
    hide Run, Rollup;
    var after := Run(w, steps);
    assert TotalRight(after.db, a, user);
    RollupIsTheGradebookSum(after.db, a, user);
  }
}
