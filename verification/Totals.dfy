/**
 Stored totals when a grading call, a finalized submission or a save runs alone: what it
 recomputes, what it leaves alone, and what a series of submissions leaves behind.
 */
module Totals {
  import opened Common
  import opened Tables
  import opened Grading
  import opened RevealGate
  import opened Rollups
  import opened GradingCalls

  /** From `db` to `d` only row values of one student in one assignment changed. */
  ghost predicate TouchesOnly(db: Db, d: Db, a: Id, user: Id) {
    && UniqueKeys(d) && d.items == db.items && d.problems == db.problems && d.totals == db.totals
    && (forall b, who :: b != a || who != user ==> Rollup(d, b, who) == Rollup(db, b, who))
  }

  lemma OneProblem(db: Db, ap: Id, a: Id, b: Id)
    requires UniqueKeys(db) && ProblemOf(db.problems, a, ap) && ProblemOf(db.problems, b, ap)
    ensures a == b
  {
    var p :| p in db.problems && p.id == ap && p.assignmentId == a;
    var q :| q in db.problems && q.id == ap && q.assignmentId == b;
    var i :| 0 <= i < |db.problems| && db.problems[i] == p;
    var j :| 0 <= j < |db.problems| && db.problems[j] == q;
    assert ProblemKey(db.problems[i]) == ProblemKey(db.problems[j]);
  }

  lemma OneItem(db: Db, item: Item, b: Id, kind: Kind)
    requires UniqueKeys(db) && item in db.items && ItemOf(db.items, b, kind, item.id)
    ensures b == item.assignmentId && kind == item.kind
  {
    var i :| 0 <= i < |db.items| && db.items[i] == item;
    var o :| o in db.items && o.id == item.id && o.assignmentId == b && o.kind == kind;
    var j :| 0 <= j < |db.items| && db.items[j] == o;
    assert ItemKey(db.items[i]) == ItemKey(db.items[j]);
  }

  /** A row found by its key has that key. */
  lemma FoundHasKey<R(!new), K(!new)>(rows: seq<R>, key: R -> K, k: K)
    ensures First(rows, HasKey(key, k)).Some? ==> key(First(rows, HasKey(key, k)).value) == k
  {
  }

  lemma PsTouches(db: Db, ap: Id, a: Id, user: Id, write: ProblemScore -> ProblemScore)
    requires UniqueKeys(db) && ProblemOf(db.problems, a, ap)
    requires forall r :: PsKey(write(r)) == PsKey(r)
    ensures TouchesOnly(db, db.(problemScores := Upsert(db.problemScores, HasKey(PsKey, (ap, user)), NewProblemScore(ap, user), write)), a, user)
  {
    var d := db.(problemScores := Upsert(db.problemScores, HasKey(PsKey, (ap, user)), NewProblemScore(ap, user), write));
    PsWrite(db, ap, user, write, (ap, user));
    forall b, who | b != a || who != user ensures Rollup(d, b, who) == Rollup(db, b, who) {
      var p := CodingRows(db.problems, b, who);
      SumUpsert(db.problemScores, PsKey, (ap, user), NewProblemScore(ap, user), write, p, PsScore());
      FoundHasKey(db.problemScores, PsKey, (ap, user));
      if ProblemOf(db.problems, b, ap) {
        OneProblem(db, ap, a, b);
      }
      forall r: ProblemScore | PsKey(r) == (ap, user) ensures !p(r) {
      }
    }
  }

  lemma McqTouches(db: Db, item: Item, user: Id, write: McqResponse -> McqResponse)
    requires UniqueKeys(db) && item in db.items
    requires forall r :: McqKey(write(r)) == McqKey(r)
    ensures TouchesOnly(db, db.(mcq := Upsert(db.mcq, HasKey(McqKey, (item.id, user)), McqResponse(item.id, user, [], 0.0), write)), item.assignmentId, user)
  {
    var created := McqResponse(item.id, user, [], 0.0);
    var d := db.(mcq := Upsert(db.mcq, HasKey(McqKey, (item.id, user)), created, write));
    McqWrite(db, item.id, user, created, write, (item.id, user));
    forall b, who | b != item.assignmentId || who != user ensures Rollup(d, b, who) == Rollup(db, b, who) {
      var p := McqRows(db.items, b, who);
      SumUpsert(db.mcq, McqKey, (item.id, user), created, write, p, McqScore());
      FoundHasKey(db.mcq, McqKey, (item.id, user));
      if ItemOf(db.items, b, Mcq, item.id) {
        OneItem(db, item, b, Mcq);
      }
      forall r: McqResponse | McqKey(r) == (item.id, user) ensures !p(r) {
      }
    }
  }

  lemma QuizTouches(db: Db, item: Item, user: Id, write: QuizResponse -> QuizResponse)
    requires UniqueKeys(db) && item in db.items
    requires forall r :: QuizKey(write(r)) == QuizKey(r)
    ensures TouchesOnly(db, db.(quiz := Upsert(db.quiz, HasKey(QuizKey, (item.id, user)), QuizResponse(item.id, user, "", None, ""), write)), item.assignmentId, user)
  {
    var created := QuizResponse(item.id, user, "", None, "");
    var d := db.(quiz := Upsert(db.quiz, HasKey(QuizKey, (item.id, user)), created, write));
    QuizWrite(db, item.id, user, created, write, (item.id, user));
    forall b, who | b != item.assignmentId || who != user ensures Rollup(d, b, who) == Rollup(db, b, who) {
      var p := QuizRows(db.items, b, who);
      SumUpsert(db.quiz, QuizKey, (item.id, user), created, write, p, QuizScore());
      FoundHasKey(db.quiz, QuizKey, (item.id, user));
      if ItemOf(db.items, b, Quiz, item.id) {
        OneItem(db, item, b, Quiz);
      }
      forall r: QuizResponse | QuizKey(r) == (item.id, user) ensures !p(r) {
      }
    }
  }

  // ---------------------------------------------------------------- one call, alone

  /** The total this call recomputes. */
  function Recomputes(db: Db, call: Call): Option<(Id, Id)> {
    match call
    case Grading(itemId, user, g) =>
      if GradeItem(db, itemId, user, g).Ok? then Some((First(db.items, HasKey(ItemKey, itemId)).value.assignmentId, user)) else None
    case Updating(apId, user, g) =>
      if UpdateScore(db, apId, user, g).Ok? then Some((First(db.problems, HasKey(ProblemKey, apId)).value.assignmentId, user)) else None
    case Finalizing(e, professorOf) => Tracked(db, e, professorOf)
    case SavingMcq(_, _, _, _) => None
    case SavingQuiz(_, _, _) => None
  }

  lemma RollupIgnoresTotals(db: Db, a: Id, user: Id, b: Id, who: Id)
    ensures Rollup(Recomputed(db, a, user), b, who) == Rollup(db, b, who)
  {
  }

  /** A recompute leaves its total equal to the sum of the rows it was taken from. */
  lemma RecomputeStores(d: Db, a: Id, user: Id)
    requires UniqueKeys(d)
    ensures StoredTotal(Recomputed(d, a, user), a, user).0 == Rollup(Recomputed(d, a, user), a, user)
  {
    hide Rollup;
    TotalWrite(d, a, user, (a, user));
    StoredIsLookup(Recomputed(d, a, user), a, user);
    RollupIgnoresTotals(d, a, user, a, user);
  }

  lemma GradeTouches(db: Db, item: Item, user: Id, g: Grade)
    requires UniqueKeys(db) && WellLinked(db) && item in db.items && GradeWrites(db, item, user, g).Ok?
    ensures TouchesOnly(db, GradeWrites(db, item, user, g).value, item.assignmentId, user)
  {
    hide Rollup, UniqueKeys;
    match item.kind
    case Coding => PsTouches(db, item.apId.value, item.assignmentId, user, GradePs(g));
    case Mcq => McqTouches(db, item, user, GradeMcq(g));
    case Quiz => QuizTouches(db, item, user, GradeQuiz(g));
  }

  lemma ProblemFound(db: Db, apId: Id)
    requires First(db.problems, HasKey(ProblemKey, apId)).Some?
    ensures var ap := First(db.problems, HasKey(ProblemKey, apId)).value; ap.id == apId && ProblemOf(db.problems, ap.assignmentId, apId)
  {
    var i := IndexOf(db.problems, HasKey(ProblemKey, apId)).value;
    assert db.problems[i] in db.problems && ProblemKey(db.problems[i]) == apId;
  }

  lemma ItemFound(db: Db, itemId: Id)
    requires First(db.items, HasKey(ItemKey, itemId)).Some?
    ensures var item := First(db.items, HasKey(ItemKey, itemId)).value; item.id == itemId && item in db.items
  {
    var i := IndexOf(db.items, HasKey(ItemKey, itemId)).value;
    assert ItemKey(db.items[i]) == itemId;
  }

  lemma RecomputingKeepsKeys(db: Db, call: Call)
    requires UniqueKeys(db) && WellLinked(db) && Recomputes(db, call).Some?
    ensures UniqueKeys(Atomic(db, call)) && Atomic(db, call).items == db.items && Atomic(db, call).problems == db.problems
    ensures var (a, user) := Recomputes(db, call).value; StoredTotal(Atomic(db, call), a, user).0 == Rollup(Atomic(db, call), a, user)
  {
    hide Rollup, UniqueKeys;
    match call
    case Grading(itemId, user, g) =>
      ItemFound(db, itemId);
      var item := First(db.items, HasKey(ItemKey, itemId)).value;
      GradeTouches(db, item, user, g);
      TotalWrite(GradeWrites(db, item, user, g).value, item.assignmentId, user, (item.assignmentId, user));
      RecomputeStores(GradeWrites(db, item, user, g).value, item.assignmentId, user);
    case Updating(apId, user, g) =>
      ProblemFound(db, apId);
      var ap := First(db.problems, HasKey(ProblemKey, apId)).value;
      PsTouches(db, apId, ap.assignmentId, user, GradePs(g));
      var d := db.(problemScores := Upsert(db.problemScores, HasKey(PsKey, (apId, user)), NewProblemScore(apId, user), GradePs(g)));
      TotalWrite(d, ap.assignmentId, user, (ap.assignmentId, user));
      RecomputeStores(d, ap.assignmentId, user);
    case Finalizing(e, professorOf) =>
      ProblemFound(db, e.apId);
      var ap := First(db.problems, HasKey(ProblemKey, e.apId)).value;
      PsTouches(db, ap.id, ap.assignmentId, e.userId, Track(e.submission));
      var d := db.(problemScores := Upsert(db.problemScores, HasKey(PsKey, (ap.id, e.userId)), NewProblemScore(ap.id, e.userId), Track(e.submission)));
      TotalWrite(d, ap.assignmentId, e.userId, (ap.assignmentId, e.userId));
      RecomputeStores(d, ap.assignmentId, e.userId);
  }

  /** A grade or a counted submission run alone: the stored total is the gradebook's sum, and no other stored total moved. */
  lemma RecomputedTotalIsTheGradebookSum(db: Db, call: Call)
    requires UniqueKeys(db) && WellLinked(db) && Recomputes(db, call).Some?
    ensures var (a, user) := Recomputes(db, call).value; var after := Atomic(db, call);
            && StoredTotal(after, a, user).0 == ShownSum(StudentScore(after, a, user, true).items) + Unwrapped(after, a, user)
            && forall b, who :: (b, who) != (a, user) ==> StoredTotal(after, b, who) == StoredTotal(db, b, who)
  {
    hide Rollup;
    var (a, user) := Recomputes(db, call).value;
    RecomputingKeepsKeys(db, call);
    RollupIsTheGradebookSum(Atomic(db, call), a, user);
    forall b, who | (b, who) != (a, user) ensures StoredTotal(Atomic(db, call), b, who) == StoredTotal(db, b, who) {
      OtherTotalsKept(db, call, b, who);
    }
  }

  lemma OtherTotalsKept(db: Db, call: Call, b: Id, who: Id)
    requires UniqueKeys(db) && WellLinked(db) && Recomputes(db, call).Some? && Recomputes(db, call).value != (b, who)
    ensures StoredTotal(Atomic(db, call), b, who) == StoredTotal(db, b, who)
  {
    hide Rollup, UniqueKeys;
    match call
    case Grading(itemId, user, g) =>
      ItemFound(db, itemId);
      var item := First(db.items, HasKey(ItemKey, itemId)).value;
      GradeTouches(db, item, user, g);
      TotalElsewhere(db, GradeWrites(db, item, user, g).value, item.assignmentId, user, b, who);
    case Updating(apId, user, g) =>
      ProblemFound(db, apId);
      var ap := First(db.problems, HasKey(ProblemKey, apId)).value;
      PsTouches(db, apId, ap.assignmentId, user, GradePs(g));
      TotalElsewhere(db, db.(problemScores := Upsert(db.problemScores, HasKey(PsKey, (apId, user)), NewProblemScore(apId, user), GradePs(g))), ap.assignmentId, user, b, who);
    case Finalizing(e, professorOf) =>
      ProblemFound(db, e.apId);
      var ap := First(db.problems, HasKey(ProblemKey, e.apId)).value;
      PsTouches(db, ap.id, ap.assignmentId, e.userId, Track(e.submission));
      TotalElsewhere(db, db.(problemScores := Upsert(db.problemScores, HasKey(PsKey, (ap.id, e.userId)), NewProblemScore(ap.id, e.userId), Track(e.submission))), ap.assignmentId, e.userId, b, who);
  }

  lemma TotalElsewhere(db: Db, d: Db, a: Id, user: Id, b: Id, who: Id)
    requires UniqueKeys(db) && UniqueKeys(d) && d.totals == db.totals && (a, user) != (b, who)
    ensures StoredTotal(Recomputed(d, a, user), b, who) == StoredTotal(db, b, who)
  {
    hide Rollup;
    TotalWrite(d, a, user, (b, who));
    StoredIsLookup(Recomputed(d, a, user), b, who);
    StoredIsLookup(db, b, who);
  }

  /** An MCQ save leaves its student's true total alone exactly when the award stays the same; the stored total is not rewritten. */
  lemma McqSaveMovesTheTotalExactlyWhenTheAwardMoves(db: Db, item: Item, user: Id, selected: seq<Id>, awarded: real)
    requires UniqueKeys(db) && item in db.items && item.kind == Mcq
    ensures SaveMcq(db, item, user, selected, awarded).totals == db.totals
    ensures Rollup(SaveMcq(db, item, user, selected, awarded), item.assignmentId, user) == Rollup(db, item.assignmentId, user)
       <==> awarded == ValueOf(First(db.mcq, HasKey(McqKey, (item.id, user))), McqScore())
  {
    var p := McqRows(db.items, item.assignmentId, user);
    SumUpsert(db.mcq, McqKey, (item.id, user), McqResponse(item.id, user, [], 0.0), Answer(selected, awarded), p, McqScore());
    FoundHasKey(db.mcq, McqKey, (item.id, user));
    assert ItemOf(db.items, item.assignmentId, Mcq, item.id);
    forall r: McqResponse | McqKey(r) == (item.id, user) ensures p(r) {
    }
  }

  // ---------------------------------------------------------------- finalized submissions

  function ScoreAt(db: Db, ap: Id, user: Id): real {
    ValueOf(Last(db.problemScores, HasKey(PsKey, (ap, user))), PsScore())
  }

  ghost predicate NeverWorse(before: Option<ProblemScore>, after: Option<ProblemScore>) {
    before.Some? ==>
      after.Some? && before.value.submissionCount <= after.value.submissionCount
      && before.value.feedback == after.value.feedback
      && (before.value.gradingStatus == Graded ==> after.value.gradingStatus == Graded)
      && (before.value.submission.Some? && before.value.submission.value.accepted
          ==> after.value.submission.Some? && after.value.submission.value.accepted)
  }

  /** A finalized submission run alone awards nothing, takes no grade back, and never unpins an accepted submission. */
  lemma SubmittingAwardsNothing(db: Db, e: Finalized, professorOf: map<Id, Id>, ap: Id, who: Id)
    requires UniqueKeys(db)
    ensures var after := SubmissionFinalized(db, e, professorOf);
            && ScoreAt(after, ap, who) == ScoreAt(db, ap, who)
            && NeverWorse(Last(db.problemScores, HasKey(PsKey, (ap, who))), Last(after.problemScores, HasKey(PsKey, (ap, who))))
  {
    hide Rollup;
    if Tracked(db, e, professorOf).Some? {
      ProblemFound(db, e.apId);
      PsWrite(db, e.apId, e.userId, Track(e.submission), (ap, who));
      OneRowPerKey(db.problemScores, PsKey, (ap, who));
      FirstIsLast(db.problemScores, HasKey(PsKey, (ap, who)));
    }
  }

  /** A row after a series of finalized submissions. */
  function AfterAll(r: ProblemScore, subs: seq<Submission>): ProblemScore {
    if subs == [] then r else Track(subs[|subs| - 1])(AfterAll(r, subs[..|subs| - 1]))
  }

  /** The submission at `k` is the last accepted one of the series. */
  predicate LastAccepted(subs: seq<Submission>, k: nat) {
    k < |subs| && subs[k].accepted && forall j :: k < j < |subs| ==> !subs[j].accepted
  }

  predicate NoneAccepted(subs: seq<Submission>) {
    forall j :: 0 <= j < |subs| ==> !subs[j].accepted
  }

  predicate IsAccepted(s: Option<Submission>) {
    s.Some? && s.value.accepted
  }

  /** The pin a series should leave: its last accepted submission; failing any, an accepted pin from before; failing that, its last. */
  ghost predicate RightPin(before: Option<Submission>, subs: seq<Submission>, pin: Option<Submission>) {
    && (forall k: nat :: LastAccepted(subs, k) ==> pin == Some(subs[k]))
    && (NoneAccepted(subs) ==> pin == if IsAccepted(before) || subs == [] then before else Some(subs[|subs| - 1]))
  }

  lemma PinStep(before: Option<Submission>, init: seq<Submission>, last: Submission, pin: Option<Submission>)
    requires RightPin(before, init, pin)
    ensures RightPin(before, init + [last], if last.accepted || !IsAccepted(pin) then Some(last) else pin)
  {
    var subs := init + [last];
    if !last.accepted {
      forall k: nat ensures LastAccepted(subs, k) <==> LastAccepted(init, k) {
        assert subs[|init|] == last && forall j :: 0 <= j < |init| ==> subs[j] == init[j];
        if LastAccepted(subs, k) {
          assert forall j :: k < j < |init| ==> !subs[j].accepted;
        }
      }
      if NoneAccepted(init) {
        assert forall j :: 0 <= j < |subs| ==> !subs[j].accepted;
      } else {
        SomeLastAccepted(init);
        var k: nat :| LastAccepted(init, k);
        assert pin == Some(init[k]) && subs[k].accepted;
      }
    } else {
      assert subs[|init|].accepted;
    }
  }

  /**
   Whatever comes in, and in whatever order: every submission is counted, the right one is
   pinned, a grade already given stands and nothing is awarded.
   */
  lemma {:induction false} SeriesOfSubmissions(r: ProblemScore, subs: seq<Submission>)
    ensures var after := AfterAll(r, subs);
            && after.submissionCount == r.submissionCount + |subs|
            && RightPin(r.submission, subs, after.submission)
            && (subs != [] ==> after.gradingStatus == if r.gradingStatus == Graded then Graded else Submitted)
            && after.score == r.score && after.feedback == r.feedback && PsKey(after) == PsKey(r)
  {
    if subs != [] {
      hide RightPin;
      var init, last := subs[..|subs| - 1], subs[|subs| - 1];
      SeriesOfSubmissions(r, init);
      PinStep(r.submission, init, last, AfterAll(r, init).submission);
      assert subs == init + [last];
    }
  }

  lemma {:induction false} SomeLastAccepted(subs: seq<Submission>)
    requires !NoneAccepted(subs)
    ensures exists k: nat :: LastAccepted(subs, k)
  {
    var init, last := subs[..|subs| - 1], subs[|subs| - 1];
    if last.accepted {
      assert LastAccepted(subs, |subs| - 1);
    } else {
      SomeLastAccepted(init);
      var k: nat :| LastAccepted(init, k);
      assert LastAccepted(subs, k);
    }
  }
}
