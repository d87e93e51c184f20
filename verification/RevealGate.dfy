/**
 Before grades are published a student's own score view depends on nothing a grader decides:
 two databases that differ only in scores, feedback, pins and graded-versus-submitted give
 the same view. Also what one grading call changes, and for whom.
 */
module RevealGate {
  import opened Common
  import opened Tables
  import opened Grading

  /** The same rows, up to everything the gate withholds. */
  ghost predicate SameExceptGrades(x: Db, y: Db) {
    && x.items == y.items
    && |x.problemScores| == |y.problemScores| && |x.mcq| == |y.mcq| && |x.quiz| == |y.quiz|
    && (forall i :: 0 <= i < |x.problemScores| ==> SameAttempt(x.problemScores[i], y.problemScores[i]))
    && (forall i :: 0 <= i < |x.mcq| ==> McqKey(x.mcq[i]) == McqKey(y.mcq[i]))
    && (forall i :: 0 <= i < |x.quiz| ==> QuizKey(x.quiz[i]) == QuizKey(y.quiz[i]))
  }

  predicate SameAttempt(r: ProblemScore, s: ProblemScore) {
    PsKey(r) == PsKey(s) && (r.gradingStatus == NotStarted <==> s.gradingStatus == NotStarted)
  }

  /** Equal lines make equal views, apart from the published total. */
  lemma SameLinesSameView(x: Db, y: Db, a: Id, user: Id, published: bool)
    requires x.items == y.items
    requires forall item :: item in LoadItems(x, a) ==> PlainLine(x, item, user, published) == PlainLine(y, item, user, published)
    requires published ==> StoredTotal(x, a, user) == StoredTotal(y, a, user)
    ensures StudentScore(x, a, user, published) == StudentScore(y, a, user, published)
  {
    var items := LoadItems(x, a);
    forall i | 0 <= i < |items|
      ensures StudentLine(x, items, items[i], user, published) == StudentLine(y, items, items[i], user, published)
    {
      LineIsPlain(x, items, items[i], user, published);
      LineIsPlain(y, items, items[i], user, published);
    }
    assert StudentLines(x, items, items, user, published) == StudentLines(y, items, items, user, published);
  }

  lemma HiddenLine(x: Db, y: Db, item: Item, user: Id)
    requires SameExceptGrades(x, y)
    ensures PlainLine(x, item, user, false) == PlainLine(y, item, user, false)
  {
    match item.kind
    case Coding =>
      if Linked(item) {
        LastAligned(x.problemScores, y.problemScores, HasKey(PsKey, (item.apId.value, user)));
      }
    case Mcq => LastAligned(x.mcq, y.mcq, HasKey(McqKey, (item.id, user)));
    case Quiz => LastAligned(x.quiz, y.quiz, HasKey(QuizKey, (item.id, user)));
  }

  /** The gate: nothing graders decide reaches an unpublished view. */
  lemma UnpublishedViewIgnoresGrades(x: Db, y: Db, a: Id, user: Id)
    requires SameExceptGrades(x, y)
    ensures StudentScore(x, a, user, false) == StudentScore(y, a, user, false)
  {
    forall item ensures PlainLine(x, item, user, false) == PlainLine(y, item, user, false) {
      HiddenLine(x, y, item, user);
    }
    SameLinesSameView(x, y, a, user, false);
  }

  /** The student has a row for the item, and for a coding item one past NOT_STARTED. */
  predicate Started(db: Db, item: Item, user: Id) {
    match item.kind
    case Coding =>
      Linked(item)
      && var row := Last(db.problemScores, HasKey(PsKey, (item.apId.value, user)));
      row.Some? && row.value.gradingStatus != NotStarted
    case Mcq => Last(db.mcq, HasKey(McqKey, (item.id, user))).Some?
    case Quiz => Last(db.quiz, HasKey(QuizKey, (item.id, user))).Some?
  }

  /** The gate is tight: which items were started is exactly what an unpublished view tells. */
  lemma UnpublishedViewIsWhatWasStarted(x: Db, y: Db, a: Id, user: Id)
    requires x.items == y.items
    ensures StudentScore(x, a, user, false) == StudentScore(y, a, user, false)
       <==> forall item :: item in LoadItems(x, a) ==> (Started(x, item, user) <==> Started(y, item, user))
  {
    var items := LoadItems(x, a);
    if forall item :: item in items ==> (Started(x, item, user) <==> Started(y, item, user)) {
      SameLinesSameView(x, y, a, user, false);
    } else {
      var item :| item in items && !(Started(x, item, user) <==> Started(y, item, user));
      var i :| 0 <= i < |items| && items[i] == item;
      LineIsPlain(x, items, item, user, false);
      LineIsPlain(y, items, item, user, false);
      assert StudentScore(x, a, user, false).items[i].gradingStatus != StudentScore(y, a, user, false).items[i].gradingStatus;
    }
  }

  // ---------------------------------------------------------------- what one write changes

  lemma PsWrite(db: Db, ap: Id, user: Id, write: ProblemScore -> ProblemScore, other: (Id, Id))
    requires UniqueKeys(db) && forall r :: PsKey(write(r)) == PsKey(r)
    ensures var rows := Upsert(db.problemScores, HasKey(PsKey, (ap, user)), NewProblemScore(ap, user), write);
            UniqueKey(rows, PsKey)
            && Last(rows, HasKey(PsKey, other))
            == if other == (ap, user) then Some(Written(db.problemScores, PsKey, other, NewProblemScore(ap, user), write))
               else Last(db.problemScores, HasKey(PsKey, other))
  {
    UpsertLookup(db.problemScores, PsKey, (ap, user), NewProblemScore(ap, user), write, other);
  }

  lemma McqWrite(db: Db, id: Id, user: Id, created: McqResponse, write: McqResponse -> McqResponse, other: (Id, Id))
    requires UniqueKeys(db) && McqKey(created) == (id, user) && forall r :: McqKey(write(r)) == McqKey(r)
    ensures var rows := Upsert(db.mcq, HasKey(McqKey, (id, user)), created, write);
            UniqueKey(rows, McqKey)
            && Last(rows, HasKey(McqKey, other))
            == if other == (id, user) then Some(Written(db.mcq, McqKey, other, created, write)) else Last(db.mcq, HasKey(McqKey, other))
  {
    UpsertLookup(db.mcq, McqKey, (id, user), created, write, other);
  }

  lemma QuizWrite(db: Db, id: Id, user: Id, created: QuizResponse, write: QuizResponse -> QuizResponse, other: (Id, Id))
    requires UniqueKeys(db) && QuizKey(created) == (id, user) && forall r :: QuizKey(write(r)) == QuizKey(r)
    ensures var rows := Upsert(db.quiz, HasKey(QuizKey, (id, user)), created, write);
            UniqueKey(rows, QuizKey)
            && Last(rows, HasKey(QuizKey, other))
            == if other == (id, user) then Some(Written(db.quiz, QuizKey, other, created, write)) else Last(db.quiz, HasKey(QuizKey, other))
  {
    UpsertLookup(db.quiz, QuizKey, (id, user), created, write, other);
  }

  lemma TotalWrite(db: Db, a: Id, user: Id, other: (Id, Id))
    requires UniqueKeys(db)
    ensures UniqueKeys(Recomputed(db, a, user))
    ensures Last(Recomputed(db, a, user).totals, HasKey(TotalKey, other))
         == if other == (a, user) then Some(Written(db.totals, TotalKey, other, AssignmentScore(a, user, 0.0, ""), SetFinal(Rollup(db, a, user))))
            else Last(db.totals, HasKey(TotalKey, other))
  {
    UpsertLookup(db.totals, TotalKey, (a, user), AssignmentScore(a, user, 0.0, ""), SetFinal(Rollup(db, a, user)), other);
  }

  lemma StoredIsLookup(db: Db, a: Id, user: Id)
    requires UniqueKeys(db)
    ensures First(db.totals, HasKey(TotalKey, (a, user))) == Last(db.totals, HasKey(TotalKey, (a, user)))
  {
    OneRowPerKey(db.totals, TotalKey, (a, user));
    FirstIsLast(db.totals, HasKey(TotalKey, (a, user)));
  }

  /** A grade lands in one row: the row of the graded item, or of the problem it wraps. */
  lemma GradeWritesOneRow(db: Db, item: Item, user: Id, g: Grade, other: Item, who: Id)
    requires UniqueKeys(db) && GradeWrites(db, item, user, g).Ok?
    ensures UniqueKeys(GradeWrites(db, item, user, g).value)
    ensures GradeWrites(db, item, user, g).value.(problemScores := db.problemScores, mcq := db.mcq, quiz := db.quiz) == db
    ensures who != user ==> forall published :: PlainLine(GradeWrites(db, item, user, g).value, other, who, published) == PlainLine(db, other, who, published)
    ensures Started(GradeWrites(db, item, user, g).value, item, user)
    ensures Started(db, other, who) ==> Started(GradeWrites(db, item, user, g).value, other, who)
    ensures Started(db, item, user) && !Started(db, other, who) ==> !Started(GradeWrites(db, item, user, g).value, other, who)
  {
    match item.kind
    case Coding =>
      PsWrite(db, item.apId.value, user, GradePs(g), (item.apId.value, user));
      if Linked(other) {
        PsWrite(db, item.apId.value, user, GradePs(g), (other.apId.value, who));
      }
    case Mcq =>
      McqWrite(db, item.id, user, McqResponse(item.id, user, [], 0.0), GradeMcq(g), (item.id, user));
      McqWrite(db, item.id, user, McqResponse(item.id, user, [], 0.0), GradeMcq(g), (other.id, who));
    case Quiz =>
      QuizWrite(db, item.id, user, QuizResponse(item.id, user, "", None, ""), GradeQuiz(g), (item.id, user));
      QuizWrite(db, item.id, user, QuizResponse(item.id, user, "", None, ""), GradeQuiz(g), (other.id, who));
  }

  lemma GradedItem(db: Db, itemId: Id, user: Id, g: Grade) returns (item: Item, d: Db)
    requires GradeItem(db, itemId, user, g).Ok?
    ensures First(db.items, HasKey(ItemKey, itemId)) == Some(item) && item in db.items && item.id == itemId
    ensures item in LoadItems(db, item.assignmentId)
    ensures GradeWrites(db, item, user, g) == Ok(d) && GradeItem(db, itemId, user, g) == Ok(Recomputed(d, item.assignmentId, user))
  {
    item := First(db.items, HasKey(ItemKey, itemId)).value;
    d := GradeWrites(db, item, user, g).value;
    WhereMembers(db.items, OfAssignment(item.assignmentId));
  }

  /** Before publication, grading an item leaves the student's own view as it was exactly when the item was already started. */
  lemma GradingIsHiddenExactlyWhenStarted(db: Db, itemId: Id, user: Id, g: Grade)
    requires UniqueKeys(db) && GradeItem(db, itemId, user, g).Ok?
    ensures var item := First(db.items, HasKey(ItemKey, itemId)).value;
            StudentScore(GradeItem(db, itemId, user, g).value, item.assignmentId, user, false) == StudentScore(db, item.assignmentId, user, false)
            <==> Started(db, item, user)
  {
    var item, d := GradedItem(db, itemId, user, g);
    var after := GradeItem(db, itemId, user, g).value;
    forall other ensures Started(after, other, user) <==> Started(d, other, user) {
    }
    forall other
      ensures Started(d, item, user)
      ensures Started(db, item, user) ==> (Started(d, other, user) <==> Started(db, other, user))
    {
      GradeWritesOneRow(db, item, user, g, other, user);
    }
    UnpublishedViewIsWhatWasStarted(after, db, item.assignmentId, user);
  }

  /** A quiz item nobody answered: the grade creates its row, and the unpublished view shows that something happened. */
  lemma GradingAnUnansweredQuizItemShows(db: Db, item: Item, user: Id, g: Grade)
    requires UniqueKeys(db) && item in db.items && item.kind == Quiz && g.score <= item.maxPoints
    requires forall r :: r in db.quiz ==> QuizKey(r) != (item.id, user)
    ensures GradeItem(db, item.id, user, g).Ok?
    ensures StudentScore(GradeItem(db, item.id, user, g).value, item.assignmentId, user, false) != StudentScore(db, item.assignmentId, user, false)
  {
    hide StudentScore;
    OneRowPerKey(db.items, ItemKey, item.id);
    var i :| 0 <= i < |db.items| && db.items[i] == item;
    FirstAt(db.items, HasKey(ItemKey, item.id), i);
    LastFound(db.quiz, HasKey(QuizKey, (item.id, user)));
    GradingIsHiddenExactlyWhenStarted(db, item.id, user, g);
  }

  /** Grading one student changes no other student's view of anything, published or not. */
  lemma GradingTouchesOneStudent(db: Db, itemId: Id, user: Id, g: Grade, a: Id, who: Id, published: bool)
    requires UniqueKeys(db) && GradeItem(db, itemId, user, g).Ok? && who != user
    ensures StudentScore(GradeItem(db, itemId, user, g).value, a, who, published) == StudentScore(db, a, who, published)
  {
    var item, d := GradedItem(db, itemId, user, g);
    var after := GradeItem(db, itemId, user, g).value;
    forall other ensures PlainLine(after, other, who, published) == PlainLine(db, other, who, published) {
      GradeWritesOneRow(db, item, user, g, other, who);
      assert PlainLine(after, other, who, published) == PlainLine(d, other, who, published);
    }
    GradeWritesOneRow(db, item, user, g, item, who);
    TotalWrite(d, item.assignmentId, user, (a, who));
    StoredIsLookup(after, a, who);
    StoredIsLookup(db, a, who);
    SameLinesSameView(after, db, a, who, published);
  }

  // ---------------------------------------------------------------- what a write shows

  /** The line of an item in a student's view. */
  function LineOf(db: Db, item: Item, user: Id, published: bool): ItemView {
    StudentLine(db, LoadItems(db, item.assignmentId), item, user, published)
  }

  lemma LineOfIsPlain(db: Db, item: Item, user: Id, published: bool)
    requires item in db.items
    ensures LineOf(db, item, user, published) == PlainLine(db, item, user, published)
  {
    WhereMembers(db.items, OfAssignment(item.assignmentId));
    LineIsPlain(db, LoadItems(db, item.assignmentId), item, user, published);
  }

  /** Once published, a graded item shows the score it was given, as graded, with the new feedback or else the old. */
  lemma GradingShowsOncePublished(db: Db, itemId: Id, user: Id, g: Grade)
    requires UniqueKeys(db) && GradeItem(db, itemId, user, g).Ok?
    ensures var item := First(db.items, HasKey(ItemKey, itemId)).value; var after := GradeItem(db, itemId, user, g).value;
            && LineOf(after, item, user, true).score == Some(g.score) && g.score <= item.maxPoints
            && LineOf(after, item, user, true).gradingStatus == Graded
            && (item.kind != Mcq ==> LineOf(after, item, user, true).feedback
                                     == if g.feedback.Some? then g.feedback.value else LineOf(db, item, user, true).feedback)
            && LineOf(after, item, user, false).score == None && LineOf(after, item, user, false).gradingStatus == Submitted
  {
    var item, d := GradedItem(db, itemId, user, g);
    var after := GradeItem(db, itemId, user, g).value;
    LineOfIsPlain(after, item, user, true);
    LineOfIsPlain(after, item, user, false);
    LineOfIsPlain(db, item, user, true);
    match item.kind
    case Coding =>
      PsWrite(db, item.apId.value, user, GradePs(g), (item.apId.value, user));
      OneRowPerKey(db.problemScores, PsKey, (item.apId.value, user));
      FirstIsLast(db.problemScores, HasKey(PsKey, (item.apId.value, user)));
    case Mcq => McqWrite(db, item.id, user, McqResponse(item.id, user, [], 0.0), GradeMcq(g), (item.id, user));
    case Quiz =>
      QuizWrite(db, item.id, user, QuizResponse(item.id, user, "", None, ""), GradeQuiz(g), (item.id, user));
      OneRowPerKey(db.quiz, QuizKey, (item.id, user));
      FirstIsLast(db.quiz, HasKey(QuizKey, (item.id, user)));
  }

  /** A saved MCQ answer counts at once with its award, and shows as merely submitted until publication. */
  lemma AnsweringShows(db: Db, item: Item, user: Id, selected: seq<Id>, awarded: real)
    requires UniqueKeys(db) && item in db.items && item.kind == Mcq
    ensures var after := SaveMcq(db, item, user, selected, awarded);
            && LineOf(after, item, user, true).score == Some(awarded) && LineOf(after, item, user, true).gradingStatus == Graded
            && LineOf(after, item, user, false).score == None && LineOf(after, item, user, false).gradingStatus == Submitted
  {
    var after := SaveMcq(db, item, user, selected, awarded);
    LineOfIsPlain(after, item, user, true);
    LineOfIsPlain(after, item, user, false);
    McqWrite(db, item.id, user, McqResponse(item.id, user, [], 0.0), Answer(selected, awarded), (item.id, user));
  }

  /** A saved quiz answer keeps the award a professor gave, and is merely submitted without one. */
  lemma QuizAnswerWaitsForAProfessor(db: Db, item: Item, user: Id, text: string)
    requires UniqueKeys(db) && item in db.items && item.kind == Quiz
    ensures var after := SaveQuiz(db, item, user, text);
            && LineOf(after, item, user, true).score == LineOf(db, item, user, true).score
            && (LineOf(after, item, user, true).gradingStatus == Graded <==> LineOf(db, item, user, true).gradingStatus == Graded)
            && LineOf(after, item, user, true).gradingStatus != NotStarted
            && LineOf(after, item, user, true).feedback == LineOf(db, item, user, true).feedback
  {
    var after := SaveQuiz(db, item, user, text);
    LineOfIsPlain(after, item, user, true);
    LineOfIsPlain(db, item, user, true);
    QuizWrite(db, item.id, user, QuizResponse(item.id, user, "", None, ""), AnswerText(text), (item.id, user));
    OneRowPerKey(db.quiz, QuizKey, (item.id, user));
    FirstIsLast(db.quiz, HasKey(QuizKey, (item.id, user)));
  }
}
