/**
 The grading service in its own form. The bulk gradebook is built through two-level maps
 filled in a loop and agrees with the per-student view; the writing methods are tied to the
 row functions of `Grading`.
 */
module GradingService {
  import opened Common
  import opened Tables
  import opened Grading
  import opened RevealGate
  import opened McqScoring

  function Both<R>(outer: R -> Id, inner: R -> Id, o: Id, i: Id): R -> bool {
    (r: R) => outer(r) == o && inner(r) == i
  }

  function Find<R>(index: map<Id, map<Id, R>>, o: Id, i: Id): Option<R> {
    if o in index && i in index[o] then Some(index[o][i]) else None
  }

  /** `nest`: the two-level map finds the last row with both keys. */
  method Nest<R(!new)>(rows: seq<R>, outer: R -> Id, inner: R -> Id) returns (index: map<Id, map<Id, R>>)
    ensures forall o, i :: Find(index, o, i) == Last(rows, Both(outer, inner, o, i))
  {
    index := map[];
    for k := 0 to |rows|
      invariant forall o, i :: Find(index, o, i) == Last(rows[..k], Both(outer, inner, o, i))
    {
      var r := rows[k];
      var o := outer(r);
      if o !in index {
        index := index[o := map[]];
      }
      index := index[o := index[o][inner(r) := r]];
      assert rows[..k + 1][..k] == rows[..k];
    }
    assert rows[..|rows|] == rows;
  }

  /** The rows the bulk queries fetch. */
  function PsOf(aps: seq<Id>, students: seq<Id>): ProblemScore -> bool { (r: ProblemScore) => r.apId in aps && r.userId in students }
  function McqOf(ids: seq<Id>, students: seq<Id>): McqResponse -> bool { (r: McqResponse) => r.itemId in ids && r.userId in students }
  function QuizOf(ids: seq<Id>, students: seq<Id>): QuizResponse -> bool { (r: QuizResponse) => r.itemId in ids && r.userId in students }
  function TotalOf(a: Id, students: seq<Id>): AssignmentScore -> bool { (r: AssignmentScore) => r.assignmentId == a && r.userId in students }

  function PsUser(): ProblemScore -> Id { (r: ProblemScore) => r.userId }
  function PsAp(): ProblemScore -> Id { (r: ProblemScore) => r.apId }
  function McqUser(): McqResponse -> Id { (r: McqResponse) => r.userId }
  function McqItem(): McqResponse -> Id { (r: McqResponse) => r.itemId }
  function QuizUser(): QuizResponse -> Id { (r: QuizResponse) => r.userId }
  function QuizItem(): QuizResponse -> Id { (r: QuizResponse) => r.itemId }
  function TotalUser(user: Id): AssignmentScore -> bool { (r: AssignmentScore) => r.userId == user }

  /** One line of the bulk gradebook. */
  function BulkLine(
    ps: map<Id, map<Id, ProblemScore>>, mcq: map<Id, map<Id, McqResponse>>, quiz: map<Id, map<Id, QuizResponse>>,
    item: Item, student: Id): ItemView
  {
    ViewOf(item, Find(ps, student, if item.apId.Some? then item.apId.value else ""),
           Find(mcq, student, item.id), Find(quiz, student, item.id), true)
  }

  /** The maps hold exactly the rows of these students among these items. */
  ghost predicate Indexes(
    db: Db, items: seq<Item>, students: seq<Id>,
    ps: map<Id, map<Id, ProblemScore>>, mcq: map<Id, map<Id, McqResponse>>, quiz: map<Id, map<Id, QuizResponse>>)
  {
    && (forall u, i :: Find(ps, u, i) == Last(Where(db.problemScores, PsOf(CodingAps(items), students)), Both(PsUser(), PsAp(), u, i)))
    && (forall u, i :: Find(mcq, u, i) == Last(Where(db.mcq, McqOf(IdsOfKind(items, Mcq), students)), Both(McqUser(), McqItem(), u, i)))
    && (forall u, i :: Find(quiz, u, i) == Last(Where(db.quiz, QuizOf(IdsOfKind(items, Quiz), students)), Both(QuizUser(), QuizItem(), u, i)))
  }

  /** A line read through the two-level maps is the line of the student's own view. */
  lemma BulkLineIsStudentLine(
    db: Db, items: seq<Item>, students: seq<Id>,
    ps: map<Id, map<Id, ProblemScore>>, mcq: map<Id, map<Id, McqResponse>>, quiz: map<Id, map<Id, QuizResponse>>,
    item: Item, student: Id)
    requires Indexes(db, items, students, ps, mcq, quiz) && item in items && student in students
    ensures BulkLine(ps, mcq, quiz, item, student) == StudentLine(db, items, item, student, true)
  {
    LineIsPlain(db, items, item, student, true);
    match item.kind
    case Coding =>
      CodingApsComplete(items);
      if Linked(item) {
        var ap := item.apId.value;
        forall r: ProblemScore
          ensures HasKey(PsKey, (ap, student))(r) <==> PsOf(CodingAps(items), students)(r) && Both(PsUser(), PsAp(), student, ap)(r)
        {
          assert PsKey(r) == (r.apId, r.userId);
        }
        LastWhere(db.problemScores, PsOf(CodingAps(items), students), Both(PsUser(), PsAp(), student, ap), HasKey(PsKey, (ap, student)));
      } else {
        var ap := if item.apId.Some? then item.apId.value else "";
        WhereMembers(db.problemScores, PsOf(CodingAps(items), students));
        LastFound(Where(db.problemScores, PsOf(CodingAps(items), students)), Both(PsUser(), PsAp(), student, ap));
      }
    case Mcq =>
      IdsOfKindComplete(items, Mcq);
      forall r: McqResponse
        ensures HasKey(McqKey, (item.id, student))(r) <==> McqOf(IdsOfKind(items, Mcq), students)(r) && Both(McqUser(), McqItem(), student, item.id)(r)
      {
        assert McqKey(r) == (r.itemId, r.userId);
      }
      LastWhere(db.mcq, McqOf(IdsOfKind(items, Mcq), students), Both(McqUser(), McqItem(), student, item.id), HasKey(McqKey, (item.id, student)));
    case Quiz =>
      IdsOfKindComplete(items, Quiz);
      forall r: QuizResponse
        ensures HasKey(QuizKey, (item.id, student))(r) <==> QuizOf(IdsOfKind(items, Quiz), students)(r) && Both(QuizUser(), QuizItem(), student, item.id)(r)
      {
        assert QuizKey(r) == (r.itemId, r.userId);
      }
      LastWhere(db.quiz, QuizOf(IdsOfKind(items, Quiz), students), Both(QuizUser(), QuizItem(), student, item.id), HasKey(QuizKey, (item.id, student)));
  }

  /** The map of totals holds what `findOne` reads, keys being unique. */
  lemma TotalLookup(db: Db, a: Id, students: seq<Id>, student: Id)
    requires UniqueKeys(db) && student in students
    ensures Last(Where(db.totals, TotalOf(a, students)), TotalUser(student)) == First(db.totals, HasKey(TotalKey, (a, student)))
  {
    forall r: AssignmentScore ensures HasKey(TotalKey, (a, student))(r) <==> TotalOf(a, students)(r) && TotalUser(student)(r) {
      assert TotalKey(r) == (r.assignmentId, r.userId);
    }
    LastWhere(db.totals, TotalOf(a, students), TotalUser(student), HasKey(TotalKey, (a, student)));
    StoredIsLookup(db, a, student);
  }

  class Service {
    var items: seq<Item>
    var problems: seq<AssignmentProblem>
    var problemScores: seq<ProblemScore>
    var mcq: seq<McqResponse>
    var quiz: seq<QuizResponse>
    var totals: seq<AssignmentScore>

    constructor (db: Db)
      ensures Rows() == db
    {
      items, problems, problemScores, mcq, quiz, totals := db.items, db.problems, db.problemScores, db.mcq, db.quiz, db.totals;
    }

    function Rows(): Db
      reads this
    {
      Db(items, problems, problemScores, mcq, quiz, totals)
    }

    /** `getStudentsScore`: row for row what each student's own published view shows. */
    method GetStudentsScore(a: Id, students: seq<Id>) returns (views: seq<StudentView>)
      requires UniqueKeys(Rows())
      ensures |views| == |students|
      ensures forall k :: 0 <= k < |students| ==> views[k] == StudentScore(Rows(), a, students[k], true)
    {
      if students == [] {
        return [];
      }
      var shown := LoadItems(Rows(), a);
      var ps := Nest(Where(problemScores, PsOf(CodingAps(shown), students)), PsUser(), PsAp());
      var mcqs := Nest(Where(mcq, McqOf(IdsOfKind(shown, Mcq), students)), McqUser(), McqItem());
      var quizzes := Nest(Where(quiz, QuizOf(IdsOfKind(shown, Quiz), students)), QuizUser(), QuizItem());
      var totalRows := Where(totals, TotalOf(a, students));
      var byUser: map<Id, AssignmentScore> := map[];
      for k := 0 to |totalRows|
        invariant forall u :: (if u in byUser then Some(byUser[u]) else None) == Last(totalRows[..k], TotalUser(u))
      {
        byUser := byUser[totalRows[k].userId := totalRows[k]];
        assert totalRows[..k + 1][..k] == totalRows[..k];
      }
      assert totalRows[..|totalRows|] == totalRows;
      var maxScore := MaxScore(shown);
      views := [];
      for k := 0 to |students|
        invariant |views| == k
        invariant forall j :: 0 <= j < k ==> views[j] == StudentScore(Rows(), a, students[j], true)
      {
        var student := students[k];
        var lines := seq(|shown|, i requires 0 <= i < |shown| => BulkLine(ps, mcqs, quizzes, shown[i], student));
        var (total, feedback) := if student in byUser then (byUser[student].finalScore, byUser[student].feedback) else (0.0, "");
        forall i | 0 <= i < |shown| ensures lines[i] == StudentLine(Rows(), shown, shown[i], student, true) {
          BulkLineIsStudentLine(Rows(), shown, students, ps, mcqs, quizzes, shown[i], student);
        }
        assert lines == StudentLines(Rows(), shown, shown, student, true);
        TotalLookup(Rows(), a, students, student);
        views := views + [StudentView(student, Some(total), maxScore, feedback, lines)];
      }
    }

    /** `getOrCreateProblemScore`. */
    method GetOrCreateProblemScore(ap: Id, user: Id) returns (i: nat)
      modifies this`problemScores
      ensures i < |problemScores|
      ensures forall write: ProblemScore -> ProblemScore :: problemScores[i := write(problemScores[i])] == Upsert(old(problemScores), HasKey(PsKey, (ap, user)), NewProblemScore(ap, user), write)
    {
      match IndexOf(problemScores, HasKey(PsKey, (ap, user))) {
        case Some(k) =>
          i := k;
        case None =>
          i := |problemScores|;
          problemScores := problemScores + [NewProblemScore(ap, user)];
      }
    }

    /** `recomputeAssignmentScore`: three sums, then get or create the total and save it. */
    method RecomputeAssignmentScore(a: Id, user: Id)
      modifies this`totals
      ensures Rows() == Recomputed(old(Rows()), a, user)
    {
      var coding := SumWhere(problemScores, CodingRows(problems, a, user), PsScore());
      var mcqs := SumWhere(mcq, McqRows(items, a, user), McqScore());
      var quizzes := SumWhere(quiz, QuizRows(items, a, user), QuizScore());
      var total := coding + mcqs + quizzes;
      match IndexOf(totals, HasKey(TotalKey, (a, user))) {
        case Some(i) =>
          totals := totals[i := totals[i].(finalScore := total)];
        case None =>
          totals := totals + [AssignmentScore(a, user, 0.0, "")];
          totals := totals[|totals| - 1 := totals[|totals| - 1].(finalScore := total)];
      }
    }

    /** `updateScore`. */
    method UpdateScore(apId: Id, user: Id, g: Grade) returns (refused: Option<Reason>)
      modifies this
      ensures match Grading.UpdateScore(old(Rows()), apId, user, g)
              case Err(e) => refused == Some(e) && Rows() == old(Rows())
              case Ok(db) => refused == None && Rows() == db
    {
      var found := First(problems, HasKey(ProblemKey, apId));
      if found.None? {
        return Some(ProblemNotFound);
      }
      if g.score > found.value.score {
        return Some(AboveMaximum);
      }
      var i := GetOrCreateProblemScore(apId, user);
      var row := problemScores[i].(score := g.score, gradingStatus := Graded);
      if g.feedback.Some? {
        row := row.(feedback := g.feedback.value);
      }
      assert row == GradePs(g)(problemScores[i]);
      problemScores := problemScores[i := row];
      RecomputeAssignmentScore(found.value.assignmentId, user);
      refused := None;
    }

    /** `gradeItem`: dispatch by kind, then recompute. */
    method GradeItem(itemId: Id, user: Id, g: Grade) returns (refused: Option<Reason>)
      modifies this
      ensures match Grading.GradeItem(old(Rows()), itemId, user, g)
              case Err(e) => refused == Some(e) && Rows() == old(Rows())
              case Ok(db) => refused == None && Rows() == db
    {
      var found := First(items, HasKey(ItemKey, itemId));
      if found.None? {
        return Some(ItemNotFound);
      }
      var item := found.value;
      assert ItemKey(item) == itemId;
      if g.score > item.maxPoints {
        return Some(AboveMaximum);
      }
      match item.kind {
        case Coding =>
          if !(item.apId.Some? && item.apId.value != "") {
            return Some(NoLinkedProblem);
          }
          var i := GetOrCreateProblemScore(item.apId.value, user);
          var row := problemScores[i].(score := g.score, gradingStatus := Graded);
          if g.feedback.Some? {
            row := row.(feedback := g.feedback.value);
          }
          assert row == GradePs(g)(problemScores[i]);
          problemScores := problemScores[i := row];
        case Quiz =>
          var i := IndexOf(quiz, HasKey(QuizKey, (itemId, user)));
          var row := if i.Some? then quiz[i.value] else QuizResponse(itemId, user, "", None, "");
          row := row.(awarded := Some(g.score));
          if g.feedback.Some? {
            row := row.(feedback := g.feedback.value);
          }
          quiz := if i.Some? then quiz[i.value := row] else quiz + [row];
        case Mcq =>
          var i := IndexOf(mcq, HasKey(McqKey, (itemId, user)));
          if i.None? {
            return Some(NoResponseToOverride);
          }
          mcq := mcq[i.value := mcq[i.value].(awarded := g.score)];
      }
      RecomputeAssignmentScore(item.assignmentId, user);
      refused := None;
    }

    /** `onSubmissionFinalized`: attempt tracking only, then recompute. */
    method OnSubmissionFinalized(e: Finalized, professorOf: map<Id, Id>)
      modifies this
      ensures Rows() == SubmissionFinalized(old(Rows()), e, professorOf)
    {
      if e.practice {
        return;
      }
      var found := First(problems, HasKey(ProblemKey, e.apId));
      if found.None? {
        return;
      }
      var ap := found.value;
      if ap.assignmentId in professorOf && professorOf[ap.assignmentId] == e.userId {
        return;
      }
      var i := GetOrCreateProblemScore(ap.id, e.userId);
      var row := problemScores[i];
      row := row.(submissionCount := row.submissionCount + 1);
      var alreadyAccepted := row.submission.Some? && row.submission.value.accepted;
      if e.submission.accepted || !alreadyAccepted {
        row := row.(submission := Some(e.submission));
      }
      if row.gradingStatus != Graded {
        row := row.(gradingStatus := Submitted);
      }
      assert row == Track(e.submission)(problemScores[i]);
      problemScores := problemScores[i := row];
      RecomputeAssignmentScore(ap.assignmentId, e.userId);
    }

    /** The writes of `saveMcqResponse`, its checks having passed. */
    method SaveMcqResponse(item: Item, user: Id, options: seq<McqOption>, selectedIds: seq<Id>)
      modifies this`mcq
      ensures Rows() == SavedMcq(old(Rows()), item, user, options, selectedIds)
    {
      var sanitized := Sanitize(options, selectedIds);
      var chosen := Elems(sanitized);
      var correct := CorrectIds(options);
      var exactMatch := |correct| > 0 && |chosen| == |correct| && forall id :: id in chosen ==> id in correct;
      var awarded := if exactMatch then item.maxPoints else 0.0;
      var existing := IndexOf(mcq, HasKey(McqKey, (item.id, user)));
      if existing.Some? {
        mcq := mcq[existing.value := mcq[existing.value].(selected := sanitized, awarded := awarded)];
      } else {
        mcq := mcq + [McqResponse(item.id, user, sanitized, awarded)];
      }
    }
  }
}
