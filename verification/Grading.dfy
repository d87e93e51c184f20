/**
 Scores as the gradebook and a student see them: the per-item view with its published gate,
 the per-student score, the stored rollup, and the writes that professors and the judge make.
 Points are reals.
 */
module Grading {
  import opened Common
  import opened Tables

  type Id = string

  datatype Kind = Coding | Mcq | Quiz

  datatype GradingStatus = NotStarted | Submitted | Graded

  /** An assignment item; `apId` links a coding item to the problem it wraps. */
  datatype Item = Item(id: Id, assignmentId: Id, kind: Kind, maxPoints: real, title: string, apId: Option<Id>)

  datatype AssignmentProblem = AssignmentProblem(id: Id, assignmentId: Id, problemId: Id, score: real)

  datatype Submission = Submission(id: Id, accepted: bool)

  datatype ProblemScore = ProblemScore(
    apId: Id, userId: Id, score: real, gradingStatus: GradingStatus, submission: Option<Submission>,
    submissionCount: nat, feedback: string)

  datatype McqResponse = McqResponse(itemId: Id, userId: Id, selected: seq<Id>, awarded: real)

  datatype QuizResponse = QuizResponse(itemId: Id, userId: Id, answer: string, awarded: Option<real>, feedback: string)

  datatype AssignmentScore = AssignmentScore(assignmentId: Id, userId: Id, finalScore: real, feedback: string)

  /** Items are stored in display order. */
  datatype Db = Db(
    items: seq<Item>, problems: seq<AssignmentProblem>, problemScores: seq<ProblemScore>,
    mcq: seq<McqResponse>, quiz: seq<QuizResponse>, totals: seq<AssignmentScore>)

  function PsKey(r: ProblemScore): (Id, Id) { (r.apId, r.userId) }
  function McqKey(r: McqResponse): (Id, Id) { (r.itemId, r.userId) }
  function QuizKey(r: QuizResponse): (Id, Id) { (r.itemId, r.userId) }
  function TotalKey(r: AssignmentScore): (Id, Id) { (r.assignmentId, r.userId) }
  function ItemKey(i: Item): Id { i.id }
  function ProblemKey(p: AssignmentProblem): Id { p.id }

  function PsScore(): ProblemScore -> real { (r: ProblemScore) => r.score }
  function McqScore(): McqResponse -> real { (r: McqResponse) => r.awarded }
  function QuizScore(): QuizResponse -> real { (r: QuizResponse) => if r.awarded.Some? then r.awarded.value else 0.0 }

  /** The unique constraints of the tables. */
  ghost predicate UniqueKeys(db: Db) {
    && UniqueKey(db.items, ItemKey) && UniqueKey(db.problems, ProblemKey)
    && UniqueKey(db.problemScores, PsKey) && UniqueKey(db.mcq, McqKey)
    && UniqueKey(db.quiz, QuizKey) && UniqueKey(db.totals, TotalKey)
  }

  // ---------------------------------------------------------------- views

  /** `solved` is absent on non-coding lines and null before the reveal. */
  datatype Solved = Absent | Withheld | Known(value: bool)

  datatype ItemView = ItemView(
    itemId: Id, kind: Kind, apId: Option<Id>, title: string, maxScore: real,
    score: Option<real>, gradingStatus: GradingStatus, feedback: string, solved: Solved)

  datatype StudentView = StudentView(
    userId: Id, finalScore: Option<real>, maxScore: real, feedback: string, items: seq<ItemView>)

  /** The true score, status, feedback and solved flag of one item. */
  function TrueScore(item: Item, ps: Option<ProblemScore>, mcq: Option<McqResponse>, quiz: Option<QuizResponse>): real {
    match item.kind
    case Coding => ValueOf(ps, PsScore())
    case Mcq => ValueOf(mcq, McqScore())
    case Quiz => ValueOf(quiz, QuizScore())
  }

  function TrueStatus(item: Item, ps: Option<ProblemScore>, mcq: Option<McqResponse>, quiz: Option<QuizResponse>): GradingStatus {
    match item.kind
    case Coding => if ps.Some? then ps.value.gradingStatus else NotStarted
    case Mcq => if mcq.Some? then Graded else NotStarted
    case Quiz => if quiz.None? then NotStarted else if quiz.value.awarded.Some? then Graded else Submitted
  }

  function TrueFeedback(item: Item, ps: Option<ProblemScore>, quiz: Option<QuizResponse>): string {
    match item.kind
    case Coding => if ps.Some? then ps.value.feedback else ""
    case Mcq => ""
    case Quiz => if quiz.Some? then quiz.value.feedback else ""
  }

  function ViewOf(item: Item, ps: Option<ProblemScore>, mcq: Option<McqResponse>, quiz: Option<QuizResponse>, published: bool): ItemView {
    var status := TrueStatus(item, ps, mcq, quiz);
    ItemView(
      item.id, item.kind, item.apId, item.title, item.maxPoints,
      if published then Some(TrueScore(item, ps, mcq, quiz)) else None,
      if published || status != Graded then status else Submitted,
      if published then TrueFeedback(item, ps, quiz) else "",
      if item.kind != Coding then Absent
      else if published then Known(ps.Some? && ps.value.submission.Some? && ps.value.score > 0.0)
      else Withheld)
  }

  function OfAssignment(a: Id): Item -> bool { (i: Item) => i.assignmentId == a }

  /** `loadItems`. */
  function LoadItems(db: Db, a: Id): seq<Item> {
    Where(db.items, OfAssignment(a))
  }

  /** A coding item with a usable link. */
  predicate Linked(item: Item) {
    item.kind == Coding && item.apId.Some? && item.apId.value != ""
  }

  function CodingAps(items: seq<Item>): seq<Id> {
    if items == [] then []
    else
      var last := items[|items| - 1];
      CodingAps(items[..|items| - 1]) + if Linked(last) then [last.apId.value] else []
  }

  function IdsOfKind(items: seq<Item>, kind: Kind): seq<Id> {
    if items == [] then []
    else
      var last := items[|items| - 1];
      IdsOfKind(items[..|items| - 1], kind) + if last.kind == kind then [last.id] else []
  }

  function MaxScore(items: seq<Item>): real {
    if items == [] then 0.0 else MaxScore(items[..|items| - 1]) + items[|items| - 1].maxPoints
  }

  /** The rows one student has among these problems and items. */
  function PsFetched(aps: seq<Id>, user: Id): ProblemScore -> bool { (r: ProblemScore) => r.apId in aps && r.userId == user }
  function McqFetched(ids: seq<Id>, user: Id): McqResponse -> bool { (r: McqResponse) => r.itemId in ids && r.userId == user }
  function QuizFetched(ids: seq<Id>, user: Id): QuizResponse -> bool { (r: QuizResponse) => r.itemId in ids && r.userId == user }

  function PsAt(ap: Id): ProblemScore -> bool { (r: ProblemScore) => r.apId == ap }
  function McqAt(id: Id): McqResponse -> bool { (r: McqResponse) => r.itemId == id }
  function QuizAt(id: Id): QuizResponse -> bool { (r: QuizResponse) => r.itemId == id }

  /** One line of the per-student view, through the maps it builds from that student's rows. */
  function StudentLine(db: Db, items: seq<Item>, item: Item, user: Id, published: bool): ItemView {
    ViewOf(item,
           if item.apId.Some? && item.apId.value != ""
           then Last(Where(db.problemScores, PsFetched(CodingAps(items), user)), PsAt(item.apId.value)) else None,
           Last(Where(db.mcq, McqFetched(IdsOfKind(items, Mcq), user)), McqAt(item.id)),
           Last(Where(db.quiz, QuizFetched(IdsOfKind(items, Quiz), user)), QuizAt(item.id)),
           published)
  }

  function StudentLines(db: Db, items: seq<Item>, shown: seq<Item>, user: Id, published: bool): seq<ItemView> {
    seq(|shown|, i requires 0 <= i < |shown| => StudentLine(db, items, shown[i], user, published))
  }

  /** `readAssignmentScore`: never inserts. */
  function StoredTotal(db: Db, a: Id, user: Id): (real, string) {
    match First(db.totals, HasKey(TotalKey, (a, user)))
    case None => (0.0, "")
    case Some(r) => (r.finalScore, r.feedback)
  }

  /** `buildStudentScore`; `published` is whether the assignment is GRADE_PUBLISHED. */
  function StudentScore(db: Db, a: Id, user: Id, published: bool): StudentView {
    var items := LoadItems(db, a);
    var (total, feedback) := StoredTotal(db, a, user);
    StudentView(user, if published then Some(total) else None, MaxScore(items), if published then feedback else "",
                StudentLines(db, items, items, user, published))
  }

  // ---------------------------------------------------------------- lookups by unique key

  lemma {:induction false} CodingApsComplete(items: seq<Item>)
    ensures forall i :: i in items && Linked(i) ==> i.apId.value in CodingAps(items)
    ensures forall ap :: ap in CodingAps(items) ==> exists i :: i in items && Linked(i) && i.apId.value == ap
  {
    if items != [] {
      var init, last := items[..|items| - 1], items[|items| - 1];
      CodingApsComplete(init);
      assert items == init + [last];
    }
  }

  lemma {:induction false} IdsOfKindComplete(items: seq<Item>, kind: Kind)
    ensures forall i :: i in items && i.kind == kind ==> i.id in IdsOfKind(items, kind)
    ensures forall id :: id in IdsOfKind(items, kind) ==> exists i :: i in items && i.kind == kind && i.id == id
  {
    if items != [] {
      var init, last := items[..|items| - 1], items[|items| - 1];
      IdsOfKindComplete(init, kind);
      assert items == init + [last];
    }
  }

  /** Within an assignment's items, a line is the plain lookup of the student's rows. */
  function PlainLine(db: Db, item: Item, user: Id, published: bool): ItemView {
    ViewOf(item,
           if Linked(item) then Last(db.problemScores, HasKey(PsKey, (item.apId.value, user))) else None,
           Last(db.mcq, HasKey(McqKey, (item.id, user))),
           Last(db.quiz, HasKey(QuizKey, (item.id, user))),
           published)
  }

  /** Reading a coding row through the fetched list is looking it up by its key. */
  lemma PsLookup(db: Db, aps: seq<Id>, ap: Id, user: Id)
    requires ap in aps
    ensures Last(Where(db.problemScores, PsFetched(aps, user)), PsAt(ap)) == Last(db.problemScores, HasKey(PsKey, (ap, user)))
  {
    forall r: ProblemScore ensures HasKey(PsKey, (ap, user))(r) <==> PsFetched(aps, user)(r) && PsAt(ap)(r) {
      assert PsKey(r) == (r.apId, r.userId);
    }
    LastWhere(db.problemScores, PsFetched(aps, user), PsAt(ap), HasKey(PsKey, (ap, user)));
  }

  lemma McqLookup(db: Db, ids: seq<Id>, id: Id, user: Id)
    requires id in ids
    ensures Last(Where(db.mcq, McqFetched(ids, user)), McqAt(id)) == Last(db.mcq, HasKey(McqKey, (id, user)))
  {
    forall r: McqResponse ensures HasKey(McqKey, (id, user))(r) <==> McqFetched(ids, user)(r) && McqAt(id)(r) {
      assert McqKey(r) == (r.itemId, r.userId);
    }
    LastWhere(db.mcq, McqFetched(ids, user), McqAt(id), HasKey(McqKey, (id, user)));
  }

  lemma QuizLookup(db: Db, ids: seq<Id>, id: Id, user: Id)
    requires id in ids
    ensures Last(Where(db.quiz, QuizFetched(ids, user)), QuizAt(id)) == Last(db.quiz, HasKey(QuizKey, (id, user)))
  {
    forall r: QuizResponse ensures HasKey(QuizKey, (id, user))(r) <==> QuizFetched(ids, user)(r) && QuizAt(id)(r) {
      assert QuizKey(r) == (r.itemId, r.userId);
    }
    LastWhere(db.quiz, QuizFetched(ids, user), QuizAt(id), HasKey(QuizKey, (id, user)));
  }

  lemma LineIsPlain(db: Db, items: seq<Item>, item: Item, user: Id, published: bool)
    requires item in items
    ensures StudentLine(db, items, item, user, published) == PlainLine(db, item, user, published)
  {
    match item.kind
    case Coding =>
      if Linked(item) {
        CodingApsComplete(items);
        PsLookup(db, CodingAps(items), item.apId.value, user);
      }
    case Mcq =>
      IdsOfKindComplete(items, Mcq);
      McqLookup(db, IdsOfKind(items, Mcq), item.id, user);
    case Quiz =>
      IdsOfKindComplete(items, Quiz);
      QuizLookup(db, IdsOfKind(items, Quiz), item.id, user);
  }

  // ---------------------------------------------------------------- the stored rollup

  predicate ProblemOf(problems: seq<AssignmentProblem>, a: Id, ap: Id) {
    exists p :: p in problems && p.id == ap && p.assignmentId == a
  }

  predicate ItemOf(items: seq<Item>, a: Id, kind: Kind, id: Id) {
    exists i :: i in items && i.id == id && i.assignmentId == a && i.kind == kind
  }

  /** The join conditions of the three sums. */
  function CodingRows(problems: seq<AssignmentProblem>, a: Id, user: Id): ProblemScore -> bool {
    (r: ProblemScore) => r.userId == user && ProblemOf(problems, a, r.apId)
  }

  function McqRows(items: seq<Item>, a: Id, user: Id): McqResponse -> bool {
    (r: McqResponse) => r.userId == user && ItemOf(items, a, Mcq, r.itemId)
  }

  function QuizRows(items: seq<Item>, a: Id, user: Id): QuizResponse -> bool {
    (r: QuizResponse) => r.userId == user && ItemOf(items, a, Quiz, r.itemId)
  }

  /** The total of `recomputeAssignmentScore`. */
  function Rollup(db: Db, a: Id, user: Id): real {
    SumWhere(db.problemScores, CodingRows(db.problems, a, user), PsScore())
    + SumWhere(db.mcq, McqRows(db.items, a, user), McqScore())
    + SumWhere(db.quiz, QuizRows(db.items, a, user), QuizScore())
  }

  function SetFinal(total: real): AssignmentScore -> AssignmentScore {
    (r: AssignmentScore) => r.(finalScore := total)
  }

  function Recomputed(db: Db, a: Id, user: Id): Db {
    db.(totals := Upsert(db.totals, HasKey(TotalKey, (a, user)), AssignmentScore(a, user, 0.0, ""), SetFinal(Rollup(db, a, user))))
  }

  // ---------------------------------------------------------------- grading and submitting

  datatype Grade = Grade(score: real, feedback: Option<string>)

  datatype Reason = ItemNotFound | ProblemNotFound | AboveMaximum | NoLinkedProblem | NoResponseToOverride

  function GradePs(g: Grade): ProblemScore -> ProblemScore {
    (r: ProblemScore) => r.(score := g.score, gradingStatus := Graded, feedback := if g.feedback.Some? then g.feedback.value else r.feedback)
  }

  function GradeQuiz(g: Grade): QuizResponse -> QuizResponse {
    (r: QuizResponse) => r.(awarded := Some(g.score), feedback := if g.feedback.Some? then g.feedback.value else r.feedback)
  }

  function GradeMcq(g: Grade): McqResponse -> McqResponse {
    (r: McqResponse) => r.(awarded := g.score)
  }

  function NewProblemScore(ap: Id, user: Id): ProblemScore {
    ProblemScore(ap, user, 0.0, NotStarted, None, 0, "")
  }

  /** The row writes of `gradeItem`, before the total is recomputed. */
  function GradeWrites(db: Db, item: Item, user: Id, g: Grade): Result<Db, Reason> {
    if g.score > item.maxPoints then Err(AboveMaximum)
    else
      match item.kind
      case Coding =>
        if !Linked(item) then Err(NoLinkedProblem)
        else
          var ap := item.apId.value;
          Ok(db.(problemScores := Upsert(db.problemScores, HasKey(PsKey, (ap, user)), NewProblemScore(ap, user), GradePs(g))))
      case Quiz =>
        Ok(db.(quiz := Upsert(db.quiz, HasKey(QuizKey, (item.id, user)), QuizResponse(item.id, user, "", None, ""), GradeQuiz(g))))
      case Mcq =>
        if First(db.mcq, HasKey(McqKey, (item.id, user))).None? then Err(NoResponseToOverride)
        else Ok(db.(mcq := Upsert(db.mcq, HasKey(McqKey, (item.id, user)), McqResponse(item.id, user, [], 0.0), GradeMcq(g))))
  }

  /** `gradeItem`. */
  function GradeItem(db: Db, itemId: Id, user: Id, g: Grade): Result<Db, Reason> {
    match First(db.items, HasKey(ItemKey, itemId))
    case None => Err(ItemNotFound)
    case Some(item) =>
      match GradeWrites(db, item, user, g)
      case Err(e) => Err(e)
      case Ok(d) => Ok(Recomputed(d, item.assignmentId, user))
  }

  /** `updateScore`, keyed by the problem. */
  function UpdateScore(db: Db, apId: Id, user: Id, g: Grade): Result<Db, Reason> {
    match First(db.problems, HasKey(ProblemKey, apId))
    case None => Err(ProblemNotFound)
    case Some(ap) =>
      if g.score > ap.score then Err(AboveMaximum)
      else
        var d := db.(problemScores := Upsert(db.problemScores, HasKey(PsKey, (apId, user)), NewProblemScore(apId, user), GradePs(g)));
        Ok(Recomputed(d, ap.assignmentId, user))
  }

  /** What a finalized submission writes: a count, the pinned submission and the status, never the score. */
  function Track(s: Submission): ProblemScore -> ProblemScore {
    (r: ProblemScore) =>
      var pinned := if s.accepted || !(r.submission.Some? && r.submission.value.accepted) then Some(s) else r.submission;
      r.(submissionCount := r.submissionCount + 1, submission := pinned,
         gradingStatus := if r.gradingStatus == Graded then Graded else Submitted)
  }

  datatype Finalized = Finalized(submission: Submission, userId: Id, practice: bool, apId: Id)

  /** `onSubmissionFinalized`; `professorOf` is the classroom's professor of each assignment. */
  function SubmissionFinalized(db: Db, e: Finalized, professorOf: map<Id, Id>): Db {
    if e.practice then db
    else
      match First(db.problems, HasKey(ProblemKey, e.apId))
      case None => db
      case Some(ap) =>
        if ap.assignmentId in professorOf && professorOf[ap.assignmentId] == e.userId then db
        else
          var d := db.(problemScores := Upsert(db.problemScores, HasKey(PsKey, (ap.id, e.userId)), NewProblemScore(ap.id, e.userId), Track(e.submission)));
          Recomputed(d, ap.assignmentId, e.userId)
  }

  // ---------------------------------------------------------------- student saves

  function Answer(selected: seq<Id>, awarded: real): McqResponse -> McqResponse {
    (r: McqResponse) => r.(selected := selected, awarded := awarded)
  }

  function AnswerText(text: string): QuizResponse -> QuizResponse {
    (r: QuizResponse) => r.(answer := text)
  }

  /** The row write of `saveMcqResponse`, for a sanitized selection and its award: no recompute follows. */
  function SaveMcq(db: Db, item: Item, user: Id, selected: seq<Id>, awarded: real): Db {
    db.(mcq := Upsert(db.mcq, HasKey(McqKey, (item.id, user)), McqResponse(item.id, user, [], 0.0), Answer(selected, awarded)))
  }

  /** The row write of `saveQuizResponse`: the award is left to a professor. */
  function SaveQuiz(db: Db, item: Item, user: Id, text: string): Db {
    db.(quiz := Upsert(db.quiz, HasKey(QuizKey, (item.id, user)), QuizResponse(item.id, user, "", None, ""), AnswerText(text)))
  }
}
