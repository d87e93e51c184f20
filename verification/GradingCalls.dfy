/**
 Grading calls, finalized submissions and student saves as the service runs them: no
 transaction, but a find, a save of the loaded row, three sums, and a find and save of the
 total. Each of these is one step, so calls interleave freely with each other and with the
 deletions that authors make.
 */
module GradingCalls {
  import opened Common
  import opened Tables
  import opened Grading

  type RequestId = nat

  // ---------------------------------------------------------------- rows and what edits do to them

  /** The unique key of a score row. */
  datatype Slot = PsSlot(ap: Id, user: Id) | McqSlot(item: Id, user: Id) | QuizSlot(item: Id, user: Id)

  datatype Row = PsRow(ps: ProblemScore) | McqRow(mcq: McqResponse) | QuizRow(quiz: QuizResponse)

  function SlotOf(row: Row): Slot {
    match row
    case PsRow(r) => PsSlot(r.apId, r.userId)
    case McqRow(r) => McqSlot(r.itemId, r.userId)
    case QuizRow(r) => QuizSlot(r.itemId, r.userId)
  }

  function KindOf(slot: Slot): Grading.Kind {
    match slot
    case PsSlot(_, _) => Coding
    case McqSlot(_, _) => Mcq
    case QuizSlot(_, _) => Quiz
  }

  /** The points a row contributes to a total. */
  function Points(row: Row): real {
    match row
    case PsRow(r) => PsScore()(r)
    case McqRow(r) => McqScore()(r)
    case QuizRow(r) => QuizScore()(r)
  }

  /** `findOne` on the row's key. */
  function Current(db: Db, slot: Slot): Option<Row> {
    match slot
    case PsSlot(ap, user) => (match First(db.problemScores, HasKey(PsKey, (ap, user))) case None => None case Some(r) => Some(PsRow(r)))
    case McqSlot(item, user) => (match First(db.mcq, HasKey(McqKey, (item, user))) case None => None case Some(r) => Some(McqRow(r)))
    case QuizSlot(item, user) => (match First(db.quiz, HasKey(QuizKey, (item, user))) case None => None case Some(r) => Some(QuizRow(r)))
  }

  function PointsAt(db: Db, slot: Slot): real {
    match Current(db, slot)
    case None => 0.0
    case Some(row) => Points(row)
  }

  /** `save` of a whole row: over the stored one with its key, or as a new one. */
  function Save(db: Db, row: Row): Db {
    match row
    case PsRow(r) => db.(problemScores := Put(db.problemScores, PsKey, r))
    case McqRow(r) => db.(mcq := Put(db.mcq, McqKey, r))
    case QuizRow(r) => db.(quiz := Put(db.quiz, QuizKey, r))
  }

  function Blank(slot: Slot): Row {
    match slot
    case PsSlot(ap, user) => PsRow(NewProblemScore(ap, user))
    case McqSlot(item, user) => McqRow(McqResponse(item, user, [], 0.0))
    case QuizSlot(item, user) => QuizRow(QuizResponse(item, user, "", None, ""))
  }

  datatype Edit =
    | Marking(g: Grade)
    | Tracking(s: Submission)
    | Answering(selected: seq<Id>, awarded: real)
    | Writing(text: string)

  /** What a call sets on the row it has loaded. */
  function Edited(edit: Edit, row: Row): Row {
    match (edit, row)
    case (Marking(g), PsRow(r)) => PsRow(GradePs(g)(r))
    case (Marking(g), McqRow(r)) => McqRow(GradeMcq(g)(r))
    case (Marking(g), QuizRow(r)) => QuizRow(GradeQuiz(g)(r))
    case (Tracking(s), PsRow(r)) => PsRow(Track(s)(r))
    case (Answering(selected, awarded), McqRow(r)) => McqRow(Answer(selected, awarded)(r))
    case (Writing(text), QuizRow(r)) => QuizRow(AnswerText(text)(r))
    case _ => row
  }

  function ItemAt(db: Db, itemId: Id, kind: Grading.Kind): Option<Item> {
    match First(db.items, HasKey(ItemKey, itemId))
    case None => None
    case Some(item) => if item.kind == kind then Some(item) else None
  }

  /** The assignment of the problem or item a row hangs on; none once that is deleted. */
  function Parent(db: Db, slot: Slot): Option<Id> {
    match slot
    case PsSlot(ap, _) => (match First(db.problems, HasKey(ProblemKey, ap)) case None => None case Some(p) => Some(p.assignmentId))
    case McqSlot(item, _) => (match ItemAt(db, item, Mcq) case None => None case Some(i) => Some(i.assignmentId))
    case QuizSlot(item, _) => (match ItemAt(db, item, Quiz) case None => None case Some(i) => Some(i.assignmentId))
  }

  // ---------------------------------------------------------------- calls

  datatype Call =
    | Grading(itemId: Id, user: Id, grade: Grade)
    | Updating(apId: Id, user: Id, grade: Grade)
    | Finalizing(event: Finalized, professorOf: map<Id, Id>)
    | SavingMcq(itemId: Id, user: Id, selected: seq<Id>, awarded: real)
    | SavingQuiz(itemId: Id, user: Id, text: string)

  /** A call past its checks: the row it works on, what it sets, and the assignment whose total it recomputes. */
  datatype Job = Job(slot: Slot, edit: Edit, recompute: Option<Id>)

  function ResolveGrade(item: Item, user: Id, g: Grade): Option<Job> {
    if g.score > item.maxPoints then None
    else
      match item.kind
      case Coding => if Linked(item) then Some(Job(PsSlot(item.apId.value, user), Marking(g), Some(item.assignmentId))) else None
      case Mcq => Some(Job(McqSlot(item.id, user), Marking(g), Some(item.assignmentId)))
      case Quiz => Some(Job(QuizSlot(item.id, user), Marking(g), Some(item.assignmentId)))
  }

  /** The first reads of a call: the item or problem and the checks on it. */
  function Resolve(db: Db, call: Call): Option<Job> {
    match call
    case Grading(itemId, user, g) =>
      (match First(db.items, HasKey(ItemKey, itemId)) case None => None case Some(item) => ResolveGrade(item, user, g))
    case Updating(apId, user, g) =>
      (match First(db.problems, HasKey(ProblemKey, apId))
       case None => None
       case Some(p) => if g.score > p.score then None else Some(Job(PsSlot(apId, user), Marking(g), Some(p.assignmentId))))
    case Finalizing(e, professorOf) =>
      (match Tracked(db, e, professorOf)
       case None => None
       case Some((a, user)) => Some(Job(PsSlot(e.apId, user), Tracking(e.submission), Some(a))))
    case SavingMcq(itemId, user, selected, awarded) =>
      if ItemAt(db, itemId, Mcq).Some? then Some(Job(McqSlot(itemId, user), Answering(selected, awarded), None)) else None
    case SavingQuiz(itemId, user, text) =>
      if ItemAt(db, itemId, Quiz).Some? then Some(Job(QuizSlot(itemId, user), Writing(text), None)) else None
  }

  /** The total a finalized submission bears on: none for practice, an unknown problem, or the professor's own. */
  function Tracked(db: Db, e: Finalized, professorOf: map<Id, Id>): Option<(Id, Id)> {
    match First(db.problems, HasKey(ProblemKey, e.apId))
    case None => None
    case Some(ap) =>
      if e.practice || (ap.assignmentId in professorOf && professorOf[ap.assignmentId] == e.userId) then None
      else Some((ap.assignmentId, e.userId))
  }

  /** The whole call at once, as `Grading` states it: a refused call changes nothing. */
  function Atomic(db: Db, call: Call): Db {
    match call
    case Grading(itemId, user, g) => (match GradeItem(db, itemId, user, g) case Ok(d) => d case Err(_) => db)
    case Updating(apId, user, g) => (match UpdateScore(db, apId, user, g) case Ok(d) => d case Err(_) => db)
    case Finalizing(e, professorOf) => SubmissionFinalized(db, e, professorOf)
    case SavingMcq(itemId, user, selected, awarded) =>
      (match ItemAt(db, itemId, Mcq) case None => db case Some(item) => SaveMcq(db, item, user, selected, awarded))
    case SavingQuiz(itemId, user, text) =>
      (match ItemAt(db, itemId, Quiz) case None => db case Some(item) => SaveQuiz(db, item, user, text))
  }

  // ---------------------------------------------------------------- deletions

  function ItemNot(id: Id): Item -> bool { (i: Item) => i.id != id }
  function McqNotOf(id: Id): McqResponse -> bool { (r: McqResponse) => r.itemId != id }
  function QuizNotOf(id: Id): QuizResponse -> bool { (r: QuizResponse) => r.itemId != id }
  function ProblemNot(ap: Id): AssignmentProblem -> bool { (p: AssignmentProblem) => p.id != ap }
  function ItemNotWrapping(ap: Id): Item -> bool { (i: Item) => !(Linked(i) && i.apId.value == ap) }
  function ScoreNotOf(ap: Id): ProblemScore -> bool { (r: ProblemScore) => r.apId != ap }

  /** `deleteAssignmentProblem`: the wrapping item and the score rows cascade, no total is recomputed. */
  function DropProblem(db: Db, ap: Id): Db {
    db.(problems := Where(db.problems, ProblemNot(ap)), items := Where(db.items, ItemNotWrapping(ap)),
        problemScores := Where(db.problemScores, ScoreNotOf(ap)))
  }

  /** `deleteItem` of an MCQ or quiz item: its responses cascade. */
  function DropPlainItem(db: Db, id: Id): Db {
    db.(items := Where(db.items, ItemNot(id)), mcq := Where(db.mcq, McqNotOf(id)), quiz := Where(db.quiz, QuizNotOf(id)))
  }

  // ---------------------------------------------------------------- requests

  /** The three sums read so far, and the version of the student's points when the first was read. */
  datatype Sums = Sums(since: nat, coding: Option<real>, mcq: Option<real>, quiz: Option<real>)

  datatype Phase =
    | Finding(job: Job)
    | Inserting(job: Job)
    | Holding(job: Job, row: Row, stored: bool)
    | Summing(a: Id, user: Id, sums: Option<Sums>)
    | FindingTotal(a: Id, user: Id, since: nat, total: real)
    | InsertingTotal(a: Id, user: Id, since: nat, total: real)
    | HoldingTotal(a: Id, user: Id, since: nat, total: real, held: AssignmentScore)
    | Done
    | Failed

  /**
   `writes` and `drops` count the changes to the points of a student and of an assignment, and
   `basis` says at which count the stored total was summed. They are bookkeeping: no step
   decides anything by them.
   */
  datatype World = World(
    db: Db, requests: map<RequestId, Phase>,
    writes: map<(Id, Id), nat>, drops: map<Id, nat>, basis: map<(Id, Id), nat>)

  function Version(w: World, a: Id, user: Id): nat {
    (if (a, user) in w.writes then w.writes[(a, user)] else 0) + (if a in w.drops then w.drops[a] else 0)
  }

  datatype Step =
    | Begin(req: RequestId, call: Call)
    | Advance(req: RequestId)
    | ReadSum(req: RequestId, kind: Grading.Kind)
    | DeleteItem(id: Id)
    | DeleteProblem(ap: Id)

  function Goes(w: World, req: RequestId, phase: Phase): World {
    w.(requests := w.requests[req := phase])
  }

  function StepFind(w: World, req: RequestId, job: Job): World {
    match Current(w.db, job.slot)
    case Some(row) => Goes(w, req, Holding(job, row, true))
    case None =>
      if job.slot.PsSlot? then Goes(w, req, Inserting(job))
      else if job.slot.McqSlot? && job.edit.Marking? then Goes(w, req, Failed)
      else Goes(w, req, Holding(job, Blank(job.slot), false))
  }

  /** The insert half of `getOrCreateProblemScore`; a unique or foreign-key violation fails the call. */
  function StepInsert(w: World, req: RequestId, job: Job): World {
    if Current(w.db, job.slot).Some? || Parent(w.db, job.slot).None? then Goes(w, req, Failed)
    else Goes(w.(db := Save(w.db, Blank(job.slot))), req, Holding(job, Blank(job.slot), true))
  }

  /** One more change to the student's points, if they did change. */
  function Noted(w: World, a: Id, user: Id, moved: bool): World {
    if moved then w.(writes := w.writes[(a, user) := (if (a, user) in w.writes then w.writes[(a, user)] else 0) + 1]) else w
  }

  function StepSave(w: World, req: RequestId, p: Phase): World
    requires p.Holding?
  {
    var row := Edited(p.job.edit, p.row);
    match Parent(w.db, p.job.slot)
    case None => Goes(w, req, Failed)
    case Some(a) =>
      if !p.stored && Current(w.db, p.job.slot).Some? then Goes(w, req, Failed)
      else
        var next := match p.job.recompute case None => Done case Some(b) => Summing(b, p.job.slot.user, None);
        Goes(Noted(w, a, p.job.slot.user, Points(row) != PointsAt(w.db, p.job.slot)).(db := Save(w.db, row)), req, next)
  }

  function SumOf(db: Db, kind: Grading.Kind, a: Id, user: Id): real {
    match kind
    case Coding => SumWhere(db.problemScores, CodingRows(db.problems, a, user), PsScore())
    case Mcq => SumWhere(db.mcq, McqRows(db.items, a, user), McqScore())
    case Quiz => SumWhere(db.quiz, QuizRows(db.items, a, user), QuizScore())
  }

  function WithSum(s: Sums, kind: Grading.Kind, v: real): Sums {
    match kind
    case Coding => s.(coding := Some(v))
    case Mcq => s.(mcq := Some(v))
    case Quiz => s.(quiz := Some(v))
  }

  /** One of the three queries that run side by side. */
  function StepReadSum(w: World, req: RequestId, kind: Grading.Kind): World {
    if req in w.requests && w.requests[req].Summing? then
      var p := w.requests[req];
      var s := if p.sums.Some? then p.sums.value else Sums(Version(w, p.a, p.user), None, None, None);
      Goes(w, req, p.(sums := Some(WithSum(s, kind, SumOf(w.db, kind, p.a, p.user)))))
    else w
  }

  function StepSummed(w: World, req: RequestId, p: Phase): World
    requires p.Summing?
  {
    match p.sums
    case Some(Sums(since, Some(c), Some(m), Some(q))) => Goes(w, req, FindingTotal(p.a, p.user, since, c + m + q))
    case _ => w
  }

  function StepFindTotal(w: World, req: RequestId, p: Phase): World
    requires p.FindingTotal?
  {
    match First(w.db.totals, HasKey(TotalKey, (p.a, p.user)))
    case Some(r) => Goes(w, req, HoldingTotal(p.a, p.user, p.since, p.total, r))
    case None => Goes(w, req, InsertingTotal(p.a, p.user, p.since, p.total))
  }

  function StepInsertTotal(w: World, req: RequestId, p: Phase): World
    requires p.InsertingTotal?
  {
    var blank := AssignmentScore(p.a, p.user, 0.0, "");
    if First(w.db.totals, HasKey(TotalKey, (p.a, p.user))).Some? then Goes(w, req, Failed)
    else
      Goes(w.(db := w.db.(totals := Put(w.db.totals, TotalKey, blank)), basis := w.basis - {(p.a, p.user)}), req,
           HoldingTotal(p.a, p.user, p.since, p.total, blank))
  }

  function StepSaveTotal(w: World, req: RequestId, p: Phase): World
    requires p.HoldingTotal?
  {
    Goes(w.(db := w.db.(totals := Put(w.db.totals, TotalKey, p.held.(finalScore := p.total))),
            basis := w.basis[(p.a, p.user) := p.since]), req, Done)
  }

  function StepAdvance(w: World, req: RequestId): World {
    if req !in w.requests then w
    else
      var p := w.requests[req];
      match p
      case Finding(job) => StepFind(w, req, job)
      case Inserting(job) => StepInsert(w, req, job)
      case Holding(_, _, _) => StepSave(w, req, p)
      case Summing(_, _, _) => StepSummed(w, req, p)
      case FindingTotal(_, _, _, _) => StepFindTotal(w, req, p)
      case InsertingTotal(_, _, _, _) => StepInsertTotal(w, req, p)
      case HoldingTotal(_, _, _, _, _) => StepSaveTotal(w, req, p)
      case _ => w
  }

  function Dropped(w: World, a: Id, db: Db): World {
    w.(db := db, drops := w.drops[a := (if a in w.drops then w.drops[a] else 0) + 1])
  }

  function StepDeleteProblem(w: World, ap: Id): World {
    match First(w.db.problems, HasKey(ProblemKey, ap))
    case None => w
    case Some(p) => Dropped(w, p.assignmentId, DropProblem(w.db, ap))
  }

  /** A coding item is deleted by way of its problem. */
  function StepDeleteItem(w: World, id: Id): World {
    match First(w.db.items, HasKey(ItemKey, id))
    case None => w
    case Some(item) =>
      if Linked(item) then StepDeleteProblem(w, item.apId.value)
      else if item.kind == Coding then w.(db := w.db.(items := Where(w.db.items, ItemNot(id))))
      else Dropped(w, item.assignmentId, DropPlainItem(w.db, id))
  }

  function Apply(w: World, step: Step): World {
    match step
    case Begin(req, call) =>
      if req in w.requests then w
      else Goes(w, req, match Resolve(w.db, call) case None => Failed case Some(job) => Finding(job))
    case Advance(req) => StepAdvance(w, req)
    case ReadSum(req, kind) => StepReadSum(w, req, kind)
    case DeleteItem(id) => StepDeleteItem(w, id)
    case DeleteProblem(ap) => StepDeleteProblem(w, ap)
  }

  function Run(w: World, steps: seq<Step>): World
    decreases |steps|
  {
    if steps == [] then w else Run(Apply(w, steps[0]), steps[1..])
  }
}
