/**
 Taking an assignment: attempts with a server deadline, answer saves behind a gate, manual
 and automatic submission. Every request is split between its reads and its writes, so any
 interleaving of any number of requests, sweeps and staff edits is one sequence of steps.
 Times are milliseconds.
 */
module Attempts {
  import opened Common
  import opened Schedule
  import opened Tables

  type Id = string
  type RequestId = nat

  /** `duration` is in minutes. */
  datatype Assignment = Assignment(kind: Kind, status: Status, start: int, end: int, duration: Option<nat>)

  datatype AttemptStatus = InProgress | Submitted | AutoSubmitted

  datatype Attempt = Attempt(
    assignmentId: Id, userId: Id, startedAt: int, deadline: int, status: AttemptStatus, submittedAt: Option<int>)

  /** Attempts are never deleted, so a row's place is its identity. `itemOf` gives each item's assignment. */
  datatype Db = Db(
    now: int, assignments: map<Id, Assignment>, attempts: seq<Attempt>, itemOf: map<Id, Id>,
    answers: map<(Id, Id), string>)

  function AttemptKey(r: Attempt): (Id, Id) { (r.assignmentId, r.userId) }

  /** `findOne({ where: { assignmentId, userId } })`. */
  function FindAttempt(db: Db, a: Id, user: Id): Option<nat> {
    IndexOf(db.attempts, HasKey(AttemptKey, (a, user)))
  }

  /** The unique constraint on (assignment, user). */
  ghost predicate OneAttemptEach(db: Db) {
    UniqueKey(db.attempts, AttemptKey)
  }

  /** `findOne` on an assignment: the stored row after its time transition. */
  function Refreshed(db: Db, a: Id): Option<Assignment> {
    if a !in db.assignments then None
    else
      var r := db.assignments[a];
      Some(r.(status := Refresh(r.status, r.start, r.end, db.now)))
  }

  /** What that read writes back. */
  function Persisted(db: Db, a: Id): Db {
    match Refreshed(db, a)
    case None => db
    case Some(r) => db.(assignments := db.assignments[a := r])
  }

  const MINUTE := 60_000

  /** The deadline `startAttempt` gives. */
  function StartDeadline(r: Assignment, startedAt: int): int {
    if r.kind == Test && r.duration.Some? && r.duration.value != 0 then startedAt + r.duration.value * MINUTE else r.end
  }

  /** The deadline `assertTestAttemptOpen` gives. */
  function GateDeadline(r: Assignment, startedAt: int): int {
    var byClock := startedAt + (if r.duration.Some? then r.duration.value else 0) * MINUTE;
    if byClock <= r.end then byClock else r.end
  }

  /** An insert under the unique constraint: `None` is a unique violation. */
  function Insert(db: Db, a: Id, user: Id, startedAt: int, deadline: int): Option<Db> {
    if FindAttempt(db, a, user).Some? then None
    else Some(db.(attempts := db.attempts + [Attempt(a, user, startedAt, deadline, InProgress, None)]))
  }

  /** Saving a loaded attempt with a closed status. */
  function Close(db: Db, i: nat, status: AttemptStatus): Db {
    if i < |db.attempts|
    then db.(attempts := db.attempts[i := db.attempts[i].(status := status, submittedAt := Some(db.now))])
    else db
  }

  function SweepRow(r: Attempt, now: int): Attempt {
    if r.status == InProgress && r.deadline <= now then r.(status := AutoSubmitted, submittedAt := Some(now)) else r
  }

  /** `finalizeExpiredAttempts`. */
  function Sweep(db: Db): Db {
    db.(attempts := seq(|db.attempts|, i requires 0 <= i < |db.attempts| => SweepRow(db.attempts[i], db.now)))
  }

  /** `assertActive` then `assertWithinDeadline`, for an assignment already read. */
  predicate MaySave(db: Db, a: Id, r: Assignment, user: Id) {
    r.status == Active
    && (r.kind == Test ==>
          var i := FindAttempt(db, a, user);
          i.Some? && db.attempts[i.value].status == InProgress && db.now <= db.attempts[i.value].deadline)
  }

  // ---------------------------------------------------------------- requests

  datatype Request =
    | Start(a: Id, user: Id)
    | Save(item: Id, user: Id, answer: string)
    | Submit(a: Id, user: Id)
    | Gate(a: Id, user: Id)

  /** Where a request stands between its database calls, then what it answered. */
  datatype Phase =
    | Arrived(request: Request)
    | Inserting(a: Id, user: Id, startedAt: int, deadline: int, gate: bool)
    | Judging(a: Id, user: Id, i: nat)
    | Closing(a: Id, user: Id, i: nat)
    | Checked(item: Id, user: Id, answer: string)
    | Writing(item: Id, user: Id, answer: string, existed: bool)
    | Submitting(a: Id, user: Id, i: nat)
    | Started(a: Id, user: Id, i: nat)
    | Saved
    | Closed(a: Id, user: Id, i: nat)
    | Admitted(a: Id, user: Id, i: nat, at: int)
    | Ungated
    | Refused

  datatype World = World(db: Db, requests: map<RequestId, Phase>)

  datatype Step =
    | Tick(ms: nat)
    | Arrive(req: RequestId, request: Request)
    | Advance(req: RequestId)
    | RunSweep
    | Edit(a: Id, row: Assignment)

  function Goes(w: World, db: Db, req: RequestId, phase: Phase): World {
    World(db, w.requests[req := phase])
  }

  /** `startAttempt` up to its insert. */
  function StepStart(w: World, req: RequestId, a: Id, user: Id): World {
    var db := Persisted(w.db, a);
    match Refreshed(w.db, a)
    case None => Goes(w, w.db, req, Refused)
    case Some(r) =>
      if r.status != Active then Goes(w, db, req, Refused)
      else
        match FindAttempt(db, a, user)
        case Some(i) => Goes(w, db, req, Started(a, user, i))
        case None => Goes(w, db, req, Inserting(a, user, db.now, StartDeadline(r, db.now), false))
  }

  /** `assertTestAttemptOpen` up to its insert; staff calls never get here. */
  function StepGate(w: World, req: RequestId, a: Id, user: Id): World {
    var db := Persisted(w.db, a);
    match Refreshed(w.db, a)
    case None => Goes(w, w.db, req, Refused)
    case Some(r) =>
      if r.status != Active then Goes(w, db, req, Refused)
      else if r.kind != Test then Goes(w, db, req, Ungated)
      else
        match FindAttempt(db, a, user)
        case Some(i) => Goes(w, db, req, Judging(a, user, i))
        case None => Goes(w, db, req, Inserting(a, user, db.now, GateDeadline(r, db.now), true))
  }

  /** The insert, or the row of whoever inserted first. */
  function StepInsert(w: World, req: RequestId, p: Phase): World
    requires p.Inserting?
  {
    var i := match FindAttempt(w.db, p.a, p.user) case Some(k) => k case None => |w.db.attempts|;
    var db := match Insert(w.db, p.a, p.user, p.startedAt, p.deadline) case Some(d) => d case None => w.db;
    Goes(w, db, req, if p.gate then Judging(p.a, p.user, i) else Started(p.a, p.user, i))
  }

  function StepJudge(w: World, req: RequestId, a: Id, user: Id, i: nat): World {
    if i >= |w.db.attempts| || w.db.attempts[i].status != InProgress then Goes(w, w.db, req, Refused)
    else if w.db.now > w.db.attempts[i].deadline then Goes(w, w.db, req, Closing(a, user, i))
    else Goes(w, w.db, req, Admitted(a, user, i, w.db.now))
  }

  /** The checks of a save. */
  function StepSave(w: World, req: RequestId, item: Id, user: Id, answer: string): World {
    if item !in w.db.itemOf then Goes(w, w.db, req, Refused)
    else
      var a := w.db.itemOf[item];
      var db := Persisted(w.db, a);
      match Refreshed(w.db, a)
      case None => Goes(w, w.db, req, Refused)
      case Some(r) => Goes(w, db, req, if MaySave(db, a, r, user) then Checked(item, user, answer) else Refused)
  }

  /** The update, or the insert under the unique (item, user) constraint. */
  function StepWrite(w: World, req: RequestId, p: Phase): World
    requires p.Writing?
  {
    if !p.existed && (p.item, p.user) in w.db.answers then Goes(w, w.db, req, Refused)
    else Goes(w, w.db.(answers := w.db.answers[(p.item, p.user) := p.answer]), req, Saved)
  }

  /** The reads of `submitAttempt`. */
  function StepSubmit(w: World, req: RequestId, a: Id, user: Id): World {
    var db := Persisted(w.db, a);
    if Refreshed(w.db, a).None? then Goes(w, w.db, req, Refused)
    else
      match FindAttempt(db, a, user)
      case None => Goes(w, db, req, Refused)
      case Some(i) => Goes(w, db, req, if db.attempts[i].status == InProgress then Submitting(a, user, i) else Closed(a, user, i))
  }

  function StepArrived(w: World, req: RequestId, request: Request): World {
    match request
    case Start(a, user) => StepStart(w, req, a, user)
    case Gate(a, user) => StepGate(w, req, a, user)
    case Save(item, user, answer) => StepSave(w, req, item, user, answer)
    case Submit(a, user) => StepSubmit(w, req, a, user)
  }

  function StepAdvance(w: World, req: RequestId): World {
    if req !in w.requests then w
    else
      var p := w.requests[req];
      match p
      case Arrived(request) => StepArrived(w, req, request)
      case Inserting(_, _, _, _, _) => StepInsert(w, req, p)
      case Judging(a, user, i) => StepJudge(w, req, a, user, i)
      case Closing(_, _, i) => Goes(w, Close(w.db, i, AutoSubmitted), req, Refused)
      case Checked(item, user, answer) => Goes(w, w.db, req, Writing(item, user, answer, (item, user) in w.db.answers))
      case Writing(_, _, _, _) => StepWrite(w, req, p)
      case Submitting(a, user, i) => Goes(w, Close(w.db, i, Submitted), req, Closed(a, user, i))
      case _ => w
  }

  function Apply(w: World, step: Step): World {
    match step
    case Tick(ms) => w.(db := w.db.(now := w.db.now + ms))
    case Arrive(req, request) => if req in w.requests then w else Goes(w, w.db, req, Arrived(request))
    case Advance(req) => StepAdvance(w, req)
    case RunSweep => w.(db := Sweep(w.db))
    case Edit(a, row) => w.(db := w.db.(assignments := w.db.assignments[a := row]))
  }

  function Run(w: World, steps: seq<Step>): World
    decreases |steps|
  {
    if steps == [] then w else Run(Apply(w, steps[0]), steps[1..])
  }
}
