/** What holds of attempts, deadlines and answers over every run. */
module AttemptRuns {
  import opened Common
  import opened Schedule
  import opened Tables
  import opened Attempts

  /** The same sitting later on: nothing but its end can have happened to it. */
  predicate Continues(r: Attempt, s: Attempt) {
    && AttemptKey(r) == AttemptKey(s) && r.startedAt == s.startedAt && r.deadline == s.deadline
    && (r.status != InProgress ==> s.status != InProgress)
  }

  ghost predicate Evolves(x: Db, y: Db) {
    && x.now <= y.now && |x.attempts| <= |y.attempts| && x.itemOf == y.itemOf
    && (forall i :: 0 <= i < |x.attempts| ==> Continues(x.attempts[i], y.attempts[i]))
  }

  predicate Names(db: Db, a: Id, user: Id, i: nat) {
    i < |db.attempts| && AttemptKey(db.attempts[i]) == (a, user)
  }

  /** What a request knows about the attempt it named. */
  predicate PhaseSound(db: Db, p: Phase) {
    match p
    case Judging(a, user, i) => Names(db, a, user, i)
    case Closing(a, user, i) => Names(db, a, user, i)
    case Submitting(a, user, i) => Names(db, a, user, i)
    case Started(a, user, i) => Names(db, a, user, i)
    case Closed(a, user, i) => Names(db, a, user, i) && db.attempts[i].status != InProgress
    case Admitted(a, user, i, at) => Names(db, a, user, i) && at <= db.attempts[i].deadline
    case _ => true
  }

  ghost predicate Sound(w: World) {
    OneAttemptEach(w.db) && forall req :: req in w.requests ==> PhaseSound(w.db, w.requests[req])
  }

  lemma PhaseSoundLater(x: Db, y: Db, p: Phase)
    requires Evolves(x, y) && PhaseSound(x, p)
    ensures PhaseSound(y, p)
  {
  }

  lemma EvolvesTwice(x: Db, y: Db, z: Db)
    requires Evolves(x, y) && Evolves(y, z)
    ensures Evolves(x, z)
  {
    forall i | 0 <= i < |x.attempts| ensures Continues(x.attempts[i], z.attempts[i]) {
      assert Continues(x.attempts[i], y.attempts[i]);
    }
  }

  lemma FindNames(db: Db, a: Id, user: Id)
    ensures FindAttempt(db, a, user).Some? ==> Names(db, a, user, FindAttempt(db, a, user).value)
    ensures FindAttempt(db, a, user).None? ==> forall i :: 0 <= i < |db.attempts| ==> !Names(db, a, user, i)
  {
    if FindAttempt(db, a, user).Some? {
      assert HasKey(AttemptKey, (a, user))(db.attempts[FindAttempt(db, a, user).value]);
    } else {
      forall i | 0 <= i < |db.attempts| ensures !Names(db, a, user, i) {
        assert db.attempts[i] in db.attempts;
      }
    }
  }

  lemma CloseEvolves(db: Db, i: nat, status: AttemptStatus)
    requires OneAttemptEach(db) && status != InProgress
    ensures Evolves(db, Close(db, i, status)) && OneAttemptEach(Close(db, i, status))
  {
    var after := Close(db, i, status);
    forall j | 0 <= j < |db.attempts| ensures AttemptKey(after.attempts[j]) == AttemptKey(db.attempts[j]) {
    }
  }

  lemma InsertEvolves(db: Db, a: Id, user: Id, startedAt: int, deadline: int)
    requires OneAttemptEach(db) && Insert(db, a, user, startedAt, deadline).Some?
    ensures var d := Insert(db, a, user, startedAt, deadline).value;
            Evolves(db, d) && OneAttemptEach(d) && Names(d, a, user, |db.attempts|)
  {
    FindNames(db, a, user);
    var d := Insert(db, a, user, startedAt, deadline).value;
    forall i, j | 0 <= i < |d.attempts| && 0 <= j < |d.attempts| && AttemptKey(d.attempts[i]) == AttemptKey(d.attempts[j]) ensures i == j {
      assert i < |db.attempts| ==> AttemptKey(db.attempts[i]) == AttemptKey(d.attempts[i]) && !Names(db, a, user, i);
      assert j < |db.attempts| ==> AttemptKey(db.attempts[j]) == AttemptKey(d.attempts[j]) && !Names(db, a, user, j);
    }
  }

  lemma SweepEvolves(db: Db)
    requires OneAttemptEach(db)
    ensures Evolves(db, Sweep(db)) && OneAttemptEach(Sweep(db))
  {
    forall j | 0 <= j < |db.attempts| ensures AttemptKey(Sweep(db).attempts[j]) == AttemptKey(db.attempts[j]) {
    }
  }

  /** A sweep leaves nothing open whose deadline has come. */
  lemma SweepLeavesNoneExpired(db: Db, i: nat)
    requires i < |db.attempts|
    ensures Sweep(db).attempts[i].status == InProgress <==> db.attempts[i].status == InProgress && db.now < db.attempts[i].deadline
    ensures db.attempts[i].status != InProgress || db.now < db.attempts[i].deadline ==> Sweep(db).attempts[i] == db.attempts[i]
  {
  }

  /** A step of one request leaves a database that evolved and a request that knows what it says it knows. */
  ghost predicate GoodStep(w: World, after: World, req: RequestId) {
    && Evolves(w.db, after.db) && OneAttemptEach(after.db)
    && req in after.requests && PhaseSound(after.db, after.requests[req])
    && (forall other :: other != req ==> (other in after.requests <==> other in w.requests))
    && (forall other :: other != req && other in w.requests ==> after.requests[other] == w.requests[other])
  }

  /** Reading an assignment saves its status and touches nothing else. */
  lemma PersistedKeeps(db: Db, a: Id)
    ensures var d := Persisted(db, a);
            d.attempts == db.attempts && d.now == db.now && d.itemOf == db.itemOf && d.answers == db.answers
  {
  }

  /** A step that leaves the attempts alone is good when the request's new phase is. */
  lemma QuietStep(w: World, req: RequestId, db: Db, p: Phase)
    requires Sound(w) && req in w.requests
    requires db.attempts == w.db.attempts && db.now == w.db.now && db.itemOf == w.db.itemOf && PhaseSound(w.db, p)
    ensures GoodStep(w, Goes(w, db, req, p), req)
  {
  }

  lemma ArrivedStep(w: World, req: RequestId, request: Request)
    requires Sound(w) && req in w.requests
    ensures GoodStep(w, StepArrived(w, req, request), req)
  {
    hide UniqueKey, IndexOf, Persisted, GoodStep, Sound, MaySave, Evolves;
    match request
    case Start(a, user) => PersistedKeeps(w.db, a); FindNames(Persisted(w.db, a), a, user); QuietArrival(w, req, request);
    case Gate(a, user) => PersistedKeeps(w.db, a); FindNames(Persisted(w.db, a), a, user); QuietArrival(w, req, request);
    case Submit(a, user) => PersistedKeeps(w.db, a); FindNames(Persisted(w.db, a), a, user); QuietArrival(w, req, request);
    case Save(item, _, _) =>
      if item in w.db.itemOf {
        PersistedKeeps(w.db, w.db.itemOf[item]);
      }
      QuietArrival(w, req, request);
  }

  lemma QuietArrival(w: World, req: RequestId, request: Request)
    requires Sound(w) && req in w.requests
    requires var after := StepArrived(w, req, request);
             && after.db.attempts == w.db.attempts && after.db.now == w.db.now && after.db.itemOf == w.db.itemOf
             && after.requests == w.requests[req := after.requests[req]] && PhaseSound(w.db, after.requests[req])
    ensures GoodStep(w, StepArrived(w, req, request), req)
  {
    hide StepArrived;
    var after := StepArrived(w, req, request);
    QuietStep(w, req, after.db, after.requests[req]);
  }

  lemma InsertStep(w: World, req: RequestId, p: Phase)
    requires Sound(w) && req in w.requests && p.Inserting?
    ensures GoodStep(w, StepInsert(w, req, p), req)
  {
    hide UniqueKey, IndexOf;
    FindNames(w.db, p.a, p.user);
    if Insert(w.db, p.a, p.user, p.startedAt, p.deadline).Some? {
      InsertEvolves(w.db, p.a, p.user, p.startedAt, p.deadline);
    }
  }

  lemma CloseStep(w: World, req: RequestId, a: Id, user: Id, i: nat, status: AttemptStatus, p: Phase)
    requires Sound(w) && req in w.requests && Names(w.db, a, user, i) && status != InProgress
    requires p == Refused || p == Closed(a, user, i)
    ensures GoodStep(w, Goes(w, Close(w.db, i, status), req, p), req)
  {
    CloseEvolves(w.db, i, status);
  }

  lemma AdvanceEvolves(w: World, req: RequestId)
    requires Sound(w) && req in w.requests
    ensures GoodStep(w, StepAdvance(w, req), req)
  {
    hide UniqueKey, IndexOf, StepArrived, StepInsert, Close;
    var p := w.requests[req];
    match p
    case Arrived(request) => ArrivedStep(w, req, request);
    case Inserting(_, _, _, _, _) => InsertStep(w, req, p);
    case Closing(a, user, i) => CloseStep(w, req, a, user, i, AutoSubmitted, Refused);
    case Submitting(a, user, i) => CloseStep(w, req, a, user, i, Submitted, Closed(a, user, i));
    case _ =>
  }

  lemma StepStaysSound(w: World, step: Step)
    requires Sound(w)
    ensures Sound(Apply(w, step)) && Evolves(w.db, Apply(w, step).db)
  {
    hide UniqueKey;
    var after := Apply(w, step);
    match step
    case Advance(req) =>
      if req in w.requests {
        AdvanceStaysSound(w, req);
      }
    case RunSweep =>
      SweepEvolves(w.db);
      forall req | req in w.requests ensures PhaseSound(after.db, w.requests[req]) {
        PhaseSoundLater(w.db, after.db, w.requests[req]);
      }
    case _ =>
  }

  lemma AdvanceStaysSound(w: World, req: RequestId)
    requires Sound(w) && req in w.requests
    ensures Sound(StepAdvance(w, req)) && Evolves(w.db, StepAdvance(w, req).db)
  {
    hide UniqueKey, StepAdvance;
    AdvanceEvolves(w, req);
    var after := StepAdvance(w, req);
    forall other | other in after.requests ensures PhaseSound(after.db, after.requests[other]) {
      if other != req {
        PhaseSoundLater(w.db, after.db, w.requests[other]);
      }
    }
  }

  /** Over any run: attempts keep their owner, start and deadline, and never reopen. */
  lemma {:induction false} AttemptsOnlyEnd(w: World, steps: seq<Step>)
    requires Sound(w)
    ensures Sound(Run(w, steps)) && Evolves(w.db, Run(w, steps).db)
    decreases |steps|
  {
    if steps != [] {
      var next := Apply(w, steps[0]);
      StepStaysSound(w, steps[0]);
      AttemptsOnlyEnd(next, steps[1..]);
      EvolvesTwice(w.db, next.db, Run(w, steps).db);
    } else {
      assert Run(w, steps) == w;
    }
  }

  /** Answered with an attempt: started, admitted to submit code, or refused as over. */
  predicate HasAttempt(p: Phase) {
    p.Started? || p.Admitted? || p.Closed?
  }

  /** Racing starts and gates of one student on one assignment, in any mix, are all answered the same, single attempt. */
  lemma RacingStartsAgree(w: World, steps: seq<Step>, x: RequestId, y: RequestId)
    requires Sound(w)
    requires var after := Run(w, steps).requests;
             x in after && y in after && HasAttempt(after[x]) && HasAttempt(after[y])
             && after[x].a == after[y].a && after[x].user == after[y].user
    ensures var after := Run(w, steps);
            after.requests[x].i == after.requests[y].i
            && forall i :: Names(after.db, after.requests[x].a, after.requests[x].user, i) ==> i == after.requests[x].i
  {
    AttemptsOnlyEnd(w, steps);
    var after := Run(w, steps);
    assert PhaseSound(after.db, after.requests[x]) && PhaseSound(after.db, after.requests[y]);
  }

  /** A code submission is let through only by its deadline. */
  lemma AdmittedInTime(w: World, steps: seq<Step>, req: RequestId)
    requires Sound(w)
    requires req in Run(w, steps).requests && Run(w, steps).requests[req].Admitted?
    ensures var p := Run(w, steps).requests[req]; Names(Run(w, steps).db, p.a, p.user, p.i) && p.at <= Run(w, steps).db.attempts[p.i].deadline
  {
    AttemptsOnlyEnd(w, steps);
    assert PhaseSound(Run(w, steps).db, Run(w, steps).requests[req]);
  }

  /** The two ways to start a test give the same deadline exactly when its clock runs out by the assignment's end. */
  lemma DeadlinesAgreeExactlyWhen(r: Assignment, startedAt: int)
    requires r.kind == Test
    ensures StartDeadline(r, startedAt) == GateDeadline(r, startedAt)
       <==> if r.duration.Some? && r.duration.value > 0 then startedAt + r.duration.value * MINUTE <= r.end else r.end <= startedAt
    ensures GateDeadline(r, startedAt) <= r.end && GateDeadline(r, startedAt) <= StartDeadline(r, startedAt)
  {
  }

  /** An open attempt is both still writable and already sweepable exactly in the millisecond of its deadline. */
  lemma GateAndSweepOverlapExactlyAtTheDeadline(db: Db, a: Id, r: Assignment, user: Id, i: nat)
    requires OneAttemptEach(db) && Names(db, a, user, i) && r.kind == Test && r.status == Active
    ensures MaySave(db, a, r, user) && Sweep(db).attempts[i].status != InProgress
       <==> db.attempts[i].status == InProgress && db.now == db.attempts[i].deadline
  {
    FindNames(db, a, user);
  }

  // ---------------------------------------------------------------- answers freeze

  /** The student's test is over: handed in, swept, or past its deadline. */
  predicate Over(db: Db, a: Id, user: Id) {
    a in db.assignments && db.assignments[a].kind == Test
    && exists i :: 0 <= i < |db.attempts| && Names(db, a, user, i) && (db.attempts[i].status != InProgress || db.now > db.attempts[i].deadline)
  }

  predicate OnPaper(db: Db, item: Id, a: Id) {
    item in db.itemOf && db.itemOf[item] == a
  }

  predicate Holds(db: Db, item: Id, user: Id, answer: string) {
    (item, user) in db.answers && db.answers[(item, user)] == answer
  }

  /** A save of this student on this assignment that is past its check and would still change an answer. */
  predicate Pending(db: Db, p: Phase, a: Id, user: Id) {
    match p
    case Checked(item, u, answer) => u == user && OnPaper(db, item, a) && !Holds(db, item, user, answer)
    case Writing(item, u, answer, existed) =>
      u == user && OnPaper(db, item, a) && !Holds(db, item, user, answer) && (existed || (item, user) !in db.answers)
    case _ => false
  }

  predicate NonePending(w: World, a: Id, user: Id) {
    forall req :: req in w.requests ==> !Pending(w.db, w.requests[req], a, user)
  }

  /** The student's answers on the assignment are the same in both databases. */
  ghost predicate SameAnswers(x: Db, y: Db, a: Id, user: Id) {
    && x.itemOf == y.itemOf
    && forall item, answer :: OnPaper(x, item, a) ==> (Holds(x, item, user, answer) <==> Holds(y, item, user, answer))
  }

  /** The run never turns the test into a plain assignment. */
  predicate StaysTest(steps: seq<Step>, a: Id) {
    forall k :: 0 <= k < |steps| && steps[k].Edit? && steps[k].a == a ==> steps[k].row.kind == Test
  }

  /** Only a staff edit changes what kind of assignment it is. */
  lemma KindKept(w: World, step: Step, a: Id)
    requires a in w.db.assignments && w.db.assignments[a].kind == Test && StaysTest([step], a)
    ensures a in Apply(w, step).db.assignments && Apply(w, step).db.assignments[a].kind == Test
  {
    hide IndexOf, MaySave;
    assert [step][0] == step;
  }

  lemma OverStaysOver(w: World, step: Step, a: Id, user: Id)
    requires Sound(w) && Over(w.db, a, user) && StaysTest([step], a)
    ensures Over(Apply(w, step).db, a, user)
  {
    hide UniqueKey, Apply, Sound;
    KindKept(w, step, a);
    StepStaysSound(w, step);
    var i :| 0 <= i < |w.db.attempts| && Names(w.db, a, user, i) && (w.db.attempts[i].status != InProgress || w.db.now > w.db.attempts[i].deadline);
    assert Continues(w.db.attempts[i], Apply(w, step).db.attempts[i]);
    assert Names(Apply(w, step).db, a, user, i);
  }

  /** No save gets past the gate once the test is over. */
  lemma OverRefusesSaves(db: Db, a: Id, user: Id)
    requires OneAttemptEach(db) && Over(db, a, user)
    ensures Refreshed(db, a).Some? && !MaySave(Persisted(db, a), a, Refreshed(db, a).value, user)
  {
    FindNames(db, a, user);
  }

  /** The same answers, and still no pending save: what a step of a finished test must leave. */
  ghost predicate Quiet(w: World, after: World, a: Id, user: Id) {
    SameAnswers(w.db, after.db, a, user) && NonePending(after, a, user)
  }

  /** A step that writes no answer is quiet when the stepping request is not left with a pending save. */
  lemma QuietWithoutWrite(w: World, after: World, req: RequestId, a: Id, user: Id)
    requires NonePending(w, a, user)
    requires after.db.itemOf == w.db.itemOf && after.db.answers == w.db.answers
    requires forall other :: other in after.requests && other != req ==> other in w.requests && after.requests[other] == w.requests[other]
    requires req in after.requests ==> !Pending(after.db, after.requests[req], a, user)
    ensures Quiet(w, after, a, user)
  {
    forall other | other in after.requests && other != req ensures !Pending(after.db, after.requests[other], a, user) {
      assert !Pending(w.db, w.requests[other], a, user);
    }
  }

  /** A save arriving once the test is over is refused. */
  lemma SaveRefusedOnceOver(w: World, req: RequestId, item: Id, u: Id, answer: string, a: Id, user: Id)
    requires OneAttemptEach(w.db) && Over(w.db, a, user)
    ensures u == user && OnPaper(w.db, item, a) ==> StepSave(w, req, item, u, answer).requests == w.requests[req := Refused]
  {
    hide Over, MaySave;
    OverRefusesSaves(w.db, a, user);
  }

  lemma SaveArrivalIsQuiet(w: World, req: RequestId, item: Id, u: Id, answer: string, a: Id, user: Id)
    requires OneAttemptEach(w.db) && Over(w.db, a, user) && NonePending(w, a, user) && req in w.requests
    ensures Quiet(w, StepSave(w, req, item, u, answer), a, user)
  {
    hide UniqueKey, IndexOf, Over, Quiet, NonePending, MaySave, FindAttempt, Refreshed;
    SaveRefusedOnceOver(w, req, item, u, answer, a, user);
    QuietWithoutWrite(w, StepSave(w, req, item, u, answer), req, a, user);
  }

  lemma ArrivalIsQuiet(w: World, req: RequestId, request: Request, a: Id, user: Id)
    requires OneAttemptEach(w.db) && Over(w.db, a, user) && NonePending(w, a, user) && req in w.requests
    ensures Quiet(w, StepArrived(w, req, request), a, user)
  {
    hide UniqueKey, IndexOf, Over, Quiet, NonePending, StepSave, FindAttempt, Refreshed, StartDeadline, GateDeadline;
    match request
    case Save(item, u, answer) => SaveArrivalIsQuiet(w, req, item, u, answer, a, user);
    case _ => QuietWithoutWrite(w, StepArrived(w, req, request), req, a, user);
  }

  /** Writing an answer the student already has, or another student's or paper's, changes nothing here. */
  lemma WriteIsQuiet(w: World, req: RequestId, p: Phase, a: Id, user: Id)
    requires NonePending(w, a, user) && req in w.requests && w.requests[req] == p && p.Writing?
    ensures Quiet(w, StepWrite(w, req, p), a, user)
  {
    assert !Pending(w.db, p, a, user);
    var after := StepWrite(w, req, p);
    forall other | other in after.requests && other != req ensures !Pending(after.db, after.requests[other], a, user) {
      assert !Pending(w.db, w.requests[other], a, user);
    }
  }

  lemma AdvanceIsQuiet(w: World, req: RequestId, a: Id, user: Id)
    requires Sound(w) && Over(w.db, a, user) && NonePending(w, a, user) && req in w.requests
    ensures Quiet(w, StepAdvance(w, req), a, user)
  {
    assert OneAttemptEach(w.db);
    hide UniqueKey, IndexOf, Over, Quiet, StepArrived, StepWrite, Sound;
    var p := w.requests[req];
    assert !Pending(w.db, p, a, user);
    match p
    case Arrived(request) => ArrivalIsQuiet(w, req, request, a, user);
    case Writing(_, _, _, _) => WriteIsQuiet(w, req, p, a, user);
    case _ =>
      hide NonePending;
      QuietWithoutWrite(w, StepAdvance(w, req), req, a, user);
  }

  lemma StepKeepsAnswers(w: World, step: Step, a: Id, user: Id)
    requires Sound(w) && Over(w.db, a, user) && NonePending(w, a, user)
    ensures SameAnswers(w.db, Apply(w, step).db, a, user) && NonePending(Apply(w, step), a, user)
  {
    hide UniqueKey, Over, StepAdvance, Sound;
    match step
    case Advance(req) =>
      if req in w.requests {
        AdvanceIsQuiet(w, req, a, user);
      } else {
        NothingToAdvance(w, req);
      }
    case _ =>
  }

  lemma NothingToAdvance(w: World, req: RequestId)
    requires req !in w.requests
    ensures StepAdvance(w, req) == w
  {
  }

  lemma {:induction false} NonePendingKeepsAnswers(w: World, steps: seq<Step>, a: Id, user: Id)
    requires Sound(w) && Over(w.db, a, user) && NonePending(w, a, user) && StaysTest(steps, a)
    ensures SameAnswers(w.db, Run(w, steps).db, a, user)
    decreases |steps|
  {
    hide UniqueKey, Apply;
    if steps != [] {
      var step, rest := steps[0], steps[1..];
      assert StaysTest([step], a) && StaysTest(rest, a);
      StepStaysSound(w, step);
      OverStaysOver(w, step, a, user);
      StepKeepsAnswers(w, step, a, user);
      NonePendingKeepsAnswers(Apply(w, step), rest, a, user);
    }
  }

  /** A pending save lands, whatever has happened to the attempt meanwhile. */
  lemma PendingSaveLands(w: World, req: RequestId, a: Id, user: Id)
    requires req in w.requests && Pending(w.db, w.requests[req], a, user)
    ensures exists steps :: StaysTest(steps, a) && !SameAnswers(w.db, Run(w, steps).db, a, user)
  {
    var p := w.requests[req];
    var one := Apply(w, Advance(req));
    var two := Apply(one, Advance(req));
    if p.Writing? {
      var steps := [Advance(req)];
      assert Run(w, steps) == Run(one, steps[1..]) == one;
      assert Holds(one.db, p.item, user, p.answer);
      assert StaysTest(steps, a) && !SameAnswers(w.db, Run(w, steps).db, a, user);
    } else {
      var steps := [Advance(req), Advance(req)];
      assert Run(w, steps) == Run(one, steps[1..]) == Run(two, steps[1..][1..]) == two;
      assert Holds(two.db, p.item, user, p.answer);
      assert StaysTest(steps, a) && !SameAnswers(w.db, Run(w, steps).db, a, user);
    }
  }

  /** Once a student's test is over, some further run can change an answer exactly when a save was already past its check. */
  lemma AnswersCanStillChangeExactlyWhenASaveIsInFlight(w: World, a: Id, user: Id)
    requires Sound(w) && Over(w.db, a, user)
    ensures (exists steps :: StaysTest(steps, a) && !SameAnswers(w.db, Run(w, steps).db, a, user)) <==> !NonePending(w, a, user)
  {
    if NonePending(w, a, user) {
      forall steps | StaysTest(steps, a) ensures SameAnswers(w.db, Run(w, steps).db, a, user) {
        NonePendingKeepsAnswers(w, steps, a, user);
      }
    } else {
      var req :| req in w.requests && Pending(w.db, w.requests[req], a, user);
      PendingSaveLands(w, req, a, user);
    }
  }
}
