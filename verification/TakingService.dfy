/**
 The taking service in its own form, one request at a time: each method, run without
 interference, is the request's steps in the protocol of `Attempts`.
 */
module TakingService {
  import opened Common
  import opened Schedule
  import opened Tables
  import opened Attempts

  /** A request run to its answer with nothing in between. */
  function Alone(db: Db, request: Request): World {
    Run(World(db, map[0 := Arrived(request)]), [Advance(0), Advance(0), Advance(0), Advance(0)])
  }

  lemma AloneIsFourSteps(db: Db, request: Request)
    ensures Alone(db, request)
         == StepAdvance(StepAdvance(StepAdvance(StepAdvance(World(db, map[0 := Arrived(request)]), 0), 0), 0), 0)
  {
    hide StepAdvance;
    var go := Advance(0);
    var w0 := World(db, map[0 := Arrived(request)]);
    var w1 := StepAdvance(w0, 0);
    var w2 := StepAdvance(w1, 0);
    var w3 := StepAdvance(w2, 0);
    assert [go, go, go, go][1..] == [go, go, go];
    assert [go, go, go][1..] == [go, go];
    assert [go, go][1..] == [go];
    assert Run(w3, [go]) == Run(StepAdvance(w3, 0), []);
    assert Run(w2, [go, go]) == Run(w3, [go]);
    assert Run(w1, [go, go, go]) == Run(w2, [go, go]);
  }

  class Service {
    var now: int
    var assignments: map<Id, Assignment>
    var attempts: seq<Attempt>
    var itemOf: map<Id, Id>
    var answers: map<(Id, Id), string>

    constructor (db: Db)
      ensures Rows() == db
    {
      now, assignments, attempts, itemOf, answers := db.now, db.assignments, db.attempts, db.itemOf, db.answers;
    }

    function Rows(): Db
      reads this
    {
      Db(now, assignments, attempts, itemOf, answers)
    }

    /** `findOne`: the assignment after its time transition, which is saved. */
    method FindAssignment(a: Id) returns (found: Option<Assignment>)
      modifies this`assignments
      ensures found == Refreshed(old(Rows()), a) && Rows() == Persisted(old(Rows()), a)
    {
      if a !in assignments {
        return None;
      }
      var row := assignments[a];
      row := row.(status := Refresh(row.status, row.start, row.end, now));
      assignments := assignments[a := row];
      found := Some(row);
    }

    /** `startAttempt`. */
    method StartAttempt(a: Id, user: Id) returns (attempt: Option<Attempt>)
      modifies this
      ensures var done := Alone(old(Rows()), Start(a, user));
              && Rows() == done.db
              && 0 in done.requests
              && match attempt
                 case None => done.requests[0] == Refused
                 case Some(r) => done.requests[0].Started? && done.requests[0].i < |attempts| && r == attempts[done.requests[0].i]
    {
      AloneIsFourSteps(Rows(), Start(a, user));
      var found := FindAssignment(a);
      if found.None? || found.value.status != Active {
        return None;
      }
      var existing := FindAttempt(Rows(), a, user);
      if existing.Some? {
        return Some(attempts[existing.value]);
      }
      var startedAt := now;
      var deadline := found.value.end;
      if found.value.kind == Test && found.value.duration.Some? && found.value.duration.value != 0 {
        deadline := startedAt + found.value.duration.value * MINUTE;
      }
      var row := Attempt(a, user, startedAt, deadline, InProgress, None);
      attempts := attempts + [row];
      attempt := Some(row);
    }

    /** `assertWithinDeadline`, for an assignment already read. */
    method AssertWithinDeadline(a: Id, r: Assignment, user: Id) returns (ok: bool)
      requires r.status == Active
      ensures ok <==> MaySave(Rows(), a, r, user)
    {
      if r.kind != Test {
        return true;
      }
      var i := FindAttempt(Rows(), a, user);
      if i.None? {
        return false;
      }
      if attempts[i.value].status != InProgress {
        return false;
      }
      ok := !(now > attempts[i.value].deadline);
    }

    /** `saveMcqResponse` and `saveQuizResponse`, as far as the answer goes. */
    method SaveResponse(item: Id, user: Id, answer: string) returns (saved: bool)
      modifies this
      ensures var done := Alone(old(Rows()), Save(item, user, answer));
              Rows() == done.db && 0 in done.requests && done.requests[0] == if saved then Saved else Refused
    {
      AloneIsFourSteps(Rows(), Save(item, user, answer));
      if item !in itemOf {
        return false;
      }
      var a := itemOf[item];
      var found := FindAssignment(a);
      if found.None? || found.value.status != Active {
        return false;
      }
      var ok := AssertWithinDeadline(a, found.value, user);
      if !ok {
        return false;
      }
      answers := answers[(item, user) := answer];
      saved := true;
    }

    /** `submitAttempt`. */
    method SubmitAttempt(a: Id, user: Id) returns (attempt: Option<Attempt>)
      modifies this
      ensures var done := Alone(old(Rows()), Submit(a, user));
              && Rows() == done.db
              && 0 in done.requests
              && match attempt
                 case None => done.requests[0] == Refused
                 case Some(r) => done.requests[0].Closed? && done.requests[0].i < |attempts| && r == attempts[done.requests[0].i] && r.status != InProgress
    {
      AloneIsFourSteps(Rows(), Submit(a, user));
      var found := FindAssignment(a);
      if found.None? {
        return None;
      }
      var i := FindAttempt(Rows(), a, user);
      if i.None? {
        return None;
      }
      if attempts[i.value].status == InProgress {
        attempts := attempts[i.value := attempts[i.value].(status := Submitted, submittedAt := Some(now))];
      }
      attempt := Some(attempts[i.value]);
    }

    /** `assertTestAttemptOpen`, after the caller's status check. */
    method AssertTestAttemptOpen(a: Id, user: Id) returns (ok: bool)
      modifies this
      ensures var done := Alone(old(Rows()), Gate(a, user));
              && Rows() == done.db
              && 0 in done.requests
              && (ok <==> done.requests[0].Admitted? || done.requests[0] == Ungated)
              && (!ok <==> done.requests[0] == Refused)
    {
      hide IndexOf;
      AloneIsFourSteps(Rows(), Gate(a, user));
      var found := FindAssignment(a);
      if found.None? || found.value.status != Active {
        return false;
      }
      if found.value.kind != Test {
        return true;
      }
      var i := FindAttempt(Rows(), a, user);
      if i.None? {
        var byClock := now + (if found.value.duration.Some? then found.value.duration.value else 0) * MINUTE;
        var deadline := if byClock <= found.value.end then byClock else found.value.end;
        attempts := attempts + [Attempt(a, user, now, deadline, InProgress, None)];
        i := Some(|attempts| - 1);
      }
      if attempts[i.value].status != InProgress {
        return false;
      }
      if now > attempts[i.value].deadline {
        attempts := attempts[i.value := attempts[i.value].(status := AutoSubmitted, submittedAt := Some(now))];
        return false;
      }
      ok := true;
    }

    /** `finalizeExpiredAttempts`: one conditional UPDATE over the open attempts, row by row, and its affected count. */
    method FinalizeExpiredAttempts() returns (affected: nat)
      modifies this`attempts
      ensures affected == |set i: nat | i < |old(attempts)| && Expired(old(attempts)[i])|
      ensures |attempts| == |old(attempts)|
      ensures forall i: nat :: i < |attempts| && Expired(old(attempts)[i])
                ==> attempts[i] == old(attempts)[i].(status := AutoSubmitted, submittedAt := Some(now))
      ensures forall i: nat :: i < |attempts| && !Expired(old(attempts)[i]) ==> attempts[i] == old(attempts)[i]
      ensures Rows() == Sweep(old(Rows()))
    {
      affected := 0;
      ghost var hit: set<nat> := {};
      for k := 0 to |attempts|
        invariant |attempts| == |old(attempts)| && Rows() == old(Rows()).(attempts := attempts)
        invariant forall i: nat :: i < |attempts| ==>
                    attempts[i] == if i < k && Expired(old(attempts)[i])
                                   then old(attempts)[i].(status := AutoSubmitted, submittedAt := Some(now))
                                   else old(attempts)[i]
        invariant hit == set i: nat | i < k && Expired(old(attempts)[i])
        invariant affected == |hit|
      {
        if attempts[k].status == InProgress && attempts[k].deadline <= now {
          attempts := attempts[k := attempts[k].(status := AutoSubmitted, submittedAt := Some(now))];
          affected := affected + 1;
          hit := hit + {k};
        }
      }
    }

    /** Still open at its deadline or past it. */
    predicate Expired(r: Attempt)
      reads this`now
    {
      r.status == InProgress && r.deadline <= now
    }
  }
}
