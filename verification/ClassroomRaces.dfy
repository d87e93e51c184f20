/**
 Classroom, batch and assignment calls as the services run them: load and check, then save,
 with no transaction around both. Saving a classroom is itself a comparison of the edited
 lists with the stored ones and then the inserts and deletes that follow from it. Whoever
 reads assignments, the minute sweep included, saves the time transitions found due, and a
 call on an assignment then goes on with the row as reloaded. Each of these is one step, so
 calls interleave; the model says for each save exactly when the structure survives.
 */
module ClassroomRaces {
  import opened Common
  import opened Roles
  import opened Schedule
  import opened Tables
  import opened Classrooms
  import opened ClassroomStructure

  type RequestId = nat

  /** What a save of a classroom found to differ from the stored row. */
  datatype Delta = Delta(
    addStudents: seq<Id>, dropStudents: seq<Id>, addGraders: seq<Id>, dropGraders: seq<Id>,
    professor: Option<Option<Id>>, total: Option<nat>)

  function Compare(stored: Classroom, edited: Classroom): Delta {
    Delta(
      Where(edited.students, NotIn(stored.students)), Where(stored.students, NotIn(edited.students)),
      Where(edited.graders, NotIn(stored.graders)), Where(stored.graders, NotIn(edited.graders)),
      if edited.professor == stored.professor then None else Some(edited.professor),
      if edited.totalUsers == stored.totalUsers then None else Some(edited.totalUsers))
  }

  /** The inserts, deletes and column writes, on the row as it is by then. */
  function Merged(c: Classroom, d: Delta): Classroom {
    c.(students := Where(c.students, NotIn(d.dropStudents)) + d.addStudents,
       graders := Where(c.graders, NotIn(d.dropGraders)) + d.addGraders,
       professor := if d.professor.Some? then d.professor.value else c.professor,
       totalUsers := if d.total.Some? then d.total.value else c.totalUsers)
  }

  /** An insert hits the primary key of a membership table. */
  predicate Duplicates(c: Classroom, d: Delta) {
    (exists u :: u in d.addStudents && u in c.students) || (exists u :: u in d.addGraders && u in c.graders)
  }

  datatype Phase =
    | HoldsRoom(id: Id, room: Classroom, leaver: Option<Id>)
    | ComparedRoom(id: Id, base: Classroom, goal: Classroom, leaver: Option<Id>)
    | Stripping(id: Id, user: Id)
    | HoldsBatch(id: Id, batch: Batch)
    | DeletesBatch(id: Id)
    | HoldsAssignment(id: Id, edited: Assignment)
    | HoldsRefresh(rows: map<Id, Assignment>, related: bool, next: Option<Step>)
    | Resumes(call: Step)
    | DeletesRoom(id: Id)
    | DeletesAssignment(id: Id)
    | Done
    | Failed

  /** What a classroom save that has compared is about to write. */
  function DeltaOf(p: Phase): Delta
    requires p.ComparedRoom?
  {
    Compare(p.base, p.goal)
  }

  /**
   `rooms`, `homes` and `papers` remember every classroom id's organization and the classroom of
   every batch id and assignment id: ids are never used twice.
   */
  datatype World = World(db: Db, requests: map<RequestId, Phase>, rooms: map<Id, OrgId>, homes: map<Id, Id>, papers: map<Id, Id>)

  datatype RaceStep =
    | Wait(ms: nat)
    | Load(req: RequestId, call: Step)
    | Look(req: RequestId, ids: set<Id>, related: bool)
    | Advance(req: RequestId)

  function Goes(w: World, req: RequestId, p: Phase): World {
    w.(requests := w.requests[req := p])
  }

  /** The id a new row would take is still free. */
  predicate FreshFor(w: World, call: Step) {
    match call
    case NewRoom(_, _, id) => id !in w.rooms
    case NewBatch(_, _, _, _, id) => id !in w.homes
    case NewAssignment(_, _, _, _, _, _, id) => id !in w.papers
    case _ => true
  }

  /** What a call on classrooms or batches, or a new assignment, carries from its checks to its save: the row its one-step form would leave. */
  function Carried(d: Db, call: Step): Phase {
    match call
    case NewRoom(_, _, id) => if id in d.classrooms then HoldsRoom(id, d.classrooms[id], None) else Failed
    case EditRoom(id, _, _, _, _) => if id in d.classrooms then HoldsRoom(id, d.classrooms[id], None) else Failed
    case DropProfessor(id, _) => if id in d.classrooms then HoldsRoom(id, d.classrooms[id], None) else Failed
    case DropGrader(id, _, _) => if id in d.classrooms then HoldsRoom(id, d.classrooms[id], None) else Failed
    case DropStudent(id, user, _) => if id in d.classrooms then HoldsRoom(id, d.classrooms[id], Some(user)) else Failed
    case DropRoom(id, _) => DeletesRoom(id)
    case NewBatch(_, _, _, _, id) => if id in d.batches then HoldsBatch(id, d.batches[id]) else Failed
    case EditBatch(_, id, _, _, _) => if id in d.batches then HoldsBatch(id, d.batches[id]) else Failed
    case JoinBatch(_, id, _, _) => if id in d.batches then HoldsBatch(id, d.batches[id]) else Failed
    case LeaveBatch(_, id, _, _) => if id in d.batches then HoldsBatch(id, d.batches[id]) else Failed
    case DropBatch(_, id, _) => DeletesBatch(id)
    case NewAssignment(_, _, _, _, _, _, id) => if id in d.assignments then HoldsAssignment(id, d.assignments[id]) else Failed
    case _ => Failed
  }

  /** The calls that start by reading one assignment. */
  predicate OnAssignment(call: Step) {
    call.EditAssignment? || call.Open? || call.Finish? || call.Release? || call.DropAssignment?
  }

  function Moved(id: Id, a: Assignment, from: Status, to: Status): Phase {
    if a.status != from then Failed else HoldsAssignment(id, a.(status := to))
  }

  /** The checks of a call on the assignment as it is stored by then, and what it carries to its save. */
  function Judged(db: Db, call: Step): Phase {
    if !OnAssignment(call) || StoredFor(db, call.id, call.actor).Err? then Failed
    else
      var a := StoredFor(db, call.id, call.actor).value;
      match call
      case EditAssignment(id, start, end, t, actor) =>
        (match EditedAssignment(db, a, start, end, t, actor)
         case Err(_) => Failed
         case Ok(edited) => HoldsAssignment(id, edited))
      case Open(id, _) => Moved(id, a, Draft, Active)
      case Finish(id, _) => Moved(id, a, Active, Completed)
      case Release(id, _) => Moved(id, a, Completed, GradePublished)
      case DropAssignment(id, _) => DeletesAssignment(id)
      case _ => Failed
  }

  /** The rows among those read whose time transition is due, with the transition made. */
  function Due(db: Db, ids: set<Id>): map<Id, Assignment> {
    map id | id in ids && id in db.assignments && Aged(db.assignments[id], db.now) != db.assignments[id] :: Aged(db.assignments[id], db.now)
  }

  /** A read of assignments, by a view, a list, the sweep or a call: due rows are saved before anything else happens. */
  function StepLook(w: World, req: RequestId, ids: set<Id>, related: bool, next: Option<Step>): World {
    if Due(w.db, ids) != map[] then Goes(w, req, HoldsRefresh(Due(w.db, ids), related, next))
    else Goes(w, req, if next.Some? then Judged(w.db, next.value) else Done)
  }

  /** The reads and checks, which write nothing. */
  function StepLoad(w: World, req: RequestId, call: Step): World {
    if req in w.requests || !FreshFor(w, call) || call.Tick? then w
    else if call.See? then StepLook(w, req, {call.id}, true, None)
    else if OnAssignment(call) then StepLook(w, req, {call.id}, true, Some(call))
    else
      match Attempted(w.db, call)
      case Err(_) => Goes(w, req, Failed)
      case Ok(d) =>
        World(w.db, w.requests[req := Carried(d, call)],
              if call.NewRoom? && call.id in d.classrooms then w.rooms[call.id := d.classrooms[call.id].org] else w.rooms,
              if call.NewBatch? && call.id in d.batches then w.homes[call.id := d.batches[call.id].classroomId] else w.homes,
              if call.NewAssignment? && call.id in d.assignments then w.papers[call.id := d.assignments[call.id].classroomId] else w.papers)
  }

  function Finished(id: Id, leaver: Option<Id>): Phase {
    match leaver
    case None => Done
    case Some(user) => Stripping(id, user)
  }

  /** A save of a row that is no longer there inserts it. */
  function StepHoldsRoom(w: World, req: RequestId, p: Phase): World
    requires p.HoldsRoom?
  {
    if p.id in w.db.classrooms then Goes(w, req, ComparedRoom(p.id, w.db.classrooms[p.id], p.room, p.leaver))
    else Goes(w.(db := SaveClassroom(w.db, p.id, p.room)), req, Finished(p.id, p.leaver))
  }

  predicate Applies(w: World, p: Phase)
    requires p.ComparedRoom?
  {
    p.id in w.db.classrooms && !Duplicates(w.db.classrooms[p.id], DeltaOf(p))
  }

  function StepComparedRoom(w: World, req: RequestId, p: Phase): World
    requires p.ComparedRoom?
  {
    if Applies(w, p)
    then Goes(w.(db := SaveClassroom(w.db, p.id, Merged(w.db.classrooms[p.id], DeltaOf(p)))), req, Finished(p.id, p.leaver))
    else Goes(w, req, Failed)
  }

  function StripBatches(db: Db, id: Id, user: Id): Db {
    db.(batches := map b | b in db.batches :: Stripped(db.batches[b], id, user))
  }

  /** Foreign key and unique name, checked by the database. */
  predicate BatchSaves(w: World, p: Phase)
    requires p.HoldsBatch?
  {
    p.batch.classroomId in w.db.classrooms && !NameClash(w.db, p.batch.classroomId, p.batch.name, Some(p.id))
  }

  /** The batch goes, and with it its rows among assignment targets. */
  function BatchDeleted(db: Db, id: Id): Db {
    db.(batches := db.batches - {id},
        assignments := map a | a in db.assignments :: db.assignments[a].(targets := db.assignments[a].targets - {id}))
  }

  predicate AssignmentSaves(w: World, p: Phase)
    requires p.HoldsAssignment?
  {
    p.edited.classroomId in w.db.classrooms && forall b :: b in p.edited.targets ==> b in w.db.batches
  }

  predicate RefreshSaves(w: World, p: Phase)
    requires p.HoldsRefresh?
  {
    forall id :: id in p.rows ==>
      p.rows[id].classroomId in w.db.classrooms && (p.related ==> forall b :: b in p.rows[id].targets ==> b in w.db.batches)
  }

  /** The columns are written as loaded; the target rows too if the read came with them, and else they stay as stored. */
  function WrittenBack(db: Db, id: Id, row: Assignment, related: bool): Assignment {
    if related then row else row.(targets := if id in db.assignments then db.assignments[id].targets else {})
  }

  /** All rows of one refresh are saved in one transaction. */
  function Refreshed(db: Db, rows: map<Id, Assignment>, related: bool): Db {
    db.(assignments := map a | a in db.assignments.Keys + rows.Keys ::
          if a in rows then WrittenBack(db, a, rows[a], related) else db.assignments[a])
  }

  function StepHoldsRefresh(w: World, req: RequestId, p: Phase): World
    requires p.HoldsRefresh?
  {
    if !RefreshSaves(w, p) then Goes(w, req, Failed)
    else Goes(w.(db := Refreshed(w.db, p.rows, p.related)), req, if p.next.Some? then Resumes(p.next.value) else Done)
  }

  function RoomDeleted(db: Db, id: Id): Db {
    db.(classrooms := db.classrooms - {id},
        batches := map b | b in db.batches && db.batches[b].classroomId != id :: db.batches[b],
        assignments := map a | a in db.assignments && db.assignments[a].classroomId != id :: db.assignments[a])
  }

  function StepAdvance(w: World, req: RequestId): World {
    if req !in w.requests then w
    else
      var p := w.requests[req];
      match p
      case HoldsRoom(_, _, _) => StepHoldsRoom(w, req, p)
      case ComparedRoom(_, _, _, _) => StepComparedRoom(w, req, p)
      case Stripping(id, user) => Goes(w.(db := StripBatches(w.db, id, user)), req, Done)
      case HoldsBatch(id, b) => if BatchSaves(w, p) then Goes(w.(db := SaveBatch(w.db, id, b)), req, Done) else Goes(w, req, Failed)
      case DeletesBatch(id) => Goes(w.(db := BatchDeleted(w.db, id)), req, Done)
      case HoldsAssignment(id, a) =>
        if AssignmentSaves(w, p) then Goes(w.(db := w.db.(assignments := w.db.assignments[id := a])), req, Done) else Goes(w, req, Failed)
      case HoldsRefresh(_, _, _) => StepHoldsRefresh(w, req, p)
      case Resumes(call) => Goes(w, req, Judged(w.db, call))
      case DeletesRoom(id) => Goes(w.(db := RoomDeleted(w.db, id)), req, Done)
      case DeletesAssignment(id) => Goes(w.(db := w.db.(assignments := w.db.assignments - {id})), req, Done)
      case _ => w
  }

  function Apply(w: World, step: RaceStep): World {
    match step
    case Wait(ms) => w.(db := w.db.(now := w.db.now + ms))
    case Load(req, call) => StepLoad(w, req, call)
    case Look(req, ids, related) => if req in w.requests then w else StepLook(w, req, ids, related, None)
    case Advance(req) => StepAdvance(w, req)
  }

  function Run(w: World, steps: seq<RaceStep>): World
    decreases |steps|
  {
    if steps == [] then w else Run(Apply(w, steps[0]), steps[1..])
  }

  // ---------------------------------------------------------------- the invariant

  /** A student already out of the classroom whose batch rows a running call is about to delete. */
  ghost predicate Excused(requests: map<RequestId, Phase>, room: Id, user: Id) {
    exists req :: req in requests && requests[req] == Stripping(room, user)
  }

  /** A batch member is a student of the classroom, or excused. */
  ghost predicate BatchHome(db: Db, requests: map<RequestId, Phase>, b: Batch) {
    && b.classroomId in db.classrooms && NoDup(b.students)
    && (forall u :: u in b.students ==> u in db.classrooms[b.classroomId].students || Excused(requests, b.classroomId, u))
  }

  /** What targeting guarantees of an assignment by itself. */
  ghost predicate WellAimed(w: World, a: Assignment) {
    && a.classroomId in w.rooms && a.org == w.rooms[a.classroomId]
    && (a.target == ToBatches <==> a.targets != {})
    && (forall b :: b in a.targets ==> b in w.homes && w.homes[b] == a.classroomId)
    && (a.kind == Test ==> a.duration.Some? && a.duration.value >= 1)
  }

  predicate Filed(w: World, id: Id, a: Assignment) {
    id in w.papers && w.papers[id] == a.classroomId
  }

  ghost predicate PhaseSound(w: World, p: Phase) {
    match p
    case HoldsRoom(id, room, _) => Sorted(room) && id in w.rooms && w.rooms[id] == room.org
    case ComparedRoom(_, base, goal, _) => Sorted(base) && Sorted(goal)
    case HoldsBatch(id, b) => NoDup(b.students) && id in w.homes && w.homes[id] == b.classroomId
    case DeletesBatch(id) => id in w.homes
    case HoldsAssignment(id, a) => WellAimed(w, a) && Filed(w, id, a)
    case HoldsRefresh(rows, _, _) => forall id :: id in rows ==> WellAimed(w, rows[id]) && Filed(w, id, rows[id])
    case _ => true
  }

  ghost predicate RoomsSound(w: World) {
    forall c :: c in w.db.classrooms ==> Sorted(w.db.classrooms[c]) && c in w.rooms && w.rooms[c] == w.db.classrooms[c].org
  }

  ghost predicate BatchesSound(w: World) {
    && (forall b :: b in w.db.batches ==> BatchHome(w.db, w.requests, w.db.batches[b]) && b in w.homes && w.homes[b] == w.db.batches[b].classroomId)
    && NamesApart(w.db)
  }

  ghost predicate AssignmentsSound(w: World) {
    forall a :: a in w.db.assignments ==>
      WellAimed(w, w.db.assignments[a]) && Filed(w, a, w.db.assignments[a]) && w.db.assignments[a].classroomId in w.db.classrooms
      && forall b :: b in w.db.assignments[a].targets ==> b in w.db.batches
  }

  ghost predicate Sound(w: World) {
    RoomsSound(w) && BatchesSound(w) && AssignmentsSound(w) && forall req :: req in w.requests ==> PhaseSound(w, w.requests[req])
  }

  /** With nobody's batch rows still to be deleted, the invariant is the whole structure. */
  lemma SoundIsStructured(w: World)
    requires Sound(w) && forall req :: req in w.requests ==> !w.requests[req].Stripping?
    ensures Structured(w.db)
  {
    forall b | b in w.db.batches ensures Within(w.db, w.db.batches[b]) {
      assert BatchHome(w.db, w.requests, w.db.batches[b]);
    }
    forall a | a in w.db.assignments ensures Aimed(w.db, w.db.assignments[a]) {
      assert WellAimed(w, w.db.assignments[a]);
    }
  }

  /** And any structured database without running calls satisfies it. */
  function Quiet(db: Db): World {
    World(db, map[], map c | c in db.classrooms :: db.classrooms[c].org, map b | b in db.batches :: db.batches[b].classroomId,
          map a | a in db.assignments :: db.assignments[a].classroomId)
  }

  lemma StructuredIsSound(db: Db)
    requires Structured(db)
    ensures Sound(Quiet(db))
  {
    var w := Quiet(db);
    forall b | b in db.batches ensures BatchHome(db, w.requests, db.batches[b]) {
      assert Within(db, db.batches[b]);
    }
    forall a | a in db.assignments ensures WellAimed(w, db.assignments[a]) {
      assert Aimed(db, db.assignments[a]);
    }
  }

  // ---------------------------------------------------------------- the condition on each save

  /** Nobody is added on one side who stays on the other. */
  predicate NoCrossing(c: Classroom, d: Delta) {
    && (forall u :: u in d.addStudents && u in c.graders ==> u in d.dropGraders)
    && (forall u :: u in d.addGraders && u in c.students ==> u in d.dropStudents)
  }

  /** Members this save drops who have left on their own since. */
  function Gone(c: Classroom, d: Delta): nat {
    |Where(d.dropStudents, NotIn(c.students))| + |Where(d.dropGraders, NotIn(c.graders))|
  }

  /** Joins less leaves since the comparison, and the arrival or departure of a professor this save does not set. */
  function Drift(c: Classroom, base: Classroom, goal: Classroom): int {
    |c.students| - |base.students| + |c.graders| - |base.graders|
    + if goal.professor == base.professor then Head(c.professor) - Head(base.professor) else 0
  }

  /**
   A count that is written fits when joins and leaves since the comparison cancel out. One that
   is not written, because it was the same, fits when the members this save drops for a second
   time and the change in the professor it overwrites do.
   */
  predicate CountFits(c: Classroom, base: Classroom, goal: Classroom) {
    if goal.totalUsers != base.totalUsers then Drift(c, base, goal) + Gone(c, Compare(base, goal)) == 0
    else Gone(c, Compare(base, goal)) + (if goal.professor != base.professor then Head(base.professor) - Head(c.professor) else 0) == 0
  }

  /** Nobody is dropped who is still in a batch of the classroom, unless the rows there are about to go. */
  ghost predicate NoOrphans(w: World, p: Phase)
    requires p.ComparedRoom?
  {
    forall b, u :: b in w.db.batches && w.db.batches[b].classroomId == p.id && u in w.db.batches[b].students && u in DeltaOf(p).dropStudents ==>
      p.leaver == Some(u) || Excused(w.requests, p.id, u)
  }

  /** Every member of the held batch is a student of the classroom as it is now. */
  ghost predicate StillEnrolled(w: World, b: Batch)
    requires b.classroomId in w.db.classrooms
  {
    forall u :: u in b.students ==> u in w.db.classrooms[b.classroomId].students || Excused(w.requests, b.classroomId, u)
  }

  /** No assignment targets the batch alone. */
  predicate NobodysOnlyTarget(db: Db, id: Id) {
    forall a :: a in db.assignments ==> db.assignments[a].targets != {id}
  }

  /** The stored row has target batches exactly when the held one is targeted at batches. */
  predicate TargetsFit(db: Db, id: Id, row: Assignment) {
    row.target == ToBatches <==> id in db.assignments && db.assignments[id].targets != {}
  }

  /** The guard on each statement; everything else is safe as it is. */
  ghost predicate Safe(w: World, step: RaceStep) {
    step.Advance? && step.req in w.requests ==>
      var p := w.requests[step.req];
      match p
      case ComparedRoom(id, base, goal, _) =>
        Applies(w, p) ==> NoCrossing(w.db.classrooms[id], DeltaOf(p)) && CountFits(w.db.classrooms[id], base, goal) && NoOrphans(w, p)
      case HoldsBatch(_, b) => BatchSaves(w, p) ==> StillEnrolled(w, b)
      case DeletesBatch(id) => id in w.db.batches ==> NobodysOnlyTarget(w.db, id)
      case HoldsRefresh(rows, related, _) => RefreshSaves(w, p) && !related ==> forall a :: a in rows ==> TargetsFit(w.db, a, rows[a])
      case _ => true
  }
}
