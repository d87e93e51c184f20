/**
 Classrooms with their students and graders, batches of students inside a classroom, and
 assignments targeted at a classroom or at some of its batches. Every operation is a
 function from one database to the next, or a refusal.
 */
module Classrooms {
  import opened Common
  import opened Roles
  import opened Schedule
  import opened Tables

  type Id = string

  datatype Actor = Actor(id: Id, role: Role, org: Option<OrgId>)

  datatype User = User(role: Role, org: Option<OrgId>)

  datatype Classroom = Classroom(
    org: OrgId, createdBy: Id, professor: Option<Id>, students: seq<Id>, graders: seq<Id>, totalUsers: nat)

  datatype Batch = Batch(classroomId: Id, name: string, students: seq<Id>)

  datatype Target = ToClassroom | ToBatches

  /** `targets` is the assignment's rows in `assignment_target_batches`. */
  datatype Assignment = Assignment(
    classroomId: Id, org: OrgId, createdBy: Id, status: Status, start: int, end: int,
    kind: Kind, duration: Option<nat>, target: Target, targets: set<Id>)

  datatype Db = Db(
    now: int, users: map<Id, User>, classrooms: map<Id, Classroom>, batches: map<Id, Batch>,
    assignments: map<Id, Assignment>)

  datatype Reason =
    | NotFound | Forbidden | CrossOrg | NoOrganization | DirectoryClosed | BadDates | WrongStatus
    | StudentAndGrader | ProfessorIsMember | CreatorIsMember | ProfessorNotFound | NotAProfessor
    | UsersNotFound | GraderNotStudent | AlreadyGrader | AlreadyStudent
    | NotEnrolled | NameTaken | BatchTargeted
    | DurationRequired | TargetsRequired | ForeignBatch

  // ---------------------------------------------------------------- who may do what

  /** `assertSameOrg`, as a predicate. */
  predicate SameOrg(actor: Actor, org: Option<OrgId>) {
    actor.role == Superadmin || (actor.org.Some? && org == actor.org)
  }

  predicate CanManage(actor: Actor, c: Classroom) {
    actor.role == Superadmin
    || (SameOrg(actor, Some(c.org))
        && (actor.role == Admin || (actor.role == Professor && (c.createdBy == actor.id || c.professor == Some(actor.id)))))
  }

  predicate StaffOrGrader(actor: Actor, c: Classroom) {
    actor.role == Superadmin
    || (SameOrg(actor, Some(c.org))
        && (actor.role == Admin || c.createdBy == actor.id || c.professor == Some(actor.id) || actor.id in c.graders))
  }

  /** `assertOrgAllowsStaffDirectory`, as a predicate. */
  predicate DirectoryOpen(actor: Actor) {
    actor.role == Superadmin || actor.org != Some(COMMUNITY_ORG_ID)
  }

  // ---------------------------------------------------------------- resolving people

  function Known(db: Db): Id -> bool { (id: Id) => id in db.users }

  /** `loadUsers`. */
  function LoadUsers(db: Db, ids: seq<Id>, actor: Actor): Result<seq<Id>, Reason> {
    if !DirectoryOpen(actor) then Err(DirectoryClosed)
    else
      var found := Where(Dedup(ids), Known(db));
      if |found| != |Dedup(ids)| then Err(UsersNotFound)
      else if exists id :: id in found && id in db.users && !SameOrg(actor, db.users[id].org) then Err(CrossOrg)
      else Ok(found)
  }

  /** A non-empty list is loaded; an empty one is left alone. */
  function LoadSome(db: Db, ids: seq<Id>, actor: Actor): Result<seq<Id>, Reason> {
    if ids == [] then Ok([]) else LoadUsers(db, ids, actor)
  }

  /** `loadProfessor`. */
  function LoadProfessor(db: Db, id: Id, actor: Actor): Result<Id, Reason> {
    if !DirectoryOpen(actor) then Err(DirectoryClosed)
    else if id !in db.users then Err(ProfessorNotFound)
    else if db.users[id].role != Professor && db.users[id].role != Admin then Err(NotAProfessor)
    else if !SameOrg(actor, db.users[id].org) then Err(CrossOrg)
    else Ok(id)
  }

  /** An absent, null or empty professor id. */
  predicate Blank(id: Option<Id>) {
    id.None? || id.value == ""
  }

  predicate IsStudent(db: Db, id: Id) {
    id in db.users && db.users[id].role == Student
  }

  // ---------------------------------------------------------------- classrooms

  datatype NewClassroom = NewClassroom(start: int, end: int, professor: Option<Id>, studentIds: seq<Id>, graderIds: seq<Id>)

  function Head(professor: Option<Id>): nat {
    if professor.Some? then 1 else 0
  }

  /** The clashes `resolveMembers` rejects before it loads anyone. */
  function Clash(dto: NewClassroom, actor: Actor): Option<Reason> {
    if exists id :: id in dto.studentIds && id in dto.graderIds then Some(StudentAndGrader)
    else if !Blank(dto.professor) && (dto.professor.value in dto.studentIds || dto.professor.value in dto.graderIds) then Some(ProfessorIsMember)
    else if actor.id in dto.studentIds || actor.id in dto.graderIds then Some(CreatorIsMember)
    else None
  }

  function ResolveProfessor(db: Db, professor: Option<Id>, actor: Actor): Result<Option<Id>, Reason> {
    if Blank(professor) then Ok(None)
    else
      match LoadProfessor(db, professor.value, actor)
      case Err(e) => Err(e)
      case Ok(id) => Ok(Some(id))
  }

  /** `resolveMembers`: professor, students, graders. */
  function ResolveMembers(db: Db, dto: NewClassroom, actor: Actor): Result<(Option<Id>, seq<Id>, seq<Id>), Reason> {
    if Clash(dto, actor).Some? then Err(Clash(dto, actor).value)
    else
      match ResolveProfessor(db, dto.professor, actor)
      case Err(e) => Err(e)
      case Ok(professor) =>
        match LoadSome(db, Dedup(dto.studentIds), actor)
        case Err(e) => Err(e)
        case Ok(students) =>
          match LoadSome(db, Dedup(dto.graderIds), actor)
          case Err(e) => Err(e)
          case Ok(graders) =>
            if exists g :: g in graders && !IsStudent(db, g) then Err(GraderNotStudent)
            else Ok((professor, students, graders))
  }

  /** `create`, with a fresh id. */
  function CreateClassroom(db: Db, dto: NewClassroom, actor: Actor, id: Id): Result<Db, Reason> {
    if dto.start >= dto.end then Err(BadDates)
    else
      match ResolveMembers(db, dto, actor)
      case Err(e) => Err(e)
      case Ok((professor, students, graders)) =>
        if actor.org.None? then Err(NoOrganization)
        else
          Ok(db.(classrooms := db.classrooms[id := Classroom(
            actor.org.value, actor.id, professor, students, graders, |students| + |graders| + Head(professor))]))
  }

  function NotIn(xs: seq<Id>): Id -> bool { (id: Id) => id !in xs }

  /** Push everyone who is not there already. */
  function AddAll(xs: seq<Id>, toAdd: seq<Id>): seq<Id> {
    xs + Where(toAdd, NotIn(xs))
  }

  function WithStudents(db: Db, c: Classroom, ids: seq<Id>, actor: Actor): Result<Classroom, Reason> {
    match LoadSome(db, ids, actor)
    case Err(e) => Err(e)
    case Ok(toAdd) =>
      if exists u :: u in toAdd && u in c.graders then Err(AlreadyGrader)
      else Ok(c.(students := AddAll(c.students, toAdd)))
  }

  /** The first grader candidate that is refused, in order. */
  function GraderRefusal(db: Db, c: Classroom, toAdd: seq<Id>): Option<Reason> {
    if toAdd == [] then None
    else
      var init, last := toAdd[..|toAdd| - 1], toAdd[|toAdd| - 1];
      if GraderRefusal(db, c, init).Some? then GraderRefusal(db, c, init)
      else if !IsStudent(db, last) then Some(GraderNotStudent)
      else if last in c.students then Some(AlreadyStudent)
      else None
  }

  function WithGraders(db: Db, c: Classroom, ids: seq<Id>, actor: Actor): Result<Classroom, Reason> {
    match LoadSome(db, ids, actor)
    case Err(e) => Err(e)
    case Ok(toAdd) =>
      if GraderRefusal(db, c, toAdd).Some? then Err(GraderRefusal(db, c, toAdd).value)
      else Ok(c.(graders := AddAll(c.graders, toAdd)))
  }

  /** The outer option is whether the field was sent at all. */
  function WithProfessor(db: Db, c: Classroom, professor: Option<Option<Id>>, actor: Actor): Result<Classroom, Reason> {
    match professor
    case None => Ok(c)
    case Some(id) =>
      match ResolveProfessor(db, id, actor)
      case Err(e) => Err(e)
      case Ok(p) => Ok(c.(professor := p))
  }

  function Totalled(c: Classroom): Classroom {
    c.(totalUsers := |c.students| + |c.graders| + Head(c.professor))
  }

  function SaveClassroom(db: Db, id: Id, c: Classroom): Db {
    db.(classrooms := db.classrooms[id := c])
  }

  /** `update`, as far as membership goes. */
  function UpdateClassroom(db: Db, id: Id, studentIds: seq<Id>, graderIds: seq<Id>, professor: Option<Option<Id>>, actor: Actor): Result<Db, Reason> {
    if id !in db.classrooms then Err(NotFound)
    else if !CanManage(actor, db.classrooms[id]) then Err(Forbidden)
    else
      match WithStudents(db, db.classrooms[id], studentIds, actor)
      case Err(e) => Err(e)
      case Ok(c1) =>
        match WithGraders(db, c1, graderIds, actor)
        case Err(e) => Err(e)
        case Ok(c2) =>
          match WithProfessor(db, c2, professor, actor)
          case Err(e) => Err(e)
          case Ok(c3) => Ok(SaveClassroom(db, id, Totalled(c3)))
  }

  /** `removeProfessor`. */
  function RemoveProfessor(db: Db, id: Id, actor: Actor): Result<Db, Reason> {
    if id !in db.classrooms then Err(NotFound)
    else
      var c := db.classrooms[id];
      if actor.role != Superadmin && !SameOrg(actor, Some(c.org)) then Err(CrossOrg)
      else if actor.role != Superadmin && actor.role != Admin then Err(Forbidden)
      else Ok(SaveClassroom(db, id, c.(professor := None, totalUsers := |c.students| + |c.graders|)))
  }

  function Without(user: Id): Id -> bool { (id: Id) => id != user }

  function Stripped(b: Batch, classroomId: Id, user: Id): Batch {
    if b.classroomId == classroomId then b.(students := Where(b.students, Without(user))) else b
  }

  /** `removeStudent`: out of the classroom and out of each of its batches. */
  function RemoveStudent(db: Db, id: Id, user: Id, actor: Actor): Result<Db, Reason> {
    if id !in db.classrooms then Err(NotFound)
    else if !CanManage(actor, db.classrooms[id]) then Err(Forbidden)
    else
      var c := db.classrooms[id];
      Ok(SaveClassroom(db, id, Totalled(c.(students := Where(c.students, Without(user)))))
         .(batches := map b | b in db.batches :: Stripped(db.batches[b], id, user)))
  }

  /** `removeGrader`. */
  function RemoveGrader(db: Db, id: Id, user: Id, actor: Actor): Result<Db, Reason> {
    if id !in db.classrooms then Err(NotFound)
    else if !CanManage(actor, db.classrooms[id]) then Err(Forbidden)
    else
      var c := db.classrooms[id];
      Ok(SaveClassroom(db, id, Totalled(c.(graders := Where(c.graders, Without(user))))))
  }

  /** `remove`: batches and assignments cascade. */
  function RemoveClassroom(db: Db, id: Id, actor: Actor): Result<Db, Reason> {
    if id !in db.classrooms then Err(NotFound)
    else if !CanManage(actor, db.classrooms[id]) then Err(Forbidden)
    else
      Ok(db.(classrooms := db.classrooms - {id},
             batches := map b | b in db.batches && db.batches[b].classroomId != id :: db.batches[b],
             assignments := map a | a in db.assignments && db.assignments[a].classroomId != id :: db.assignments[a]))
  }

  // ---------------------------------------------------------------- batches

  /** `BatchesService.resolveMembers`. */
  function ResolveBatch(c: Classroom, ids: seq<Id>): Result<seq<Id>, Reason> {
    if exists id :: id in ids && id !in c.students then Err(NotEnrolled) else Ok(Dedup(ids))
  }

  predicate NameClash(db: Db, classroomId: Id, name: string, except: Option<Id>) {
    exists b :: b in db.batches && db.batches[b].classroomId == classroomId && db.batches[b].name == name && except != Some(b)
  }

  /** `create`, with a fresh id. */
  function CreateBatch(db: Db, classroomId: Id, name: string, ids: seq<Id>, actor: Actor, id: Id): Result<Db, Reason> {
    if classroomId !in db.classrooms then Err(NotFound)
    else if !CanManage(actor, db.classrooms[classroomId]) then Err(Forbidden)
    else
      match ResolveBatch(db.classrooms[classroomId], ids)
      case Err(e) => Err(e)
      case Ok(students) =>
        if NameClash(db, classroomId, name, None) then Err(NameTaken)
        else Ok(db.(batches := db.batches[id := Batch(classroomId, name, students)]))
  }

  /** `getOne`. */
  function GetBatch(db: Db, classroomId: Id, id: Id, actor: Actor): Result<Batch, Reason> {
    if classroomId !in db.classrooms then Err(NotFound)
    else if !CanManage(actor, db.classrooms[classroomId]) then Err(Forbidden)
    else if id !in db.batches || db.batches[id].classroomId != classroomId then Err(NotFound)
    else Ok(db.batches[id])
  }

  function SaveBatch(db: Db, id: Id, b: Batch): Db {
    db.(batches := db.batches[id := b])
  }

  /** `update`. */
  function UpdateBatch(db: Db, classroomId: Id, id: Id, name: Option<string>, ids: Option<seq<Id>>, actor: Actor): Result<Db, Reason> {
    match GetBatch(db, classroomId, id, actor)
    case Err(e) => Err(e)
    case Ok(b) =>
      if name.Some? && name.value != b.name && NameClash(db, classroomId, name.value, Some(id)) then Err(NameTaken)
      else
        var renamed := if name.Some? then b.(name := name.value) else b;
        match ids
        case None => Ok(SaveBatch(db, id, renamed))
        case Some(xs) =>
          match ResolveBatch(db.classrooms[classroomId], xs)
          case Err(e) => Err(e)
          case Ok(students) => Ok(SaveBatch(db, id, renamed.(students := students)))
  }

  /** `addStudents`. */
  function AddToBatch(db: Db, classroomId: Id, id: Id, ids: seq<Id>, actor: Actor): Result<Db, Reason> {
    match GetBatch(db, classroomId, id, actor)
    case Err(e) => Err(e)
    case Ok(b) =>
      match ResolveBatch(db.classrooms[classroomId], ids)
      case Err(e) => Err(e)
      case Ok(toAdd) => Ok(SaveBatch(db, id, b.(students := AddAll(b.students, toAdd))))
  }

  /** `removeStudent` of a batch. */
  function RemoveFromBatch(db: Db, classroomId: Id, id: Id, user: Id, actor: Actor): Result<Db, Reason> {
    match GetBatch(db, classroomId, id, actor)
    case Err(e) => Err(e)
    case Ok(b) => Ok(SaveBatch(db, id, b.(students := Where(b.students, Without(user)))))
  }

  /** `remove`, refused while an assignment targets the batch. */
  function RemoveBatch(db: Db, classroomId: Id, id: Id, actor: Actor): Result<Db, Reason> {
    match GetBatch(db, classroomId, id, actor)
    case Err(e) => Err(e)
    case Ok(b) =>
      if exists a :: a in db.assignments && id in db.assignments[a].targets then Err(BatchTargeted)
      else Ok(db.(batches := db.batches - {id}))
  }

  // ---------------------------------------------------------------- assignments

  /** The targeting fields of a request, each possibly absent; repeated batch ids count once. */
  datatype Targeting = Targeting(kind: Option<Kind>, target: Option<Target>, duration: Option<nat>, batchIds: Option<set<Id>>)

  /** `resolveTargeting`: the assignment with its four targeting fields settled. */
  function ResolveTargeting(db: Db, a: Assignment, t: Targeting, actor: Actor): Result<Assignment, Reason> {
    var kind := if t.kind.Some? then t.kind.value else Plain;
    var target := if t.target.Some? then t.target.value else ToClassroom;
    if kind == Test && (t.duration.None? || t.duration.value < 1) then Err(DurationRequired)
    else if target == ToClassroom then Ok(a.(kind := kind, target := target, duration := t.duration, targets := {}))
    else
      var ids := if t.batchIds.Some? then t.batchIds.value else {};
      if ids == {} then Err(TargetsRequired)
      else if exists b :: b in ids && (b !in db.batches || db.batches[b].classroomId != a.classroomId) then Err(ForeignBatch)
      else if !SameOrg(actor, Some(a.org)) then Err(CrossOrg)
      else Ok(a.(kind := kind, target := target, duration := t.duration, targets := ids))
  }

  /** `create`, with a fresh id. */
  function CreateAssignment(db: Db, classroomId: Id, start: int, end: int, t: Targeting, asDraft: bool, actor: Actor, id: Id): Result<Db, Reason> {
    if start >= end then Err(BadDates)
    else if classroomId !in db.classrooms then Err(NotFound)
    else if !StaffOrGrader(actor, db.classrooms[classroomId]) then Err(Forbidden)
    else
      var blank := Assignment(classroomId, db.classrooms[classroomId].org, actor.id, if asDraft then Draft else Scheduled,
                              start, end, Plain, None, ToClassroom, {});
      match ResolveTargeting(db, blank, t, actor)
      case Err(e) => Err(e)
      case Ok(a) => Ok(db.(assignments := db.assignments[id := a]))
  }

  function Aged(a: Assignment, now: int): Assignment {
    a.(status := Refresh(a.status, a.start, a.end, now))
  }

  /** `getById` saves the time transition it finds due. */
  function Seen(db: Db, id: Id): Db {
    if id in db.assignments then db.(assignments := db.assignments[id := Aged(db.assignments[id], db.now)]) else db
  }

  /** The stored assignment, for somebody who may manage it. */
  function StoredFor(db: Db, id: Id, actor: Actor): Result<Assignment, Reason> {
    if id !in db.assignments || db.assignments[id].classroomId !in db.classrooms then Err(NotFound)
    else if !StaffOrGrader(actor, db.classrooms[db.assignments[id].classroomId]) then Err(Forbidden)
    else Ok(db.assignments[id])
  }

  /** The assignment a manage call run alone works on. */
  function Managed(db: Db, id: Id, actor: Actor): Result<Assignment, Reason> {
    match StoredFor(db, id, actor)
    case Err(e) => Err(e)
    case Ok(a) => Ok(Aged(a, db.now))
  }

  function Merge<T>(sent: Option<T>, current: T): Option<T> {
    if sent.Some? then sent else Some(current)
  }

  /** The edited row: targeting is resolved anew only when one of its fields was sent, the rest filled in from the row. */
  function EditedAssignment(db: Db, a: Assignment, start: Option<int>, end: Option<int>, t: Targeting, actor: Actor): Result<Assignment, Reason> {
    var dated := a.(start := if start.Some? then start.value else a.start, end := if end.Some? then end.value else a.end);
    if t == Targeting(None, None, None, None) then Ok(dated)
    else
      var duration := if t.duration.Some? then t.duration else a.duration;
      ResolveTargeting(db, dated, Targeting(Merge(t.kind, a.kind), Merge(t.target, a.target), duration, Merge(t.batchIds, a.targets)), actor)
  }

  /** `update`. */
  function UpdateAssignment(db: Db, id: Id, start: Option<int>, end: Option<int>, t: Targeting, actor: Actor): Result<Db, Reason> {
    match Managed(db, id, actor)
    case Err(e) => Err(e)
    case Ok(a) =>
      match EditedAssignment(db, a, start, end, t, actor)
      case Err(e) => Err(e)
      case Ok(edited) => Ok(db.(assignments := db.assignments[id := edited]))
  }

  /** `transition`. */
  function Transition(db: Db, id: Id, actor: Actor, from: Status, to: Status): Result<Db, Reason> {
    match Managed(db, id, actor)
    case Err(e) => Err(e)
    case Ok(a) =>
      if a.status != from then Err(WrongStatus)
      else Ok(db.(assignments := db.assignments[id := a.(status := to)]))
  }

  function Publish(db: Db, id: Id, actor: Actor): Result<Db, Reason> {
    Transition(db, id, actor, Draft, Active)
  }

  function Complete(db: Db, id: Id, actor: Actor): Result<Db, Reason> {
    Transition(db, id, actor, Active, Completed)
  }

  function PublishGrades(db: Db, id: Id, actor: Actor): Result<Db, Reason> {
    Transition(db, id, actor, Completed, GradePublished)
  }

  /** `remove` of an assignment. */
  function RemoveAssignment(db: Db, id: Id, actor: Actor): Result<Db, Reason> {
    match Managed(db, id, actor)
    case Err(e) => Err(e)
    case Ok(_) => Ok(db.(assignments := db.assignments - {id}))
  }
}
