/**
 Authoring assignment items: creating, updating, deleting and reordering them, and keeping
 a coding item's points equal to the points of the problem it wraps.
 */
module Items {
  import opened Common
  import opened Tables
  import opened Grading
  import opened Rollups
  import opened McqScoring

  /** The authoring side of assignments. `order` and the MCQ fields are kept by item id. */
  datatype Paper = Paper(
    items: seq<Item>, problems: seq<AssignmentProblem>,
    options: map<Id, seq<McqOption>>, allowMultiple: map<Id, bool>, order: map<Id, int>)

  datatype NewItem =
    | NewCoding(source: Option<Id>, languages: nat, score: real, title: string)
    | NewMcq(points: Option<real>, prompt: string, options: Option<seq<McqOption>>, allowMultiple: bool)
    | NewQuiz(points: Option<real>, prompt: string)

  datatype Changes = Changes(
    prompt: Option<string>, order: Option<int>, maxPoints: Option<real>, allowMultiple: Option<bool>,
    options: Option<seq<McqOption>>)

  datatype Refusal = NoSuchItem | NoSuchProblem | SourceRequired | AlreadyAttached | BadOptions

  /** What the title of an MCQ or quiz item reads. */
  function TitleOf(prompt: string): string {
    if prompt == "" then "an item" else prompt
  }

  function PointsOr0(points: Option<real>): real {
    if points.Some? then points.value else 0.0
  }

  // ---------------------------------------------------------------- the two stored copies of a coding item's points

  function SetScore(apId: Id, points: real, p: AssignmentProblem): AssignmentProblem {
    if p.id == apId then p.(score := points) else p
  }

  function SetMax(apId: Id, points: real, i: Item): Item {
    if i.apId == Some(apId) then i.(maxPoints := points) else i
  }

  /** `syncCodingPoints`: two UPDATEs in one transaction. */
  function SyncCodingPoints(paper: Paper, apId: Id, points: real): Paper {
    paper.(problems := seq(|paper.problems|, k requires 0 <= k < |paper.problems| => SetScore(apId, points, paper.problems[k])),
           items := seq(|paper.items|, k requires 0 <= k < |paper.items| => SetMax(apId, points, paper.items[k])))
  }

  /** `editAssignmentProblem`, as far as points go. */
  function EditProblem(paper: Paper, apId: Id, score: Option<real>): Result<Paper, Refusal> {
    if First(paper.problems, HasKey(ProblemKey, apId)).None? then Err(NoSuchProblem)
    else Ok(if score.Some? then SyncCodingPoints(paper, apId, score.value) else paper)
  }

  // ---------------------------------------------------------------- creating

  predicate Attached(paper: Paper, a: Id, problem: Id) {
    exists p :: p in paper.problems && p.assignmentId == a && p.problemId == problem
  }

  /** `importProblem` with a fresh id: the problem is attached, no item wraps it yet. */
  function ImportProblem(paper: Paper, a: Id, problem: Id, score: real, apId: Id): Result<Paper, Refusal> {
    if Attached(paper, a, problem) then Err(AlreadyAttached)
    else Ok(paper.(problems := paper.problems + [AssignmentProblem(apId, a, problem, score)]))
  }

  function MaxOrder(items: seq<Item>, a: Id, order: map<Id, int>): int {
    if items == [] then -1
    else
      var rest, last := MaxOrder(items[..|items| - 1], a, order), items[|items| - 1];
      if last.assignmentId == a && last.id in order && order[last.id] > rest then order[last.id] else rest
  }

  function AddItem(paper: Paper, item: Item, order: Option<int>): Paper {
    var at := if order.Some? then order.value else MaxOrder(paper.items, item.assignmentId, paper.order) + 1;
    paper.(items := paper.items + [item], order := paper.order[item.id := at])
  }

  /** `createItem` with fresh ids. */
  function CreateItem(paper: Paper, a: Id, n: NewItem, order: Option<int>, id: Id, apId: Id): Result<Paper, Refusal> {
    match n
    case NewCoding(source, languages, score, title) =>
      if source.None? || source.value == "" || languages == 0 then Err(SourceRequired)
      else
        (match ImportProblem(paper, a, source.value, score, apId)
         case Err(e) => Err(e)
         case Ok(p) => Ok(AddItem(p, Item(id, a, Coding, score, title, Some(apId)), order)))
    case NewMcq(points, prompt, options, allowMultiple) =>
      if options.None? || !ValidOptions(options.value, allowMultiple) then Err(BadOptions)
      else
        Ok(AddItem(paper, Item(id, a, Mcq, PointsOr0(points), TitleOf(prompt), None), order)
           .(options := paper.options[id := options.value], allowMultiple := paper.allowMultiple[id := allowMultiple]))
    case NewQuiz(points, prompt) =>
      Ok(AddItem(paper, Item(id, a, Quiz, PointsOr0(points), TitleOf(prompt), None), order))
  }

  // ---------------------------------------------------------------- updating and deleting

  function OptionsOf(paper: Paper, id: Id): seq<McqOption> {
    if id in paper.options then paper.options[id] else []
  }

  predicate Multiple(paper: Paper, id: Id) {
    id in paper.allowMultiple && paper.allowMultiple[id]
  }

  /** Whether the options left after an update pass: new ones against the effective flag, stored ones only when the flag is cleared. */
  predicate OptionsPass(paper: Paper, id: Id, c: Changes) {
    if c.options.Some? then ValidOptions(c.options.value, if c.allowMultiple.Some? then c.allowMultiple.value else Multiple(paper, id))
    else if c.allowMultiple == Some(false) then ValidOptions(OptionsOf(paper, id), false)
    else true
  }

  function Revised(item: Item, c: Changes): Item {
    item.(title := if c.prompt.Some? && item.kind != Coding then TitleOf(c.prompt.value) else item.title,
          maxPoints := if c.maxPoints.Some? then c.maxPoints.value else item.maxPoints)
  }

  /** `updateItem`. */
  function UpdateItem(paper: Paper, id: Id, c: Changes): Result<Paper, Refusal> {
    match IndexOf(paper.items, HasKey(ItemKey, id))
    case None => Err(NoSuchItem)
    case Some(k) =>
      var item := paper.items[k];
      if item.kind == Mcq && !OptionsPass(paper, id, c) then Err(BadOptions)
      else
        var synced := if c.maxPoints.Some? && Linked(item) then SyncCodingPoints(paper, item.apId.value, c.maxPoints.value) else paper;
        Ok(synced.(
          items := synced.items[k := Revised(item, c)],
          order := if c.order.Some? then paper.order[id := c.order.value] else paper.order,
          options := if item.kind == Mcq && c.options.Some? then paper.options[id := c.options.value] else paper.options,
          allowMultiple := if item.kind == Mcq && c.allowMultiple.Some? then paper.allowMultiple[id := c.allowMultiple.value] else paper.allowMultiple))
  }

  function NotItem(id: Id): Item -> bool { (i: Item) => i.id != id }
  function NotLinkedTo(ap: Id): Item -> bool { (i: Item) => i.apId != Some(ap) }
  function NotProblem(ap: Id): AssignmentProblem -> bool { (p: AssignmentProblem) => p.id != ap }

  /** `deleteAssignmentProblem`: the item that wraps it goes with it. */
  function DeleteProblem(paper: Paper, apId: Id): Result<Paper, Refusal> {
    if First(paper.problems, HasKey(ProblemKey, apId)).None? then Err(NoSuchProblem)
    else Ok(paper.(problems := Where(paper.problems, NotProblem(apId)), items := Where(paper.items, NotLinkedTo(apId))))
  }

  /** `deleteItem`. */
  function DeleteItem(paper: Paper, id: Id): Result<Paper, Refusal> {
    match First(paper.items, HasKey(ItemKey, id))
    case None => Err(NoSuchItem)
    case Some(item) =>
      if Linked(item) then DeleteProblem(paper, item.apId.value)
      else Ok(paper.(items := Where(paper.items, NotItem(id))))
  }
}
