/** The items service in its own form, tied to the functions of `Items`. */
module ItemsService {
  import opened Common
  import opened Tables
  import opened Grading
  import opened McqScoring
  import opened Items

  /** What the loop of `reorder` makes of the stored positions: ids that are not the assignment's are skipped. */
  function Positions(order: map<Id, int>, own: set<Id>, ids: seq<Id>): map<Id, int> {
    if ids == [] then order
    else
      var before, last := Positions(order, own, ids[..|ids| - 1]), ids[|ids| - 1];
      if last in own then before[last := |ids| - 1] else before
  }

  /** Reordering without repeats puts the assignment's items in the listed order and moves nothing else. */
  lemma {:induction false} ReorderShowsTheListedOrder(order: map<Id, int>, own: set<Id>, ids: seq<Id>)
    requires NoDup(ids)
    ensures forall k :: 0 <= k < |ids| && ids[k] in own ==> ids[k] in Positions(order, own, ids) && Positions(order, own, ids)[ids[k]] == k
    ensures forall id :: id !in own || id !in ids ==> (id in order <==> id in Positions(order, own, ids))
    ensures forall id :: (id !in own || id !in ids) && id in order ==> Positions(order, own, ids)[id] == order[id]
  {
    if ids != [] {
      ReorderShowsTheListedOrder(order, own, ids[..|ids| - 1]);
      assert ids == ids[..|ids| - 1] + [ids[|ids| - 1]];
    }
  }

  class Service {
    var items: seq<Item>
    var problems: seq<AssignmentProblem>
    var options: map<Id, seq<McqOption>>
    var allowMultiple: map<Id, bool>
    var order: map<Id, int>

    constructor (paper: Paper)
      ensures Rows() == paper
    {
      items, problems, options, allowMultiple, order := paper.items, paper.problems, paper.options, paper.allowMultiple, paper.order;
    }

    function Rows(): Paper
      reads this
    {
      Paper(items, problems, options, allowMultiple, order)
    }

    /** `syncCodingPoints`: one UPDATE per table. */
    method SyncPoints(apId: Id, points: real)
      modifies this`items, this`problems
      ensures Rows() == SyncCodingPoints(old(Rows()), apId, points)
    {
      var oldProblems, oldItems := problems, items;
      problems := seq(|oldProblems|, k requires 0 <= k < |oldProblems| => SetScore(apId, points, oldProblems[k]));
      items := seq(|oldItems|, k requires 0 <= k < |oldItems| => SetMax(apId, points, oldItems[k]));
    }

    /** `createItem`, for ids not used before. */
    method Create(a: Id, n: NewItem, at: Option<int>, id: Id, apId: Id) returns (refused: Option<Refusal>)
      modifies this
      ensures match CreateItem(old(Rows()), a, n, at, id, apId)
              case Err(e) => refused == Some(e) && Rows() == old(Rows())
              case Ok(p) => refused == None && Rows() == p
    {
      var position := if at.Some? then at.value else MaxOrder(items, a, order) + 1;
      match n {
        case NewCoding(source, languages, score, title) =>
          if source.None? || source.value == "" || languages == 0 {
            return Some(SourceRequired);
          }
          if Attached(Rows(), a, source.value) {
            return Some(AlreadyAttached);
          }
          problems := problems + [AssignmentProblem(apId, a, source.value, score)];
          items := items + [Item(id, a, Coding, score, title, Some(apId))];
        case NewMcq(points, prompt, given, multiple) =>
          if given.None? || !ValidOptions(given.value, multiple) {
            return Some(BadOptions);
          }
          items := items + [Item(id, a, Mcq, PointsOr0(points), TitleOf(prompt), None)];
          options := options[id := given.value];
          allowMultiple := allowMultiple[id := multiple];
        case NewQuiz(points, prompt) =>
          items := items + [Item(id, a, Quiz, PointsOr0(points), TitleOf(prompt), None)];
      }
      order := order[id := position];
      refused := None;
    }

    /** `updateItem`. */
    method Update(id: Id, c: Changes) returns (refused: Option<Refusal>)
      modifies this
      ensures match UpdateItem(old(Rows()), id, c)
              case Err(e) => refused == Some(e) && Rows() == old(Rows())
              case Ok(p) => refused == None && Rows() == p
    {
      var found := IndexOf(items, HasKey(ItemKey, id));
      if found.None? {
        return Some(NoSuchItem);
      }
      var item := items[found.value];
      assert ItemKey(item) == id;
      if item.kind == Mcq && !OptionsPass(Rows(), id, c) {
        return Some(BadOptions);
      }
      if c.maxPoints.Some? && item.kind == Coding && item.apId.Some? && item.apId.value != "" {
        SyncPoints(item.apId.value, c.maxPoints.value);
      }
      if c.prompt.Some? && item.kind != Coding {
        item := item.(title := TitleOf(c.prompt.value));
      }
      if c.order.Some? {
        order := order[id := c.order.value];
      }
      if c.maxPoints.Some? {
        item := item.(maxPoints := c.maxPoints.value);
      }
      if item.kind == Mcq {
        if c.allowMultiple.Some? {
          allowMultiple := allowMultiple[id := c.allowMultiple.value];
        }
        if c.options.Some? {
          options := options[id := c.options.value];
        }
      }
      items := items[found.value := item];
      refused := None;
    }

    /** `deleteItem`: a coding item goes by way of its problem. */
    method Delete(id: Id) returns (refused: Option<Refusal>)
      modifies this
      ensures match DeleteItem(old(Rows()), id)
              case Err(e) => refused == Some(e) && Rows() == old(Rows())
              case Ok(p) => refused == None && Rows() == p
    {
      var found := First(items, HasKey(ItemKey, id));
      if found.None? {
        return Some(NoSuchItem);
      }
      var item := found.value;
      if item.kind == Coding && item.apId.Some? && item.apId.value != "" {
        if First(problems, HasKey(ProblemKey, item.apId.value)).None? {
          return Some(NoSuchProblem);
        }
        problems := Where(problems, NotProblem(item.apId.value));
        items := Where(items, NotLinkedTo(item.apId.value));
      } else {
        items := Where(items, NotItem(id));
      }
      refused := None;
    }

    /** `reorder`. */
    method Reorder(a: Id, ids: seq<Id>)
      modifies this`order
      ensures order == Positions(old(order), set i | i in items && i.assignmentId == a :: i.id, ids)
    {
      ghost var before := order;
      var own := set i | i in items && i.assignmentId == a :: i.id;
      for k := 0 to |ids|
        invariant order == Positions(before, own, ids[..k])
      {
        if ids[k] in own {
          order := order[ids[k] := k];
        }
        assert ids[..k + 1][..k] == ids[..k];
      }
      assert ids[..|ids|] == ids;
    }
  }
}
