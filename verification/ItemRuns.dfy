/**
 What authoring keeps over every run: questions stay answerable, a coding item and its
 problem carry the same points, and so the two grading routes are one.
 */
module ItemRuns {
  import opened Common
  import opened Tables
  import opened Grading
  import opened Rollups
  import opened McqScoring
  import opened Items

  /** The problem a coding item wraps, with its points. */
  ghost predicate InLockstep(problems: seq<AssignmentProblem>, item: Item) {
    exists p :: p in problems && item.apId == Some(p.id) && p.assignmentId == item.assignmentId && p.score == item.maxPoints
  }

  ghost predicate Sound(paper: Paper, item: Item) {
    && (item.kind == Coding ==> Linked(item) && InLockstep(paper.problems, item))
    && (item.kind != Coding ==> item.apId == None)
    && (item.kind == Mcq ==> ValidOptions(OptionsOf(paper, item.id), Multiple(paper, item.id)))
  }

  function DifferentAttachment(): (AssignmentProblem, AssignmentProblem) -> bool {
    (p: AssignmentProblem, q: AssignmentProblem) => p.id != q.id && (p.assignmentId, p.problemId) != (q.assignmentId, q.problemId)
  }

  ghost predicate WellFormed(paper: Paper) {
    && Pairwise(paper.items, DifferentIds()) && Pairwise(paper.items, DifferentLinks())
    && Pairwise(paper.problems, DifferentAttachment())
    && (forall i :: i in paper.items ==> Sound(paper, i))
  }

  predicate Fresh(paper: Paper, id: Id, apId: Id) {
    && apId != "" && (forall i :: i in paper.items ==> i.id != id && i.apId != Some(apId))
    && (forall p :: p in paper.problems ==> p.id != apId)
  }

  lemma ImportKeeps(paper: Paper, a: Id, problem: Id, score: real, id: Id, apId: Id)
    requires WellFormed(paper) && Fresh(paper, id, apId)
    ensures ImportProblem(paper, a, problem, score, apId).Ok? ==> WellFormed(ImportProblem(paper, a, problem, score, apId).value)
  {
    if ImportProblem(paper, a, problem, score, apId).Ok? {
      var after := ImportProblem(paper, a, problem, score, apId).value;
      PairwiseSnoc(paper.problems, AssignmentProblem(apId, a, problem, score), DifferentAttachment());
      forall i | i in after.items ensures Sound(after, i) {
        assert Sound(paper, i);
        if i.kind == Coding {
          var p :| p in paper.problems && p.id == i.apId.value && p.assignmentId == i.assignmentId && p.score == i.maxPoints;
          assert p in after.problems;
        }
      }
    }
  }

  lemma AddKeeps(paper: Paper, item: Item, order: Option<int>, after: Paper)
    requires WellFormed(paper) && forall i :: i in paper.items ==> i.id != item.id && (Linked(item) ==> i.apId != item.apId)
    requires after.items == paper.items + [item] && after.problems == paper.problems && Sound(after, item)
    requires forall id :: id != item.id ==> OptionsOf(after, id) == OptionsOf(paper, id) && (Multiple(after, id) <==> Multiple(paper, id))
    ensures WellFormed(after)
  {
    PairwiseSnoc(paper.items, item, DifferentIds());
    PairwiseSnoc(paper.items, item, DifferentLinks());
    forall i | i in after.items ensures Sound(after, i) {
      if i in paper.items {
        assert Sound(paper, i);
      }
    }
  }

  lemma CreateKeeps(paper: Paper, a: Id, n: NewItem, order: Option<int>, id: Id, apId: Id)
    requires WellFormed(paper) && Fresh(paper, id, apId)
    ensures CreateItem(paper, a, n, order, id, apId).Ok? ==> WellFormed(CreateItem(paper, a, n, order, id, apId).value)
  {
    hide ValidOptions;
    if CreateItem(paper, a, n, order, id, apId).Ok? {
      var after := CreateItem(paper, a, n, order, id, apId).value;
      match n
      case NewCoding(source, languages, score, title) =>
        ImportKeeps(paper, a, source.value, score, id, apId);
        var p := ImportProblem(paper, a, source.value, score, apId).value;
        var ap := AssignmentProblem(apId, a, source.value, score);
        assert p.problems[|paper.problems|] == ap && ap in after.problems;
        AddKeeps(p, Item(id, a, Coding, score, title, Some(apId)), order, after);
      case NewMcq(points, prompt, options, multiple) =>
        AddKeeps(paper, Item(id, a, Mcq, PointsOr0(points), TitleOf(prompt), None), order, after);
      case NewQuiz(points, prompt) =>
        AddKeeps(paper, Item(id, a, Quiz, PointsOr0(points), TitleOf(prompt), None), order, after);
    }
  }

  /** Syncing points keeps both tables' keys and moves both copies together. */
  lemma SyncKeeps(paper: Paper, apId: Id, points: real)
    requires WellFormed(paper)
    ensures WellFormed(SyncCodingPoints(paper, apId, points))
  {
    hide ValidOptions;
    var after := SyncCodingPoints(paper, apId, points);
    forall i, j | 0 <= i < j < |after.items| ensures DifferentIds()(after.items[i], after.items[j]) && DifferentLinks()(after.items[i], after.items[j]) {
      assert DifferentIds()(paper.items[i], paper.items[j]) && DifferentLinks()(paper.items[i], paper.items[j]);
    }
    forall i, j | 0 <= i < j < |after.problems| ensures DifferentAttachment()(after.problems[i], after.problems[j]) {
      assert DifferentAttachment()(paper.problems[i], paper.problems[j]);
    }
    forall i | i in after.items ensures Sound(after, i) {
      var k :| 0 <= k < |after.items| && after.items[k] == i;
      assert paper.items[k] in paper.items && Sound(paper, paper.items[k]);
      if i.kind == Coding {
        SyncedInLockstep(paper, apId, points, k);
      }
    }
  }

  lemma SyncedInLockstep(paper: Paper, apId: Id, points: real, k: nat)
    requires k < |paper.items| && Linked(paper.items[k]) && InLockstep(paper.problems, paper.items[k])
    ensures InLockstep(SyncCodingPoints(paper, apId, points).problems, SyncCodingPoints(paper, apId, points).items[k])
  {
    var item := paper.items[k];
    var p :| p in paper.problems && p.id == item.apId.value && p.assignmentId == item.assignmentId && p.score == item.maxPoints;
    var j :| 0 <= j < |paper.problems| && paper.problems[j] == p;
    var q := SyncCodingPoints(paper, apId, points).problems[j];
    assert q in SyncCodingPoints(paper, apId, points).problems;
  }

  /** Rewriting one item in place keeps the paper well formed when the item stays sound and keeps its id and link. */
  lemma RewriteKeeps(paper: Paper, k: nat, item: Item, after: Paper)
    requires k < |paper.items| && item.id == paper.items[k].id && item.apId == paper.items[k].apId && item.kind == paper.items[k].kind
    requires WellFormed(paper) && after.items == paper.items[k := item] && after.problems == paper.problems && Sound(after, item)
    requires forall id :: id != item.id ==> OptionsOf(after, id) == OptionsOf(paper, id) && (Multiple(after, id) <==> Multiple(paper, id))
    ensures WellFormed(after)
  {
    hide ValidOptions;
    forall i, j | 0 <= i < j < |after.items| ensures DifferentIds()(after.items[i], after.items[j]) && DifferentLinks()(after.items[i], after.items[j]) {
      assert DifferentIds()(paper.items[i], paper.items[j]) && DifferentLinks()(paper.items[i], paper.items[j]);
    }
    forall i | i in after.items ensures Sound(after, i) {
      var j :| 0 <= j < |after.items| && after.items[j] == i;
      if j != k {
        assert paper.items[j] in paper.items && Sound(paper, paper.items[j]);
        if j < k {
          assert DifferentIds()(paper.items[j], paper.items[k]);
        } else {
          assert DifferentIds()(paper.items[k], paper.items[j]);
        }
      }
    }
  }

  lemma UpdateKeeps(paper: Paper, id: Id, c: Changes)
    requires WellFormed(paper)
    ensures UpdateItem(paper, id, c).Ok? ==> WellFormed(UpdateItem(paper, id, c).value)
  {
    if UpdateItem(paper, id, c).Ok? {
      var k := IndexOf(paper.items, HasKey(ItemKey, id)).value;
      var item := paper.items[k];
      assert ItemKey(item) == id && item in paper.items && Sound(paper, item);
      var synced := if c.maxPoints.Some? && Linked(item) then SyncCodingPoints(paper, item.apId.value, c.maxPoints.value) else paper;
      if c.maxPoints.Some? && Linked(item) {
        SyncKeeps(paper, item.apId.value, c.maxPoints.value);
      }
      var after := UpdateItem(paper, id, c).value;
      assert synced.items[k] in synced.items && Sound(synced, synced.items[k]);
      UpdatedIsSound(paper, k, c, synced, after);
      RewriteKeeps(synced, k, Revised(item, c), after);
    }
  }

  lemma UpdatedIsSound(paper: Paper, k: nat, c: Changes, synced: Paper, after: Paper)
    requires k < |paper.items| && UpdateItem(paper, paper.items[k].id, c) == Ok(after)
    requires IndexOf(paper.items, HasKey(ItemKey, paper.items[k].id)) == Some(k)
    requires synced == if c.maxPoints.Some? && Linked(paper.items[k]) then SyncCodingPoints(paper, paper.items[k].apId.value, c.maxPoints.value) else paper
    requires Sound(paper, paper.items[k]) && Sound(synced, synced.items[k])
    ensures Sound(after, Revised(paper.items[k], c))
  {
    var item := paper.items[k];
    assert after.problems == synced.problems;
    if item.kind == Coding {
      assert Revised(item, c).maxPoints == synced.items[k].maxPoints;
      assert InLockstep(synced.problems, synced.items[k]);
    }
  }

  lemma DeleteKeeps(paper: Paper, items: Item -> bool, problems: AssignmentProblem -> bool)
    requires WellFormed(paper)
    requires forall i :: i in paper.items && items(i) && i.kind == Coding ==>
               forall p :: p in paper.problems && p.id == i.apId.value ==> problems(p)
    ensures WellFormed(paper.(items := Where(paper.items, items), problems := Where(paper.problems, problems)))
  {
    hide ValidOptions;
    var after := paper.(items := Where(paper.items, items), problems := Where(paper.problems, problems));
    WherePairwise(paper.items, items, DifferentIds());
    WherePairwise(paper.items, items, DifferentLinks());
    WherePairwise(paper.problems, problems, DifferentAttachment());
    WhereMembers(paper.items, items);
    WhereMembers(paper.problems, problems);
    forall i | i in after.items ensures Sound(after, i) {
      assert Sound(paper, i);
      if i.kind == Coding {
        var p :| p in paper.problems && p.id == i.apId.value && p.assignmentId == i.assignmentId && p.score == i.maxPoints;
        assert p in after.problems;
      }
    }
  }

  function Every<R>(): R -> bool { (r: R) => true }

  lemma {:induction false} WhereEvery<R(!new)>(rows: seq<R>)
    ensures Where(rows, Every()) == rows
  {
    if rows != [] {
      WhereEvery(rows[..|rows| - 1]);
    }
  }

  lemma DeleteProblemKeeps(paper: Paper, apId: Id)
    requires WellFormed(paper)
    ensures DeleteProblem(paper, apId).Ok? ==> WellFormed(DeleteProblem(paper, apId).value)
  {
    forall i | i in paper.items && NotLinkedTo(apId)(i) && i.kind == Coding
      ensures forall p :: p in paper.problems && p.id == i.apId.value ==> NotProblem(apId)(p)
    {
      assert Sound(paper, i);
    }
    DeleteKeeps(paper, NotLinkedTo(apId), NotProblem(apId));
  }

  lemma DeleteItemKeeps(paper: Paper, id: Id)
    requires WellFormed(paper)
    ensures DeleteItem(paper, id).Ok? ==> WellFormed(DeleteItem(paper, id).value)
  {
    match First(paper.items, HasKey(ItemKey, id))
    case None =>
    case Some(item) =>
      if Linked(item) {
        DeleteProblemKeeps(paper, item.apId.value);
      } else {
        DeleteKeeps(paper, NotItem(id), Every());
        WhereEvery(paper.problems);
      }
  }

  // ---------------------------------------------------------------- runs

  datatype Edit =
    | Import(a: Id, problem: Id, score: real, apId: Id)
    | Create(a: Id, n: NewItem, at: Option<int>, id: Id, apId: Id)
    | Update(id: Id, changes: Changes)
    | Points(apId: Id, newScore: Option<real>)
    | RemoveItem(id: Id)
    | RemoveProblem(apId: Id)

  function Kept(paper: Paper, r: Result<Paper, Refusal>): Paper {
    match r
    case Ok(p) => p
    case Err(_) => paper
  }

  function Apply(paper: Paper, e: Edit): Paper {
    match e
    case Import(a, problem, score, apId) => if Fresh(paper, "", apId) then Kept(paper, ImportProblem(paper, a, problem, score, apId)) else paper
    case Create(a, n, at, id, apId) => if Fresh(paper, id, apId) then Kept(paper, CreateItem(paper, a, n, at, id, apId)) else paper
    case Update(id, c) => Kept(paper, UpdateItem(paper, id, c))
    case Points(apId, score) => Kept(paper, EditProblem(paper, apId, score))
    case RemoveItem(id) => Kept(paper, DeleteItem(paper, id))
    case RemoveProblem(apId) => Kept(paper, DeleteProblem(paper, apId))
  }

  function Run(paper: Paper, es: seq<Edit>): Paper {
    if es == [] then paper else Apply(Run(paper, es[..|es| - 1]), es[|es| - 1])
  }

  /** Whatever authors do, questions stay answerable and both copies of a coding item's points stay equal. */
  lemma {:induction false} PapersStayWellFormed(paper: Paper, es: seq<Edit>)
    requires WellFormed(paper)
    ensures WellFormed(Run(paper, es))
  {
    hide WellFormed, CreateItem, UpdateItem, DeleteItem, DeleteProblem, ImportProblem, SyncCodingPoints;
    if es != [] {
      var before, e := Run(paper, es[..|es| - 1]), es[|es| - 1];
      PapersStayWellFormed(paper, es[..|es| - 1]);
      match e
      case Import(a, problem, score, apId) => if Fresh(before, "", apId) { ImportKeeps(before, a, problem, score, "", apId); }
      case Create(a, n, at, id, apId) => if Fresh(before, id, apId) { CreateKeeps(before, a, n, at, id, apId); }
      case Update(id, c) => UpdateKeeps(before, id, c);
      case Points(apId, score) => if score.Some? { SyncKeeps(before, apId, score.value); }
      case RemoveItem(id) => DeleteItemKeeps(before, id);
      case RemoveProblem(apId) => DeleteProblemKeeps(before, apId);
    }
  }

  /** Authoring supplies what the stored totals rely on. */
  lemma WellFormedIsWellLinked(paper: Paper, db: Db)
    requires WellFormed(paper) && db.items == paper.items && db.problems == paper.problems
    ensures WellLinked(db)
  {
    forall i | i in db.items && Linked(i) ensures ProblemOf(db.problems, i.assignmentId, i.apId.value) {
      assert Sound(paper, i);
    }
  }

  /** Grading an item and grading the problem it wraps are one operation exactly when the two stored maxima agree. */
  lemma RoutesAgreeExactlyInLockstep(db: Db, item: Item, p: AssignmentProblem)
    requires UniqueKeys(db) && item in db.items && p in db.problems && Linked(item)
    requires p.id == item.apId.value && p.assignmentId == item.assignmentId
    ensures (forall user, g :: GradeItem(db, item.id, user, g) == UpdateScore(db, p.id, user, g)) <==> item.maxPoints == p.score
  {
    KeyedItem(db, item);
    KeyedProblem(db, p);
    hide Recomputed;
    if item.maxPoints != p.score {
      var g := Grade(if item.maxPoints < p.score then p.score else item.maxPoints, None);
      assert GradeItem(db, item.id, "", g) != UpdateScore(db, p.id, "", g);
    }
  }

  lemma KeyedItem(db: Db, item: Item)
    requires UniqueKeys(db) && item in db.items
    ensures First(db.items, HasKey(ItemKey, item.id)) == Some(item)
  {
    var i :| 0 <= i < |db.items| && db.items[i] == item;
    OneRowPerKey(db.items, ItemKey, item.id);
    assert ItemKey(item) == item.id && HasKey(ItemKey, item.id)(item);
    var j := IndexOf(db.items, HasKey(ItemKey, item.id)).value;
  }

  lemma KeyedProblem(db: Db, p: AssignmentProblem)
    requires UniqueKeys(db) && p in db.problems
    ensures First(db.problems, HasKey(ProblemKey, p.id)) == Some(p)
  {
    var i :| 0 <= i < |db.problems| && db.problems[i] == p;
    OneRowPerKey(db.problems, ProblemKey, p.id);
    assert ProblemKey(p) == p.id && HasKey(ProblemKey, p.id)(p);
    var j := IndexOf(db.problems, HasKey(ProblemKey, p.id)).value;
  }
}
