/**
 The recomputed total: the sum of the item scores the gradebook shows, plus whatever sits on
 problems no item wraps.
 */
module Rollups {
  import opened Common
  import opened Tables
  import opened Grading
  import opened RevealGate

  predicate LinksDiffer(x: Item, y: Item) {
    Linked(x) && Linked(y) ==> x.apId != y.apId
  }

  function DifferentLinks(): (Item, Item) -> bool { (x: Item, y: Item) => LinksDiffer(x, y) }

  function DifferentIds(): (Item, Item) -> bool { (x: Item, y: Item) => x.id != y.id }

  /** Coding items wrap problems one to one, each of its own assignment. */
  ghost predicate WellLinked(db: Db) {
    && Pairwise(db.items, DifferentLinks())
    && (forall i :: i in db.items && Linked(i) ==> ProblemOf(db.problems, i.assignmentId, i.apId.value))
  }

  /** The item scores a view shows, added up. */
  function ShownSum(lines: seq<ItemView>): real {
    if lines == [] then 0.0
    else
      var last := lines[|lines| - 1];
      ShownSum(lines[..|lines| - 1]) + if last.score.Some? then last.score.value else 0.0
  }

  /** Rows on problems of the assignment that no coding item wraps. */
  function UnwrappedRows(db: Db, a: Id, user: Id): ProblemScore -> bool {
    (r: ProblemScore) => CodingRows(db.problems, a, user)(r) && r.apId !in CodingAps(LoadItems(db, a))
  }

  function Unwrapped(db: Db, a: Id, user: Id): real {
    SumWhere(db.problemScores, UnwrappedRows(db, a, user), PsScore())
  }

  // ---------------------------------------------------------------- the gradebook's sum

  function Pairs(ids: seq<Id>, user: Id): seq<(Id, Id)> {
    seq(|ids|, i requires 0 <= i < |ids| => (ids[i], user))
  }

  lemma PairsGrow(ids: seq<Id>, id: Id, user: Id)
    ensures Pairs(ids + [id], user)[..|ids|] == Pairs(ids, user) && Pairs(ids + [id], user)[|ids|] == (id, user)
  {
  }

  /** The three kinds of items look their rows up by three lists of keys. */
  function LookupSum(db: Db, items: seq<Item>, user: Id): real {
    SumOfLookups(db.problemScores, PsKey, Pairs(CodingAps(items), user), PsScore())
    + SumOfLookups(db.mcq, McqKey, Pairs(IdsOfKind(items, Mcq), user), McqScore())
    + SumOfLookups(db.quiz, QuizKey, Pairs(IdsOfKind(items, Quiz), user), QuizScore())
  }

  function PlainLines(db: Db, items: seq<Item>, user: Id): seq<ItemView> {
    seq(|items|, i requires 0 <= i < |items| => PlainLine(db, items[i], user, true))
  }

  /** What one more item adds to each of the three lookups. */
  lemma LookupSumGrows(db: Db, init: seq<Item>, last: Item, user: Id)
    ensures LookupSum(db, init + [last], user)
         == LookupSum(db, init, user) + PlainLine(db, last, user, true).score.value
  {
    var items := init + [last];
    assert items[..|init|] == init;
    CodingSumGrows(db, init, last, user);
    McqSumGrows(db, init, last, user);
    QuizSumGrows(db, init, last, user);
  }

  lemma CodingSumGrows(db: Db, init: seq<Item>, last: Item, user: Id)
    ensures SumOfLookups(db.problemScores, PsKey, Pairs(CodingAps(init + [last]), user), PsScore())
         == SumOfLookups(db.problemScores, PsKey, Pairs(CodingAps(init), user), PsScore())
            + if Linked(last) then ValueOf(Last(db.problemScores, HasKey(PsKey, (last.apId.value, user))), PsScore()) else 0.0
  {
    assert (init + [last])[..|init|] == init;
    if Linked(last) {
      assert CodingAps(init + [last]) == CodingAps(init) + [last.apId.value];
      PairsGrow(CodingAps(init), last.apId.value, user);
    } else {
      assert CodingAps(init + [last]) == CodingAps(init);
    }
  }

  lemma McqSumGrows(db: Db, init: seq<Item>, last: Item, user: Id)
    ensures SumOfLookups(db.mcq, McqKey, Pairs(IdsOfKind(init + [last], Mcq), user), McqScore())
         == SumOfLookups(db.mcq, McqKey, Pairs(IdsOfKind(init, Mcq), user), McqScore())
            + if last.kind == Mcq then ValueOf(Last(db.mcq, HasKey(McqKey, (last.id, user))), McqScore()) else 0.0
  {
    assert (init + [last])[..|init|] == init;
    if last.kind == Mcq {
      assert IdsOfKind(init + [last], Mcq) == IdsOfKind(init, Mcq) + [last.id];
      PairsGrow(IdsOfKind(init, Mcq), last.id, user);
    } else {
      assert IdsOfKind(init + [last], Mcq) == IdsOfKind(init, Mcq);
    }
  }

  lemma QuizSumGrows(db: Db, init: seq<Item>, last: Item, user: Id)
    ensures SumOfLookups(db.quiz, QuizKey, Pairs(IdsOfKind(init + [last], Quiz), user), QuizScore())
         == SumOfLookups(db.quiz, QuizKey, Pairs(IdsOfKind(init, Quiz), user), QuizScore())
            + if last.kind == Quiz then ValueOf(Last(db.quiz, HasKey(QuizKey, (last.id, user))), QuizScore()) else 0.0
  {
    assert (init + [last])[..|init|] == init;
    if last.kind == Quiz {
      assert IdsOfKind(init + [last], Quiz) == IdsOfKind(init, Quiz) + [last.id];
      PairsGrow(IdsOfKind(init, Quiz), last.id, user);
    } else {
      assert IdsOfKind(init + [last], Quiz) == IdsOfKind(init, Quiz);
    }
  }

  lemma {:induction false} ShownSumIsLookupSum(db: Db, items: seq<Item>, user: Id)
    ensures ShownSum(PlainLines(db, items, user)) == LookupSum(db, items, user)
  {
    if items != [] {
      hide LookupSum;
      var init, last := items[..|items| - 1], items[|items| - 1];
      ShownSumIsLookupSum(db, init, user);
      assert PlainLines(db, items, user)[..|init|] == PlainLines(db, init, user);
      assert items == init + [last];
      LookupSumGrows(db, init, last, user);
    }
  }

  lemma {:induction false} CodingApsDistinct(items: seq<Item>)
    requires Pairwise(items, DifferentLinks())
    ensures NoDup(CodingAps(items))
  {
    if items != [] {
      var init, last := items[..|items| - 1], items[|items| - 1];
      CodingApsDistinct(init);
      CodingApsComplete(init);
      forall i | i in init ensures LinksDiffer(i, last) {
        var k :| 0 <= k < |init| && init[k] == i;
        assert DifferentLinks()(items[k], items[|items| - 1]);
      }
      if Linked(last) {
        assert CodingAps(items) == CodingAps(init) + [last.apId.value];
        NoDupSnoc(CodingAps(init), last.apId.value);
      } else {
        assert CodingAps(items) == CodingAps(init);
      }
    }
  }

  lemma {:induction false} IdsDistinct(items: seq<Item>, kind: Kind)
    requires Pairwise(items, DifferentIds())
    ensures NoDup(IdsOfKind(items, kind))
  {
    if items != [] {
      var init, last := items[..|items| - 1], items[|items| - 1];
      IdsDistinct(init, kind);
      IdsOfKindComplete(init, kind);
      forall i | i in init ensures i.id != last.id {
        var k :| 0 <= k < |init| && init[k] == i;
        assert DifferentIds()(items[k], items[|items| - 1]);
      }
      if last.kind == kind {
        assert IdsOfKind(items, kind) == IdsOfKind(init, kind) + [last.id];
        NoDupSnoc(IdsOfKind(init, kind), last.id);
      } else {
        assert IdsOfKind(items, kind) == IdsOfKind(init, kind);
      }
    }
  }

  lemma PairsDistinct(ids: seq<Id>, user: Id)
    requires NoDup(ids)
    ensures NoDup(Pairs(ids, user))
    ensures forall id, who :: (id, who) in Pairs(ids, user) <==> id in ids && who == user
  {
    forall id | id in ids ensures (id, user) in Pairs(ids, user) {
      var k :| 0 <= k < |ids| && ids[k] == id;
      assert Pairs(ids, user)[k] == (id, user);
    }
  }

  lemma CodingSum(db: Db, a: Id, user: Id)
    requires UniqueKeys(db) && WellLinked(db)
    ensures SumWhere(db.problemScores, CodingRows(db.problems, a, user), PsScore())
         == SumOfLookups(db.problemScores, PsKey, Pairs(CodingAps(LoadItems(db, a)), user), PsScore()) + Unwrapped(db, a, user)
  {
    var items := LoadItems(db, a);
    var keys := Pairs(CodingAps(items), user);
    WherePairwise(db.items, OfAssignment(a), DifferentLinks());
    CodingApsDistinct(items);
    PairsDistinct(CodingAps(items), user);
    LookupsAreOneSum(db.problemScores, PsKey, keys, PsScore());
    WhereMembers(db.items, OfAssignment(a));
    CodingApsComplete(items);
    forall r: ProblemScore | r in db.problemScores
      ensures CodingRows(db.problems, a, user)(r) <==> KeyIn(PsKey, keys)(r) || UnwrappedRows(db, a, user)(r)
      ensures !(KeyIn(PsKey, keys)(r) && UnwrappedRows(db, a, user)(r))
    {
      assert KeyIn(PsKey, keys)(r) <==> (r.apId, r.userId) in keys;
      if r.apId in CodingAps(items) {
        var i :| i in items && Linked(i) && i.apId.value == r.apId;
        assert ProblemOf(db.problems, i.assignmentId, r.apId);
      }
    }
    SumSplit(db.problemScores, CodingRows(db.problems, a, user), KeyIn(PsKey, keys), UnwrappedRows(db, a, user), PsScore());
  }

  lemma McqSum(db: Db, a: Id, user: Id)
    requires UniqueKeys(db)
    ensures SumWhere(db.mcq, McqRows(db.items, a, user), McqScore())
         == SumOfLookups(db.mcq, McqKey, Pairs(IdsOfKind(LoadItems(db, a), Mcq), user), McqScore())
  {
    var items := LoadItems(db, a);
    var keys := Pairs(IdsOfKind(items, Mcq), user);
    ItemIdsDistinct(db, a);
    IdsDistinct(items, Mcq);
    PairsDistinct(IdsOfKind(items, Mcq), user);
    LookupsAreOneSum(db.mcq, McqKey, keys, McqScore());
    WhereMembers(db.items, OfAssignment(a));
    IdsOfKindComplete(items, Mcq);
    forall r: McqResponse | r in db.mcq ensures McqRows(db.items, a, user)(r) <==> KeyIn(McqKey, keys)(r) {
      assert KeyIn(McqKey, keys)(r) <==> (r.itemId, r.userId) in keys;
    }
    SumCongruent(db.mcq, McqRows(db.items, a, user), KeyIn(McqKey, keys), McqScore());
  }

  lemma QuizSum(db: Db, a: Id, user: Id)
    requires UniqueKeys(db)
    ensures SumWhere(db.quiz, QuizRows(db.items, a, user), QuizScore())
         == SumOfLookups(db.quiz, QuizKey, Pairs(IdsOfKind(LoadItems(db, a), Quiz), user), QuizScore())
  {
    var items := LoadItems(db, a);
    var keys := Pairs(IdsOfKind(items, Quiz), user);
    ItemIdsDistinct(db, a);
    IdsDistinct(items, Quiz);
    PairsDistinct(IdsOfKind(items, Quiz), user);
    LookupsAreOneSum(db.quiz, QuizKey, keys, QuizScore());
    WhereMembers(db.items, OfAssignment(a));
    IdsOfKindComplete(items, Quiz);
    forall r: QuizResponse | r in db.quiz ensures QuizRows(db.items, a, user)(r) <==> KeyIn(QuizKey, keys)(r) {
      assert KeyIn(QuizKey, keys)(r) <==> (r.itemId, r.userId) in keys;
    }
    SumCongruent(db.quiz, QuizRows(db.items, a, user), KeyIn(QuizKey, keys), QuizScore());
  }

  lemma ItemIdsDistinct(db: Db, a: Id)
    requires UniqueKeys(db)
    ensures Pairwise(LoadItems(db, a), DifferentIds())
  {
    forall i, j | 0 <= i < j < |db.items| ensures DifferentIds()(db.items[i], db.items[j]) {
      assert ItemKey(db.items[i]) != ItemKey(db.items[j]);
    }
    WherePairwise(db.items, OfAssignment(a), DifferentIds());
  }

  /** The recomputed total is the gradebook's column sum plus the scores no item shows. */
  lemma RollupIsTheGradebookSum(db: Db, a: Id, user: Id)
    requires UniqueKeys(db) && WellLinked(db)
    ensures Rollup(db, a, user) == ShownSum(StudentScore(db, a, user, true).items) + Unwrapped(db, a, user)
  {
    var items := LoadItems(db, a);
    forall i | 0 <= i < |items| ensures StudentLine(db, items, items[i], user, true) == PlainLine(db, items[i], user, true) {
      LineIsPlain(db, items, items[i], user, true);
    }
    assert StudentScore(db, a, user, true).items == PlainLines(db, items, user);
    ShownSumIsLookupSum(db, items, user);
    CodingSum(db, a, user);
    McqSum(db, a, user);
    QuizSum(db, a, user);
  }

  /** Nothing is hidden when every problem of the assignment is wrapped by an item. */
  lemma NothingUnwrapped(db: Db, a: Id, user: Id)
    requires forall p :: p in db.problems && p.assignmentId == a ==> p.id in CodingAps(LoadItems(db, a))
    ensures Unwrapped(db, a, user) == 0.0
  {
    forall r: ProblemScore ensures !UnwrappedRows(db, a, user)(r) {
      if CodingRows(db.problems, a, user)(r) {
        var p :| p in db.problems && p.id == r.apId && p.assignmentId == a;
      }
    }
    SumNothing(db.problemScores, UnwrappedRows(db, a, user), PsScore());
  }
}
