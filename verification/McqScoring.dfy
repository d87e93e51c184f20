/**
 Scoring a multiple-choice answer: the selection is sanitized, then compared with the
 correct options as a set, all or nothing.
 */
module McqScoring {
  import opened Common
  import opened Tables
  import opened Grading

  datatype McqOption = McqOption(id: Id, text: string, correct: bool, orderIndex: int)

  function IsCorrect(): McqOption -> bool { (o: McqOption) => o.correct }

  function Ids(options: seq<McqOption>): set<Id> {
    set o | o in options :: o.id
  }

  /** `new Set(options.filter(o => o.isCorrect).map(o => o.id))`. */
  function CorrectIds(options: seq<McqOption>): set<Id> {
    Ids(Where(options, IsCorrect()))
  }

  function IsOption(options: seq<McqOption>): Id -> bool {
    (id: Id) => id in Ids(options)
  }

  function Sanitize(options: seq<McqOption>, selected: seq<Id>): seq<Id> {
    Where(Dedup(selected), IsOption(options))
  }

  /** The test of `saveMcqResponse`: sizes compared, then every selected id looked up. */
  predicate ExactMatch(options: seq<McqOption>, selected: seq<Id>) {
    var chosen, correct := Elems(Sanitize(options, selected)), CorrectIds(options);
    |correct| > 0 && |chosen| == |correct| && forall id :: id in chosen ==> id in correct
  }

  function Award(maxPoints: real, options: seq<McqOption>, selected: seq<Id>): real {
    if ExactMatch(options, selected) then maxPoints else 0.0
  }

  /** What `saveMcqResponse` stores once its checks have passed. */
  function SavedMcq(db: Db, item: Item, user: Id, options: seq<McqOption>, selected: seq<Id>): Db {
    SaveMcq(db, item, user, Sanitize(options, selected), Award(item.maxPoints, options, selected))
  }

  /** A sanitized selection is the chosen options, each once. */
  lemma SanitizeMembers(options: seq<McqOption>, selected: seq<Id>)
    ensures NoDup(Sanitize(options, selected))
    ensures Elems(Sanitize(options, selected)) == Elems(selected) * Ids(options)
  {
    DedupMembers(selected);
    WhereDistinct(Dedup(selected), IsOption(options));
    var s := Sanitize(options, selected);
    assert forall id :: id in s <==> id in Dedup(selected) && IsOption(options)(id);
  }

  /** Full points exactly when the chosen options are the correct ones, of which there is at least one. */
  lemma AwardedExactlyWhenTheSetsMatch(options: seq<McqOption>, selected: seq<Id>)
    ensures ExactMatch(options, selected) <==> CorrectIds(options) != {} && Elems(selected) * Ids(options) == CorrectIds(options)
  {
    SanitizeMembers(options, selected);
    var chosen, correct := Elems(selected) * Ids(options), CorrectIds(options);
    if ExactMatch(options, selected) {
      SubsetCard(chosen, correct);
    }
  }

  /** Order, repeats and ids of other items make no difference, and neither does re-saving what was stored. */
  lemma AwardIgnoresNoise(maxPoints: real, options: seq<McqOption>, x: seq<Id>, y: seq<Id>)
    requires Elems(x) * Ids(options) == Elems(y) * Ids(options)
    ensures Award(maxPoints, options, x) == Award(maxPoints, options, y)
    ensures Award(maxPoints, options, Sanitize(options, x)) == Award(maxPoints, options, x)
  {
    AwardedExactlyWhenTheSetsMatch(options, x);
    AwardedExactlyWhenTheSetsMatch(options, y);
    SanitizeMembers(options, x);
    assert Elems(Sanitize(options, x)) * Ids(options) == Elems(x) * Ids(options);
    AwardedExactlyWhenTheSetsMatch(options, Sanitize(options, x));
  }

  // ---------------------------------------------------------------- authoring

  function Correct(options: seq<McqOption>): nat {
    |Where(options, IsCorrect())|
  }

  /** `validateMcqOptions`. */
  predicate ValidOptions(options: seq<McqOption>, allowMultiple: bool) {
    |options| >= 2 && Correct(options) >= 1 && (allowMultiple || Correct(options) == 1)
  }

  /** On a valid single-answer question one option earns the points, alone. */
  lemma SingleAnswerHasOneWinner(options: seq<McqOption>, selected: seq<Id>)
    requires ValidOptions(options, false)
    ensures exists winner :: (winner in options && winner.correct && CorrectIds(options) == {winner.id}
                              && (ExactMatch(options, selected) <==> Elems(selected) * Ids(options) == {winner.id}))
  {
    var winner := Where(options, IsCorrect())[0];
    WhereMembers(options, IsCorrect());
    assert winner in Where(options, IsCorrect());
    assert Where(options, IsCorrect()) == [winner];
    assert CorrectIds(options) == {winner.id};
    AwardedExactlyWhenTheSetsMatch(options, selected);
  }

  /** A valid question can be won, by picking its correct options. */
  lemma ValidQuestionsCanBeWon(options: seq<McqOption>, allowMultiple: bool, selected: seq<Id>)
    requires ValidOptions(options, allowMultiple) && Elems(selected) == CorrectIds(options)
    ensures ExactMatch(options, selected)
  {
    WhereMembers(options, IsCorrect());
    assert Where(options, IsCorrect())[0] in Where(options, IsCorrect());
    assert Where(options, IsCorrect())[0].id in CorrectIds(options);
    assert CorrectIds(options) <= Ids(options);
    AwardedExactlyWhenTheSetsMatch(options, selected);
  }
}
