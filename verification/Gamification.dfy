/**
 The practice award path: streak, daily activity, first solves, points ledger and the
 aggregate that denormalises them, for one user; then the service over all users.
 */
module Gamification {
  import opened Common
  import opened Roles
  import opened Calendar
  import opened Streaks

  type UserId = nat
  type ProblemId = nat
  type SubmissionId = nat

  datatype Difficulty = Easy | Medium | Hard

  /** `pointsForDifficulty`. */
  function Points(difficulty: Difficulty): nat {
    match difficulty
    case Easy => 10
    case Medium => 25
    case Hard => 50
  }

  /** The `user_gamification` row. */
  datatype Aggregate = Aggregate(
    totalPoints: nat, easySolved: nat, mediumSolved: nat, hardSolved: nat,
    currentStreak: nat, longestStreak: nat, lastActivityDate: Option<string>)

  /** A `daily_activity` row. */
  datatype DayCount = DayCount(submissions: nat, solved: nat)

  /** All the rows of one user: unique per date, per problem and per ledger reference. */
  datatype Profile = Profile(
    agg: Aggregate, daily: map<string, DayCount>,
    solved: map<ProblemId, Difficulty>, ledger: map<ProblemId, nat>)

  const NO_ACTIVITY := Profile(Aggregate(0, 0, 0, 0, 0, 0, None), map[], map[], map[])

  /** A finalized practice submission on a local date; `accepted` carries the problem when it was an Accept. */
  datatype Event = Event(today: string, accepted: Option<(ProblemId, Difficulty)>)

  /** The date strings the award path receives. */
  predicate LocalDate(s: string) {
    FullDate(s) && Parse(s).y >= 100
  }

  // ---------------------------------------------------------------- the award path

  function WithStreak(agg: Aggregate, today: string): Aggregate
    requires FullDate(today)
  {
    if agg.lastActivityDate == Some(today) then agg
    else
      var current := if agg.lastActivityDate == Some(SubtractDay(today)) then agg.currentStreak + 1 else 1;
      agg.(currentStreak := current,
           longestStreak := if agg.longestStreak >= current then agg.longestStreak else current,
           lastActivityDate := Some(today))
  }

  /** The streak rule records today and leaves the points alone. */
  lemma WithStreakFrame(agg: Aggregate, today: string)
    requires FullDate(today)
    ensures var after := WithStreak(agg, today);
      && after.lastActivityDate == Some(today)
      && after.totalPoints == agg.totalPoints && after.easySolved == agg.easySolved
      && after.mediumSolved == agg.mediumSolved && after.hardSolved == agg.hardSolved
  {
    hide FullDate, SubtractDay;
  }

  /** The daily upsert. */
  function WithSubmission(daily: map<string, DayCount>, today: string): map<string, DayCount> {
    var row := if today in daily then daily[today] else DayCount(0, 0);
    daily[today := row.(submissions := row.submissions + 1)]
  }

  function WithSolve(agg: Aggregate, difficulty: Difficulty): Aggregate {
    var paid := agg.(totalPoints := agg.totalPoints + Points(difficulty));
    match difficulty
    case Easy => paid.(easySolved := paid.easySolved + 1)
    case Medium => paid.(mediumSolved := paid.mediumSolved + 1)
    case Hard => paid.(hardSolved := paid.hardSolved + 1)
  }

  /** The reward part: a first solve is recorded, and paid unless the ledger already has it. */
  function WithReward(p: Profile, today: string, problem: ProblemId, difficulty: Difficulty): Profile
    requires today in p.daily
  {
    if problem in p.solved then p
    else
      var solved := p.solved[problem := difficulty];
      if problem in p.ledger then p.(solved := solved)
      else
        var row := p.daily[today];
        Profile(WithSolve(p.agg, difficulty), p.daily[today := row.(solved := row.solved + 1)],
                solved, p.ledger[problem := Points(difficulty)])
  }

  /** The transaction of `handleFinalizedSubmission`, with both unique-key guards. */
  function Award(p: Profile, e: Event): Profile
    requires FullDate(e.today)
  {
    var active := p.(agg := WithStreak(p.agg, e.today), daily := WithSubmission(p.daily, e.today));
    if e.accepted.None? then active else WithReward(active, e.today, e.accepted.value.0, e.accepted.value.1)
  }

  ghost predicate WellDated(events: seq<Event>) {
    forall i :: 0 <= i < |events| ==> LocalDate(events[i].today)
  }

  /** The local dates never go back. */
  ghost predicate NonDecreasing(events: seq<Event>)
    requires WellDated(events)
  {
    forall i, j :: 0 <= i < j < |events| ==> Day(events[i].today) <= Day(events[j].today)
  }

  /** The rows after a history of events, starting from none. */
  ghost function History(events: seq<Event>): Profile
    requires WellDated(events)
  {
    if events == [] then NO_ACTIVITY
    else Award(History(events[..|events| - 1]), events[|events| - 1])
  }

  // ---------------------------------------------------------------- points conservation

  function OfDifficulty(difficulty: Difficulty): Difficulty -> bool {
    d => d == difficulty
  }

  function Amount(): nat -> int { (points: nat) => points }
  function SolvedOf(): DayCount -> int { (row: DayCount) => row.solved }
  function SubmissionsOf(): DayCount -> int { (row: DayCount) => row.submissions }

  /** The aggregate agrees with the ledger, the solved rows and the daily rows. */
  ghost predicate Conserved(p: Profile, events: nat) {
    && p.solved.Keys == p.ledger.Keys
    && (forall q :: q in p.solved ==> p.ledger[q] == Points(p.solved[q]))
    && p.agg.totalPoints == Sum(p.ledger, Amount())
    && p.agg.totalPoints == 10 * p.agg.easySolved + 25 * p.agg.mediumSolved + 50 * p.agg.hardSolved
    && p.agg.easySolved == Count(p.solved, OfDifficulty(Easy))
    && p.agg.mediumSolved == Count(p.solved, OfDifficulty(Medium))
    && p.agg.hardSolved == Count(p.solved, OfDifficulty(Hard))
    && Sum(p.daily, SolvedOf()) == |p.ledger|
    && Sum(p.daily, SubmissionsOf()) == events
  }

  lemma SubmissionCounted(p: Profile, today: string)
    ensures Sum(WithSubmission(p.daily, today), SubmissionsOf()) == Sum(p.daily, SubmissionsOf()) + 1
    ensures Sum(WithSubmission(p.daily, today), SolvedOf()) == Sum(p.daily, SolvedOf())
  {
    var row := if today in p.daily then p.daily[today] else DayCount(0, 0);
    SumUpdate(p.daily, today, row.(submissions := row.submissions + 1), SubmissionsOf());
    SumUpdate(p.daily, today, row.(submissions := row.submissions + 1), SolvedOf());
  }

  /** What a first solve adds to each sum and count. */
  lemma SolveCounted(p: Profile, today: string, problem: ProblemId, difficulty: Difficulty)
    requires problem !in p.solved && p.solved.Keys == p.ledger.Keys
    ensures var daily := WithSubmission(p.daily, today);
            var row := daily[today];
            var after := daily[today := row.(solved := row.solved + 1)];
            Sum(after, SubmissionsOf()) == Sum(p.daily, SubmissionsOf()) + 1 && Sum(after, SolvedOf()) == Sum(p.daily, SolvedOf()) + 1
    ensures Sum(p.ledger[problem := Points(difficulty)], Amount()) == Sum(p.ledger, Amount()) + Points(difficulty)
    ensures |p.ledger[problem := Points(difficulty)]| == |p.ledger| + 1
    ensures forall d :: Count(p.solved[problem := difficulty], OfDifficulty(d)) == Count(p.solved, OfDifficulty(d)) + (if d == difficulty then 1 else 0)
  {
    hide Count, Sum;
    SubmissionCounted(p, today);
    var daily := WithSubmission(p.daily, today);
    var row := daily[today];
    SumUpdate(daily, today, row.(solved := row.solved + 1), SubmissionsOf());
    SumUpdate(daily, today, row.(solved := row.solved + 1), SolvedOf());
    SumUpdate(p.ledger, problem, Points(difficulty), Amount());
    forall d
      ensures Count(p.solved[problem := difficulty], OfDifficulty(d)) == Count(p.solved, OfDifficulty(d)) + (if d == difficulty then 1 else 0)
    {
      CountUpdate(p.solved, problem, difficulty, OfDifficulty(d));
    }
  }

  /** A first solve of an active profile. */
  lemma SolveConserves(p: Profile, e: Event, events: nat)
    requires Conserved(p, events) && FullDate(e.today) && e.accepted.Some? && e.accepted.value.0 !in p.solved
    ensures Conserved(Award(p, e), events + 1)
  {
    hide FullDate, WithStreak, WithSubmission, Count, Sum;
    WithStreakFrame(p.agg, e.today);
    SolveCounted(p, e.today, e.accepted.value.0, e.accepted.value.1);
  }

  lemma PlainEventConserves(p: Profile, e: Event, events: nat)
    requires Conserved(p, events) && FullDate(e.today) && !(e.accepted.Some? && e.accepted.value.0 !in p.solved)
    ensures Conserved(Award(p, e), events + 1)
  {
    hide FullDate, WithStreak, WithSubmission, Count, Sum, Points;
    WithStreakFrame(p.agg, e.today);
    SubmissionCounted(p, e.today);
  }

  /** One event, fresh or re-fired, on any date, keeps every total in agreement. */
  lemma AwardConserves(p: Profile, e: Event, events: nat)
    requires Conserved(p, events) && FullDate(e.today)
    ensures Conserved(Award(p, e), events + 1)
  {
    hide Conserved, Award, FullDate;
    if e.accepted.Some? && e.accepted.value.0 !in p.solved {
      SolveConserves(p, e, events);
    } else {
      PlainEventConserves(p, e, events);
    }
  }

  /** The problems a history accepted at least once. */
  ghost function AcceptedProblems(events: seq<Event>): set<ProblemId> {
    set i | 0 <= i < |events| && events[i].accepted.Some? :: events[i].accepted.value.0
  }

  /** One event rewards the problem it accepts, and no other. */
  lemma AwardSolves(p: Profile, e: Event)
    requires FullDate(e.today)
    ensures Award(p, e).solved.Keys == p.solved.Keys + (if e.accepted.Some? then {e.accepted.value.0} else {})
  {
    hide FullDate, WithStreak;
  }

  lemma AcceptedStep(init: seq<Event>, last: Event)
    ensures AcceptedProblems(init + [last]) == AcceptedProblems(init) + (if last.accepted.Some? then {last.accepted.value.0} else {})
  {
    var events := init + [last];
    assert forall i :: 0 <= i < |init| ==> events[i] == init[i];
    assert events[|init|] == last;
  }

  /**
   After any history, whatever its order and however often an event is re-fired, the totals
   agree, and the rewarded problems are exactly the accepted ones.
   */
  lemma {:induction false} PointsAreConserved(events: seq<Event>)
    requires WellDated(events)
    ensures Conserved(History(events), |events|)
    ensures History(events).solved.Keys == AcceptedProblems(events)
  {
    hide FullDate, Parse, Conserved, Award, AcceptedProblems;
    if events == [] {
      EmptyIsConserved();
    } else {
      var init, last := events[..|events| - 1], events[|events| - 1];
      PointsAreConserved(init);
      AwardConserves(History(init), last, |init|);
      AwardSolves(History(init), last);
      AcceptedStep(init, last);
      assert init + [last] == events;
    }
  }

  lemma EmptyIsConserved()
    ensures Conserved(NO_ACTIVITY, 0) && NO_ACTIVITY.solved.Keys == AcceptedProblems([])
  {
    forall difficulty
      ensures Matching(NO_ACTIVITY.solved, OfDifficulty(difficulty)) == {}
    {
    }
  }

  /** Re-firing an event pays nothing: it only counts one more submission. */
  lemma RefiringPaysNothing(p: Profile, e: Event)
    requires FullDate(e.today) && p.solved.Keys == p.ledger.Keys
    ensures var once := Award(p, e);
            var twice := Award(once, e);
            twice == once.(daily := WithSubmission(once.daily, e.today))
  {
    hide FullDate, WithSubmission, WithSolve, WithStreak;
    WithStreakFrame(p.agg, e.today);
    var once := Award(p, e);
    assert once.agg.lastActivityDate == Some(e.today) by {
      SolveKeepsDate(WithStreak(p.agg, e.today));
    }
    SameDaySameStreak(once.agg, e.today);
  }

  lemma SolveKeepsDate(agg: Aggregate)
    ensures forall d :: WithSolve(agg, d).lastActivityDate == agg.lastActivityDate
  {
  }

  lemma SameDaySameStreak(agg: Aggregate, today: string)
    requires FullDate(today) && agg.lastActivityDate == Some(today)
    ensures WithStreak(agg, today) == agg
  {
  }

  // ---------------------------------------------------------------- streaks

  ghost predicate DatesValid(p: Profile) {
    && (forall s :: s in p.daily ==> LocalDate(s))
    && (p.agg.lastActivityDate.Some? ==> LocalDate(p.agg.lastActivityDate.value))
  }

  ghost function ActiveDays(p: Profile): set<int>
    requires DatesValid(p)
  {
    set s | s in p.daily :: Day(s)
  }

  /** The streak counters as day numbers. */
  ghost function StreakOf(agg: Aggregate): Streak
    requires agg.lastActivityDate.Some? ==> FullDate(agg.lastActivityDate.value)
  {
    Streak(if agg.lastActivityDate.Some? then Some(Day(agg.lastActivityDate.value)) else None, agg.currentStreak, agg.longestStreak)
  }

  /** Comparing date strings is comparing day numbers. */
  lemma StringsAreDays(last: string, today: string)
    requires LocalDate(last) && LocalDate(today)
    ensures last == today <==> Day(last) == Day(today)
    ensures last == SubtractDay(today) <==> Day(last) == Day(today) - 1
  {
    hide Day, Parse, ValidDate;
    SubtractDayIsPredecessorExactlyFromYear100(today);
    if Day(last) == Day(today) { DayInjective(last, today); }
    if Day(last) == Day(today) - 1 { DayInjective(last, SubtractDay(today)); }
  }

  /** The string rule of the award path is the day-number rule. */
  lemma WithStreakIsAdvance(agg: Aggregate, today: string)
    requires LocalDate(today) && (agg.lastActivityDate.Some? ==> LocalDate(agg.lastActivityDate.value))
    ensures StreakOf(WithStreak(agg, today)) == Advance(StreakOf(agg), Day(today))
  {
    hide FullDate, Day, SubtractDay;
    if agg.lastActivityDate.Some? {
      StringsAreDays(agg.lastActivityDate.value, today);
    }
  }

  lemma AwardDates(p: Profile, e: Event)
    requires DatesValid(p) && LocalDate(e.today)
    ensures DatesValid(Award(p, e))
    ensures ActiveDays(Award(p, e)) == ActiveDays(p) + {Day(e.today)}
    ensures StreakOf(Award(p, e).agg) == Advance(StreakOf(p.agg), Day(e.today))
  {
    hide FullDate, Day, Parse, WithStreak, Advance;
    WithStreakIsAdvance(p.agg, e.today);
    WithStreakFrame(p.agg, e.today);
    var after := Award(p, e);
    assert after.daily.Keys == p.daily.Keys + {e.today};
  }

  /**
   For every history with non-decreasing local dates, the stored counters are the length of
   the block of consecutive active days ending at the last activity, and the longest block.
   */
  lemma {:induction false} StreaksMeanWhatTheySay(events: seq<Event>)
    requires WellDated(events) && NonDecreasing(events)
    ensures var p := History(events);
      && DatesValid(p)
      && ActiveDays(p) == (set i | 0 <= i < |events| :: Day(events[i].today))
      && Means(ActiveDays(p), StreakOf(p.agg))
  {
    hide FullDate, Day, Parse, Award;
    if events == [] {
      assert ActiveDays(NO_ACTIVITY) == {};
    } else {
      var init, last := events[..|events| - 1], events[|events| - 1];
      StreaksMeanWhatTheySay(init);
      var p := History(init);
      AwardDates(p, last);
      assert StreakOf(p.agg).last.Some? ==> StreakOf(p.agg).last.value in ActiveDays(p);
      AdvanceKeepsMeaning(ActiveDays(p), StreakOf(p.agg), Day(last.today));
      assert events == init + [last];
      assert (set i | 0 <= i < |events| :: Day(events[i].today)) == (set i | 0 <= i < |init| :: Day(init[i].today)) + {Day(last.today)};
    }
  }

  /** The days of the events, in their order. */
  ghost function DaysOf(events: seq<Event>): seq<int>
    requires WellDated(events)
  {
    seq(|events|, i requires 0 <= i < |events| => Day(events[i].today))
  }

  /** The stored streak of any history is that of its days. */
  lemma {:induction false} StreakOfHistory(events: seq<Event>)
    requires WellDated(events)
    ensures var p := History(events);
      && DatesValid(p) && ActiveDays(p) == Active(DaysOf(events)) && StreakOf(p.agg) == Played(DaysOf(events))
  {
    hide FullDate, Day, Parse, Award, Advance;
    if events == [] {
      assert ActiveDays(NO_ACTIVITY) == {};
    } else {
      var init, last := events[..|events| - 1], events[|events| - 1];
      StreakOfHistory(init);
      AwardDates(History(init), last);
      assert DaysOf(events)[..|events| - 1] == DaysOf(init);
      assert DaysOf(events) == DaysOf(init) + [Day(last.today)];
      assert Active(DaysOf(events)) == Active(DaysOf(init)) + {Day(last.today)};
    }
  }

  /**
   Whatever the order of the days, and `today` is computed before the row is locked, the stored
   streaks never exceed the true ones. The current one is right exactly when the events climb,
   day by day, through the block that ends at the last day; the longest one exactly when they
   climb through some longest block.
   */
  lemma StreaksNeverOverstate(events: seq<Event>, ending: nat, longest: nat)
    requires WellDated(events) && events != []
    requires BlockEndingAt(Active(DaysOf(events)), DaysOf(events)[|events| - 1], ending) && LongestBlock(Active(DaysOf(events)), longest)
    ensures var p := History(events); var days := DaysOf(events);
            && p.agg.currentStreak <= ending && p.agg.longestStreak <= longest
            && (p.agg.currentStreak == ending <==> exists i: nat :: Climbs(days, i, |days| - 1) && days[i] == days[|days| - 1] - ending + 1)
            && (p.agg.longestStreak == longest <==> exists i: nat, k: nat :: Climbs(days, i, k) && days[k] - days[i] + 1 == longest)
  {
    hide FullDate, Day, Parse, Award, SubtractDay, ActiveDays, Played, DatesValid, BlockEndingAt, LongestBlock, Active, Climbs, History;
    StreakOfHistory(events);
    StreaksAreRightExactlyWhenClimbed(DaysOf(events), ending, longest);
  }

  /** Three days in a row, the middle one awarded last: both stored streaks are one, the true ones two and three. */
  lemma ABackdatedEventLosesTheStreak(first: string, second: string, third: string)
    requires LocalDate(first) && LocalDate(second) && LocalDate(third)
    requires Day(second) == Day(first) + 1 && Day(third) == Day(first) + 2
    ensures var p := History([Event(first, None), Event(third, None), Event(second, None)]);
            && DatesValid(p) && p.agg.currentStreak == 1 && p.agg.longestStreak == 1
            && BlockEndingAt(ActiveDays(p), Day(second), 2) && LongestBlock(ActiveDays(p), 3)
  {
    hide FullDate, Day, Parse, SubtractDay, DatesValid, ActiveDays;
    var a, b, c := Event(first, None), Event(third, None), Event(second, None);
    var events := [a, b, c];
    StreakOfHistory(events);
    StringsAreDays(first, third);
    StringsAreDays(third, second);
    AwardsInTurn(a, b, c);
    assert DaysOf(events) == [Day(first), Day(third), Day(second)];
    ThreeDays(Active(DaysOf(events)), Day(first));
  }

  lemma AwardsInTurn(a: Event, b: Event, c: Event)
    requires LocalDate(a.today) && LocalDate(b.today) && LocalDate(c.today)
    ensures WellDated([a, b, c]) && History([a, b, c]) == Award(Award(Award(NO_ACTIVITY, a), b), c)
  {
    hide FullDate, Award, Parse;
    assert [a, b, c][..2] == [a, b] && [a, b][..1] == [a] && [a][..0] == [];
    assert WellDated([a]) && WellDated([a, b]) && WellDated([a, b, c]);
    assert History([]) == NO_ACTIVITY;
    assert History([a]) == Award(NO_ACTIVITY, a);
    assert History([a, b]) == Award(History([a]), b);
  }

  lemma ThreeDays(days: set<int>, day: int)
    requires forall x :: x in days <==> day <= x <= day + 2
    ensures BlockEndingAt(days, day + 1, 2) && LongestBlock(days, 3)
  {
    assert Block(days, day, 3);
    forall lo, m: nat | Block(days, lo, m) ensures m <= 3 {
      assert m == 0 || lo in days;
      assert m <= 3 || lo + 3 in days;
    }
  }

  /** `effectiveStreak`. */
  function EffectiveStreak(lastActivityDate: Option<string>, stored: nat, today: string): nat
    requires FullDate(today)
  {
    if lastActivityDate.None? then 0
    else if lastActivityDate.value == today || lastActivityDate.value == SubtractDay(today) then stored
    else 0
  }

  /**
   The summary a user reads on a day no earlier than their last event: the block of active
   days that reaches today, else the one that reached yesterday, else zero.
   */
  lemma EffectiveStreakMeaning(events: seq<Event>, today: string)
    requires WellDated(events) && NonDecreasing(events) && LocalDate(today)
    requires forall i :: 0 <= i < |events| ==> Day(events[i].today) <= Day(today)
    ensures DatesValid(History(events))
    ensures var p := History(events);
            var effective := EffectiveStreak(p.agg.lastActivityDate, p.agg.currentStreak, today);
            var days := ActiveDays(p);
      && (Day(today) in days ==> BlockEndingAt(days, Day(today), effective))
      && (Day(today) !in days && Day(today) - 1 in days ==> BlockEndingAt(days, Day(today) - 1, effective))
      && (Day(today) !in days && Day(today) - 1 !in days ==> effective == 0)
  {
    hide FullDate, Day, Parse, SubtractDay;
    StreaksMeanWhatTheySay(events);
    var p := History(events);
    if p.agg.lastActivityDate.Some? {
      StringsAreDays(p.agg.lastActivityDate.value, today);
    }
    EffectiveMeaning(ActiveDays(p), StreakOf(p.agg), Day(today));
  }

  // ---------------------------------------------------------------- the service

  datatype Context = Practice | Assignment

  datatype Submission = Submission(context: Context, userId: UserId, problemId: Option<ProblemId>, accepted: bool)

  /** The guards of `handleFinalizedSubmission`: who is awarded, and for which problem. */
  function Qualifies(submissions: map<SubmissionId, Submission>, users: map<UserId, Role>, id: SubmissionId): Option<(UserId, ProblemId, bool)> {
    if id !in submissions then None
    else
      var s := submissions[id];
      if s.context != Practice || s.problemId.None? || s.userId !in users || users[s.userId] != Student then None
      else Some((s.userId, s.problemId.value, s.accepted))
  }

  class Service {
    const submissions: map<SubmissionId, Submission>
    const users: map<UserId, Role>
    const problems: map<ProblemId, Difficulty>
    var profiles: map<UserId, Profile>

    constructor (submissions: map<SubmissionId, Submission>, users: map<UserId, Role>, problems: map<ProblemId, Difficulty>)
      ensures this.submissions == submissions && this.users == users && this.problems == problems && profiles == map[]
    {
      this.submissions, this.users, this.problems, profiles := submissions, users, problems, map[];
    }

    /** The rows of a user who may not have any yet. */
    function ProfileOf(user: UserId): Profile
      reads this
    {
      if user in profiles then profiles[user] else NO_ACTIVITY
    }

    /** The event a submission stands for on a given local date. */
    function EventOf(id: SubmissionId, today: string): Event
      requires Qualifies(submissions, users, id).Some?
    {
      var (_, problem, accepted) := Qualifies(submissions, users, id).value;
      Event(today, if accepted && problem in problems then Some((problem, problems[problem])) else None)
    }

    /** The streak counters and the daily upsert. */
    method RecordActivity(row: Profile, today: string) returns (active: Profile)
      requires FullDate(today)
      ensures active == row.(agg := WithStreak(row.agg, today), daily := WithSubmission(row.daily, today))
    {
      hide FullDate, SubtractDay;
      var yesterday := SubtractDay(today);
      var agg := row.agg;
      if agg.lastActivityDate != Some(today) {
        agg := agg.(currentStreak := if agg.lastActivityDate == Some(yesterday) then agg.currentStreak + 1 else 1);
        agg := agg.(longestStreak := if agg.longestStreak >= agg.currentStreak then agg.longestStreak else agg.currentStreak);
        agg := agg.(lastActivityDate := Some(today));
      }
      var daily := row.daily;
      if today in daily {
        daily := daily[today := daily[today].(submissions := daily[today].submissions + 1)];
      } else {
        daily := daily[today := DayCount(1, 0)];
      }
      active := row.(agg := agg, daily := daily);
    }

    /** The two insert-if-absent guards and what hangs on them. */
    method RecordSolve(row: Profile, today: string, problem: ProblemId, difficulty: Difficulty) returns (rewarded: Profile)
      requires today in row.daily
      ensures rewarded == WithReward(row, today, problem, difficulty)
    {
      if problem in row.solved {
        return row;
      }
      var solved, ledger, agg, daily := row.solved[problem := difficulty], row.ledger, row.agg, row.daily;
      if problem !in ledger {
        var points := Points(difficulty);
        ledger := ledger[problem := points];
        agg := agg.(totalPoints := agg.totalPoints + points);
        if difficulty == Easy {
          agg := agg.(easySolved := agg.easySolved + 1);
        } else if difficulty == Medium {
          agg := agg.(mediumSolved := agg.mediumSolved + 1);
        } else if difficulty == Hard {
          agg := agg.(hardSolved := agg.hardSolved + 1);
        }
        daily := daily[today := daily[today].(solved := daily[today].solved + 1)];
      }
      rewarded := Profile(agg, daily, solved, ledger);
    }

    /** `handleFinalizedSubmission`. */
    method HandleFinalizedSubmission(id: SubmissionId, today: string)
      requires FullDate(today)
      modifies `profiles
      ensures Qualifies(submissions, users, id).None? ==> profiles == old(profiles)
      ensures Qualifies(submissions, users, id).Some? ==>
                var user := Qualifies(submissions, users, id).value.0;
                profiles == old(profiles)[user := Award(old(ProfileOf(user)), EventOf(id, today))]
    {
      hide FullDate, WithStreak, WithReward;
      if id !in submissions { return; }
      var submission := submissions[id];
      if submission.context != Practice { return; }
      if submission.problemId.None? { return; }
      if submission.userId !in users || users[submission.userId] != Student { return; }
      var user, problem := submission.userId, submission.problemId.value;

      var row := if user in profiles then profiles[user] else NO_ACTIVITY;
      row := RecordActivity(row, today);
      if submission.accepted && problem in problems {
        row := RecordSolve(row, today, problem, problems[problem]);
      }
      profiles := profiles[user := row];
    }

    /** `getSummary`: reads only; a user without rows gets the zero summary. */
    method GetSummary(user: UserId, today: string) returns (points: nat, effective: nat, longest: nat)
      requires FullDate(today)
      ensures var p := ProfileOf(user);
              points == p.agg.totalPoints && longest == p.agg.longestStreak
              && effective == EffectiveStreak(p.agg.lastActivityDate, p.agg.currentStreak, today)
    {
      if user !in profiles {
        return 0, 0, 0;
      }
      var agg := profiles[user].agg;
      var yesterday := SubtractDay(today);
      effective := 0;
      if agg.lastActivityDate == Some(today) || agg.lastActivityDate == Some(yesterday) {
        effective := agg.currentStreak;
      }
      return agg.totalPoints, effective, agg.longestStreak;
    }
  }
}
