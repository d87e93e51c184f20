/**
 What a streak means, on day numbers: the block of consecutive active days that ends at a
 given day, and the longest block anywhere. The incremental rule keeps both.
 */
module Streaks {
  import opened Common

  datatype Streak = Streak(last: Option<int>, current: nat, longest: nat)

  /** The streak part of the award path: unchanged today, one more after yesterday, otherwise reset. */
  function Advance(s: Streak, today: int): Streak {
    if s.last == Some(today) then s
    else
      var current := if s.last == Some(today - 1) then s.current + 1 else 1;
      Streak(Some(today), current, if s.longest >= current then s.longest else current)
  }

  /** `n` consecutive active days from `lo`. */
  ghost predicate Block(days: set<int>, lo: int, n: nat) {
    forall day :: lo <= day < lo + n ==> day in days
  }

  /** `n` is the length of the maximal block of active days that ends at `day`. */
  ghost predicate BlockEndingAt(days: set<int>, day: int, n: nat) {
    Block(days, day - n + 1, n) && day - n !in days
  }

  /** `n` is the length of the longest block anywhere. */
  ghost predicate LongestBlock(days: set<int>, n: nat) {
    (exists lo :: Block(days, lo, n)) && (forall lo, m: nat :: Block(days, lo, m) ==> m <= n)
  }

  /** The stored counters mean what they say about the set of active days. */
  ghost predicate Means(days: set<int>, s: Streak) {
    match s.last
    case None => days == {} && s.current == 0 && s.longest == 0
    case Some(last) =>
      && last in days && (forall day :: day in days ==> day <= last)
      && BlockEndingAt(days, last, s.current)
      && LongestBlock(days, s.longest)
  }

  /** Blocks of a set whose greatest day is `today`: those that reach it end there. */
  lemma BlocksUpTo(days: set<int>, today: int, lo: int, m: nat)
    requires forall day :: day in days ==> day < today
    requires Block(days + {today}, lo, m) && m > 0
    ensures lo + m - 1 <= today
    ensures lo + m - 1 < today ==> Block(days, lo, m)
    ensures lo + m - 1 == today ==> Block(days, lo, m - 1)
  {
    assert lo + m - 1 in days + {today};
  }

  /** A block that ends where a maximal one does is no longer than it. */
  lemma NoLongerThanMaximal(days: set<int>, day: int, n: nat, lo: int, m: nat)
    requires BlockEndingAt(days, day, n) && Block(days, lo, m) && lo + m - 1 == day
    ensures m <= n
  {
    assert !(lo <= day - n < lo + m);
  }

  /** Every block through the new last day is accounted for by the new current streak. */
  lemma NewLongest(days: set<int>, s: Streak, today: int, lo: int, m: nat)
    requires Means(days, s) && (s.last.Some? ==> s.last.value < today)
    requires Block(days + {today}, lo, m)
    ensures m <= Advance(s, today).longest
  {
    if m > 0 {
      BlocksUpTo(days, today, lo, m);
      assert lo in days + {today};
      if lo + m - 1 == today && m > 1 {
        assert today - 1 in days;
        assert s.last == Some(today - 1);
        NoLongerThanMaximal(days, today - 1, s.current, lo, m - 1);
      }
    }
  }

  /** One event on a day not before the last one keeps the meaning. */
  lemma AdvanceKeepsMeaning(days: set<int>, s: Streak, today: int)
    requires Means(days, s)
    requires s.last.Some? ==> s.last.value <= today
    ensures Means(days + {today}, Advance(s, today))
  {
    var after := Advance(s, today);
    if s.last == Some(today) {
      assert days + {today} == days;
    } else {
      forall lo, m: nat | Block(days + {today}, lo, m)
        ensures m <= after.longest
      {
        NewLongest(days, s, today, lo, m);
      }
      assert BlockEndingAt(days + {today}, today, after.current);
      if after.longest == after.current {
        assert Block(days + {today}, today - after.current + 1, after.longest);
      } else {
        var lo :| Block(days, lo, s.longest);
        assert Block(days + {today}, lo, after.longest);
      }
    }
  }

  /**
   For an event on any day at all, even one before the last: the new current streak is the
   block ending at that day exactly when the day is not before the last one, or starts afresh.
   */
  lemma CurrentIsRightExactlyWhen(days: set<int>, s: Streak, today: int)
    requires Means(days, s)
    ensures BlockEndingAt(days + {today}, today, Advance(s, today).current)
       <==> s.last.None? || s.last.value <= today || today - 1 !in days
  {
    if s.last.None? || s.last.value <= today {
      AdvanceKeepsMeaning(days, s, today);
    } else if today - 1 in days {
      assert today - 1 in days + {today};
    }
  }

  // ---------------------------------------------------------------- days in any order

  /** What the counters still say when days may come in any order: blocks of these lengths exist. */
  ghost predicate Supported(days: set<int>, s: Streak) {
    match s.last
    case None => days == {} && s.current == 0 && s.longest == 0
    case Some(last) =>
      && last in days && 1 <= s.current <= s.longest
      && Block(days, last - s.current + 1, s.current)
      && exists lo :: Block(days, lo, s.longest)
  }

  lemma AdvanceKeepsSupported(days: set<int>, s: Streak, today: int)
    requires Supported(days, s)
    ensures Supported(days + {today}, Advance(s, today))
  {
    var after := Advance(s, today);
    if s.last.Some? {
      var lo :| Block(days, lo, s.longest);
      assert Block(days + {today}, lo, s.longest);
    }
    assert Block(days + {today}, today - after.current + 1, after.current);
  }

  /**
   For an event on any day new to the calendar, with `left` active days right before it and
   `right` right after: the longest streak is right afterwards exactly when the joined block is
   no longer than the longest so far, or the day is isolated, or it is the day after the last
   one and lengthens the current streak to the whole block.
   */
  lemma LongestIsRightExactlyWhen(days: set<int>, s: Streak, today: int, left: nat, right: nat)
    requires Supported(days, s) && LongestBlock(days, s.longest) && today !in days
    requires BlockEndingAt(days, today - 1, left)
    requires Block(days, today + 1, right) && today + 1 + right !in days
    ensures LongestBlock(days + {today}, Advance(s, today).longest)
       <==> left + 1 + right <= s.longest || left + right == 0
            || (s.last == Some(today - 1) && left + 1 + right <= s.current + 1)
  {
    var after := Advance(s, today);
    AdvanceKeepsSupported(days, s, today);
    assert Block(days + {today}, today - left, left + 1 + right);
    if left + 1 + right <= after.longest {
      forall lo, m: nat | Block(days + {today}, lo, m) ensures m <= after.longest {
        if lo <= today < lo + m {
          assert !(lo <= today - 1 - left);
          assert !(today + 1 + right < lo + m);
        } else {
          assert Block(days, lo, m);
        }
      }
    }
  }

  // ---------------------------------------------------------------- histories in any order

  /** The counters after events on these days, in this order. */
  ghost function Played(days: seq<int>): Streak {
    if days == [] then Streak(None, 0, 0) else Advance(Played(days[..|days| - 1]), days[|days| - 1])
  }

  ghost function Active(days: seq<int>): set<int> {
    set d | d in days
  }

  lemma {:induction false} PlayedIsSupported(days: seq<int>)
    ensures Supported(Active(days), Played(days))
    ensures days != [] ==> Played(days).last == Some(days[|days| - 1])
  {
    if days != [] {
      var init, last := days[..|days| - 1], days[|days| - 1];
      PlayedIsSupported(init);
      AdvanceKeepsSupported(Active(init), Played(init), last);
      assert days == init + [last];
      assert Active(days) == Active(init) + {last};
    } else {
      assert Active(days) == {};
    }
  }

  /** From event `i` to event `k` the days climb one at a time: repeats, but no gap and no step back. */
  ghost predicate Climbs(days: seq<int>, i: nat, k: nat) {
    i <= k < |days| && forall j :: i < j <= k ==> days[j - 1] <= days[j] <= days[j - 1] + 1
  }

  /** Some climb that ends with event `k` spans `n` days, and none spans more. */
  ghost predicate HighestTo(days: seq<int>, k: nat, n: nat)
    requires k < |days|
  {
    (exists i: nat :: Climbs(days, i, k) && days[k] - days[i] + 1 == n) && (forall i: nat :: Climbs(days, i, k) ==> days[k] - days[i] + 1 <= n)
  }

  lemma HighestToInPrefix(days: seq<int>, m: nat, k: nat, n: nat)
    requires k < m <= |days|
    ensures HighestTo(days[..m], k, n) <==> HighestTo(days, k, n)
  {
    forall i: nat ensures Climbs(days[..m], i, k) <==> Climbs(days, i, k) {
    }
  }

  /** One more event prolongs every climb, or starts afresh. */
  lemma HighestGrows(days: seq<int>, k: nat, n: nat)
    requires 0 < k < |days| && HighestTo(days, k - 1, n)
    ensures HighestTo(days, k, if days[k] == days[k - 1] then n else if days[k] == days[k - 1] + 1 then n + 1 else 1)
  {
    assert Climbs(days, k, k) && Climbs(days, k - 1, k - 1);
    forall i: nat | i < k ensures Climbs(days, i, k) <==> Climbs(days, i, k - 1) && days[k - 1] <= days[k] <= days[k - 1] + 1 {
    }
    var i: nat :| Climbs(days, i, k - 1) && days[k - 1] - days[i] + 1 == n;
    assert days[k - 1] <= days[k] <= days[k - 1] + 1 ==> Climbs(days, i, k);
  }

  /** The current streak is the longest climb to the last event. */
  lemma {:induction false} CurrentIsTheLastClimb(days: seq<int>)
    requires days != []
    ensures HighestTo(days, |days| - 1, Played(days).current)
  {
    hide HighestTo;
    var k := |days| - 1;
    if k == 0 {
      FirstClimb(days);
      assert days[..0] == [];
    } else {
      var init := days[..k];
      CurrentIsTheLastClimb(init);
      PlayedIsSupported(init);
      HighestToInPrefix(days, k, k - 1, Played(init).current);
      HighestGrows(days, k, Played(init).current);
    }
  }

  lemma FirstClimb(days: seq<int>)
    requires days != []
    ensures HighestTo(days, 0, 1)
  {
    assert Climbs(days, 0, 0);
  }

  /** The longest streak is the longest climb anywhere. */
  lemma {:induction false} LongestIsTheLongestClimb(days: seq<int>)
    requires days != []
    ensures exists k: nat :: k < |days| && HighestTo(days, k, Played(days).longest)
    ensures forall i: nat, k: nat :: Climbs(days, i, k) ==> days[k] - days[i] + 1 <= Played(days).longest
  {
    hide Climbs;
    var last := |days| - 1;
    var init := days[..last];
    CurrentIsTheLastClimb(days);
    PlayedIsSupported(init);
    assert Climbs(days, last, last) by { LastClimbsAlone(days); }
    if init != [] {
      LongestIsTheLongestClimb(init);
      var k: nat :| k < |init| && HighestTo(init, k, Played(init).longest);
      HighestToInPrefix(days, last, k, Played(init).longest);
    }
    forall i: nat, k: nat | Climbs(days, i, k) ensures i <= k < |days| && days[k] - days[i] + 1 <= Played(days).longest {
      ClimbsWithin(days, i, k);
      if k < last {
        assert Climbs(init, i, k);
      }
    }
  }

  lemma LastClimbsAlone(days: seq<int>)
    requires days != []
    ensures Climbs(days, |days| - 1, |days| - 1)
  {
  }

  lemma ClimbsWithin(days: seq<int>, i: nat, k: nat)
    requires Climbs(days, i, k)
    ensures i <= k < |days| && (k < |days| - 1 ==> Climbs(days[..|days| - 1], i, k))
  {
  }

  /**
   Whatever the order, the counters never exceed the blocks they stand for; the current one is
   right exactly when the history climbs through the whole block that ends at the last day, and
   the longest one exactly when it climbs through some longest block.
   */
  lemma StreaksAreRightExactlyWhenClimbed(days: seq<int>, ending: nat, longest: nat)
    requires days != [] && BlockEndingAt(Active(days), days[|days| - 1], ending) && LongestBlock(Active(days), longest)
    ensures var s := Played(days);
            && s.current <= ending && s.longest <= longest
            && (s.current == ending <==> exists i: nat :: Climbs(days, i, |days| - 1) && days[i] == days[|days| - 1] - ending + 1)
            && (s.longest == longest <==> exists i: nat, k: nat :: Climbs(days, i, k) && days[k] - days[i] + 1 == longest)
  {
    PlayedIsSupported(days);
    CurrentIsTheLastClimb(days);
    LongestIsTheLongestClimb(days);
    var s, last := Played(days), days[|days| - 1];
    NoLongerThanMaximal(Active(days), last, ending, last - s.current + 1, s.current);
  }

  /** `effectiveStreak`: a streak that reached neither today nor yesterday has lapsed. */
  function Effective(s: Streak, today: int): nat {
    if s.last == Some(today) || s.last == Some(today - 1) then s.current else 0
  }

  /** The effective streak is the block ending today, else the one ending yesterday, else nothing. */
  lemma EffectiveMeaning(days: set<int>, s: Streak, today: int)
    requires Means(days, s) && forall day :: day in days ==> day <= today
    ensures today in days ==> BlockEndingAt(days, today, Effective(s, today))
    ensures today !in days && today - 1 in days ==> BlockEndingAt(days, today - 1, Effective(s, today))
    ensures today !in days && today - 1 !in days ==> Effective(s, today) == 0
    ensures Effective(s, today) > 0 <==> today in days || today - 1 in days
  {
    if s.last.Some? {
      var last := s.last.value;
      assert s.current == 0 ==> last !in days;
    }
  }

  /** The block ending at a day has only one length. */
  lemma BlockLengthUnique(days: set<int>, day: int, n: nat, m: nat)
    requires BlockEndingAt(days, day, n) && BlockEndingAt(days, day, m)
    ensures n == m
  {
    NoLongerThanMaximal(days, day, n, day - m + 1, m);
    NoLongerThanMaximal(days, day, m, day - n + 1, n);
  }
}
