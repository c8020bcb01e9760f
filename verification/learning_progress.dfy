/**
 * The learning-progress store: three cumulative counters, the day streak, the
 * number of days learned, and the fixed achievement catalogue whose unlocked
 * identifiers are kept in an append-only list.
 *
 * Calendar dates are integer day numbers chosen by the caller (the day of the
 * UTC date the browser reports); `Never` stands for the empty date string of a
 * fresh record.
 */
module LearningProgress {
  import opened Sequences

  datatype LastDate = Never | On(day: int)

  datatype LearningStats = LearningStats(
    totalAlphabetLearned: int,
    totalWordsLearned: int,
    totalLearningTime: int,  // minutes
    consecutiveDays: int,
    lastLearningDate: LastDate,
    totalDaysLearned: int)

  /** The record a fresh store starts from and a reset returns to. */
  const ZeroStats := LearningStats(0, 0, 0, 0, Never, 0)

  /** The quantities an achievement condition compares against a threshold. */
  datatype Measure = Letters | Words | Minutes | Streak

  function Measured(s: LearningStats, m: Measure): int
  {
    match m
    case Letters => s.totalAlphabetLearned
    case Words => s.totalWordsLearned
    case Minutes => s.totalLearningTime
    case Streak => s.consecutiveDays
  }

  /** The three counters a learning event can raise. */
  type Activity = m: Measure | m != Streak witness Letters

  /** Every catalogue condition reads `stats.<measure> >= threshold`. */
  datatype Condition = AtLeast(measure: Measure, threshold: int)

  predicate Holds(c: Condition, s: LearningStats)
  {
    Measured(s, c.measure) >= c.threshold
  }

  datatype Achievement = Achievement(id: string, name: string, description: string, icon: string, condition: Condition)

  const AllAchievements: seq<Achievement> := [
    Achievement("first_letter", "字母初学者", "学习第一个字母", "🔤", AtLeast(Letters, 1)),
    Achievement("alphabet_master", "字母大师", "学完所有26个字母", "🎓", AtLeast(Letters, 26)),
    Achievement("first_word", "单词初学者", "学习第一个单词", "📚", AtLeast(Words, 1)),
    Achievement("word_collector_10", "词汇收集者", "学习10个单词", "📖", AtLeast(Words, 10)),
    Achievement("word_collector_50", "词汇大使", "学习50个单词", "🌟", AtLeast(Words, 50)),
    Achievement("word_collector_100", "词汇专家", "学习100个单词", "👑", AtLeast(Words, 100)),
    Achievement("word_collector_200", "词汇王者", "学习所有200个单词", "🏆", AtLeast(Words, 200)),
    Achievement("learning_streak_3", "坚持学习者", "连续学习3天", "🔥", AtLeast(Streak, 3)),
    Achievement("learning_streak_7", "学习达人", "连续学习7天", "⚡", AtLeast(Streak, 7)),
    Achievement("learning_time_1h", "时间投入者", "累计学习1小时", "⏱️", AtLeast(Minutes, 60)),
    Achievement("learning_time_5h", "学习狂人", "累计学习5小时", "💪", AtLeast(Minutes, 300))
  ]

  function Ids(catalogue: seq<Achievement>): (r: seq<string>)
    ensures |r| == |catalogue| && forall i | 0 <= i < |r| :: r[i] == catalogue[i].id
  {
    seq(|catalogue|, i requires 0 <= i < |catalogue| => catalogue[i].id)
  }

  // ---------------------------------------------------------------------------
  // Counters and the commit step
  // ---------------------------------------------------------------------------

  /** The spread `{ ...stats, <counter>: stats.<counter> + amount }` of the three record operations. */
  function Bump(s: LearningStats, activity: Activity, amount: int): (r: LearningStats)
    ensures Measured(r, activity) == Measured(s, activity) + amount
    ensures forall other: Activity | other != activity :: Measured(r, other) == Measured(s, other)
    ensures r.consecutiveDays == s.consecutiveDays
    ensures r.lastLearningDate == s.lastLearningDate && r.totalDaysLearned == s.totalDaysLearned
  {
    match activity
    case Letters => s.(totalAlphabetLearned := s.totalAlphabetLearned + amount)
    case Words => s.(totalWordsLearned := s.totalWordsLearned + amount)
    case Minutes => s.(totalLearningTime := s.totalLearningTime + amount)
  }

  /**
   * The shared commit step: `prev` is the record before the event, `newStats`
   * the record with one counter already raised. This is the streak law.
   */
  function Committed(prev: LearningStats, newStats: LearningStats, today: int): (r: LearningStats)
    ensures r.totalAlphabetLearned == newStats.totalAlphabetLearned
    ensures r.totalWordsLearned == newStats.totalWordsLearned
    ensures r.totalLearningTime == newStats.totalLearningTime
    ensures prev.lastLearningDate == Never ==> r.consecutiveDays == 1
    ensures prev.lastLearningDate.On? && today == prev.lastLearningDate.day + 1 ==>
              r.consecutiveDays == prev.consecutiveDays + 1
    ensures prev.lastLearningDate.On? && today > prev.lastLearningDate.day + 1 ==> r.consecutiveDays == 1
    ensures prev.lastLearningDate.On? && today <= prev.lastLearningDate.day ==>
              r.consecutiveDays == newStats.consecutiveDays
    ensures r.lastLearningDate == On(today)
    ensures r.totalDaysLearned == prev.totalDaysLearned + (if prev.lastLearningDate == On(today) then 0 else 1)
  {
    var streak :=
      match prev.lastLearningDate
      case Never => 1
      case On(last) =>
        if today - last == 1 then prev.consecutiveDays + 1
        else if today - last > 1 then 1
        else newStats.consecutiveDays;
    newStats.(
      consecutiveDays := streak,
      lastLearningDate := On(today),
      totalDaysLearned := prev.totalDaysLearned + (if prev.lastLearningDate != On(today) then 1 else 0))
  }

  // ---------------------------------------------------------------------------
  // Achievements
  // ---------------------------------------------------------------------------

  /**
   * The identifiers `checkAchievements` pushes, scanning `catalogue` in order:
   * those not yet in `unlocked` whose condition holds for `s`.
   */
  function NewlyUnlocked(catalogue: seq<Achievement>, unlocked: seq<string>, s: LearningStats): (r: seq<string>)
    ensures forall id | id in r :: id !in unlocked && exists a | a in catalogue :: a.id == id && Holds(a.condition, s)
    ensures forall a | a in catalogue && a.id !in unlocked && Holds(a.condition, s) :: a.id in r
    ensures |r| <= |catalogue|
  {
    if catalogue == [] then []
    else
      var n := |catalogue| - 1;
      var a := catalogue[n];
      assert catalogue == catalogue[..n] + [a];
      NewlyUnlocked(catalogue[..n], unlocked, s) + (if a.id !in unlocked && Holds(a.condition, s) then [a.id] else [])
  }

  /** `getUnlockedAchievementObjects`: the catalogue entries whose identifier is unlocked, in catalogue order. */
  function UnlockedObjects(catalogue: seq<Achievement>, unlocked: seq<string>): (r: seq<Achievement>)
    ensures forall a :: a in r <==> a in catalogue && a.id in unlocked
    ensures IsSubsequence(r, catalogue)
  {
    if catalogue == [] then EmptyIsSubsequence(catalogue); []
    else
      var n := |catalogue| - 1;
      var a := catalogue[n];
      var kept := UnlockedObjects(catalogue[..n], unlocked);
      assert catalogue == catalogue[..n] + [a];
      SubsequenceSnocIf(kept, catalogue[..n], a, a.id in unlocked);
      kept + (if a.id in unlocked then [a] else [])
  }

  lemma CatalogueIdsDistinct()
    ensures Distinct(Ids(AllAchievements))
  {
    var ids := Ids(AllAchievements);
    assert ids == ["first_letter", "alphabet_master", "first_word", "word_collector_10",
                   "word_collector_50", "word_collector_100", "word_collector_200",
                   "learning_streak_3", "learning_streak_7", "learning_time_1h", "learning_time_5h"];
  }

  /** The identifiers appended by one check come in catalogue order. */
  lemma {:induction false} NewlyUnlockedInCatalogueOrder(catalogue: seq<Achievement>, unlocked: seq<string>, s: LearningStats)
    ensures IsSubsequence(NewlyUnlocked(catalogue, unlocked, s), Ids(catalogue))
  {
    if catalogue == [] {
      EmptyIsSubsequence(Ids(catalogue));
    } else {
      var n := |catalogue| - 1;
      var a := catalogue[n];
      var front := NewlyUnlocked(catalogue[..n], unlocked, s);
      var keep := a.id !in unlocked && Holds(a.condition, s);
      NewlyUnlockedInCatalogueOrder(catalogue[..n], unlocked, s);
      IdsSnoc(catalogue);
      SubsequenceSnocIf(front, Ids(catalogue[..n]), a.id, keep);
      assert NewlyUnlocked(catalogue, unlocked, s) == front + (if keep then [a.id] else []);
    }
  }

  lemma IdsSnoc(catalogue: seq<Achievement>)
    requires catalogue != []
    ensures Ids(catalogue) == Ids(catalogue[..|catalogue| - 1]) + [catalogue[|catalogue| - 1].id]
  {
  }

  /** Appending the newly unlocked identifiers never creates a duplicate. */
  lemma {:induction false} NewlyUnlockedDistinct(catalogue: seq<Achievement>, unlocked: seq<string>, s: LearningStats)
    requires Distinct(Ids(catalogue)) && Distinct(unlocked)
    ensures Distinct(unlocked + NewlyUnlocked(catalogue, unlocked, s))
  {
    if catalogue != [] {
      var n := |catalogue| - 1;
      var a := catalogue[n];
      var front := NewlyUnlocked(catalogue[..n], unlocked, s);
      assert Ids(catalogue[..n]) == Ids(catalogue)[..n];
      NewlyUnlockedDistinct(catalogue[..n], unlocked, s);
      if a.id !in unlocked && Holds(a.condition, s) {
        assert a.id !in front;
        assert unlocked + NewlyUnlocked(catalogue, unlocked, s) == (unlocked + front) + [a.id];
      } else {
        assert unlocked + NewlyUnlocked(catalogue, unlocked, s) == unlocked + front;
      }
    }
  }

  lemma NewlyUnlockedAreCatalogueIds(catalogue: seq<Achievement>, unlocked: seq<string>, s: LearningStats)
    ensures forall id | id in NewlyUnlocked(catalogue, unlocked, s) :: id in Ids(catalogue)
  {
    forall id | id in NewlyUnlocked(catalogue, unlocked, s) ensures id in Ids(catalogue) {
      var a :| a in catalogue && a.id == id && Holds(a.condition, s);
      var i :| 0 <= i < |catalogue| && catalogue[i] == a;
      assert Ids(catalogue)[i] == id;
    }
  }

  /** A second check with the same statistics adds nothing. */
  lemma CheckIsIdempotent(catalogue: seq<Achievement>, unlocked: seq<string>, s: LearningStats)
    ensures NewlyUnlocked(catalogue, unlocked + NewlyUnlocked(catalogue, unlocked, s), s) == []
  {
    NoMemberMeansEmpty(NewlyUnlocked(catalogue, unlocked + NewlyUnlocked(catalogue, unlocked, s), s));
  }

  /** A condition that holds keeps holding when its measure grows. */
  lemma ConditionMonotone(c: Condition, s: LearningStats, t: LearningStats)
    requires Measured(s, c.measure) <= Measured(t, c.measure)
    ensures Holds(c, s) ==> Holds(c, t)
  {
  }

  // ---------------------------------------------------------------------------
  // The store as a value: one learning event at a time
  // ---------------------------------------------------------------------------

  datatype Progress = Progress(stats: LearningStats, unlocked: seq<string>)

  const Fresh := Progress(ZeroStats, [])

  /** One call of `recordAlphabetLearning`, `recordWordLearning` or `recordLearningTime`. */
  datatype Event = Event(activity: Activity, amount: int, today: int)

  /**
   * Raise the counter, commit, then check the achievements of `catalogue`
   * (the hook's is `AllAchievements`) against the committed record.
   */
  function Record(catalogue: seq<Achievement>, p: Progress, e: Event): (r: Progress)
    ensures Measured(r.stats, e.activity) == Measured(p.stats, e.activity) + e.amount
    ensures forall other: Activity | other != e.activity :: Measured(r.stats, other) == Measured(p.stats, other)
    ensures r.stats.lastLearningDate == On(e.today)
    ensures p.unlocked <= r.unlocked
  {
    var s := Committed(p.stats, Bump(p.stats, e.activity, e.amount), e.today);
    Progress(s, p.unlocked + NewlyUnlocked(catalogue, p.unlocked, s))
  }

  function Replay(catalogue: seq<Achievement>, p: Progress, events: seq<Event>): Progress
    decreases |events|
  {
    if events == [] then p else Record(catalogue, Replay(catalogue, p, events[..|events| - 1]), events[|events| - 1])
  }

  /** After an event, every catalogue entry whose condition holds for the new record is unlocked. */
  lemma MetConditionsAreUnlocked(catalogue: seq<Achievement>, p: Progress, e: Event)
    ensures var q := Record(catalogue, p, e);
      forall a | a in catalogue && Holds(a.condition, q.stats) :: a.id in q.unlocked
  {
  }

  /** The unlocked list is append-only: earlier lists are prefixes of later ones. */
  lemma {:induction false} UnlockedOnlyGrows(catalogue: seq<Achievement>, p: Progress, events: seq<Event>)
    ensures p.unlocked <= Replay(catalogue, p, events).unlocked
  {
    if events != [] {
      UnlockedOnlyGrows(catalogue, p, events[..|events| - 1]);
    }
  }

  /** The sum of the amounts recorded for one activity. */
  function Total(events: seq<Event>, activity: Activity): int
    decreases |events|
  {
    if events == [] then 0
    else
      var e := events[|events| - 1];
      Total(events[..|events| - 1], activity) + (if e.activity == activity then e.amount else 0)
  }

  /** Each counter of a store replayed from scratch is the sum of the amounts recorded for it. */
  lemma {:induction false} CountersAreTotals(catalogue: seq<Achievement>, events: seq<Event>)
    ensures forall activity: Activity :: Measured(Replay(catalogue, Fresh, events).stats, activity) == Total(events, activity)
  {
    if events != [] {
      CountersAreTotals(catalogue, events[..|events| - 1]);
    }
  }

  /** In a catalogue whose identifiers are keys, two entries with one identifier are the same entry. */
  lemma SameIdSameEntry(catalogue: seq<Achievement>, a: Achievement, b: Achievement)
    requires Distinct(Ids(catalogue)) && a in catalogue && b in catalogue && a.id == b.id
    ensures a == b
  {
    var i :| 0 <= i < |catalogue| && catalogue[i] == a;
    var j :| 0 <= j < |catalogue| && catalogue[j] == b;
    assert Ids(catalogue)[i] == Ids(catalogue)[j];
  }

  predicate NonNegativeAmounts(events: seq<Event>)
  {
    forall i | 0 <= i < |events| :: events[i].amount >= 0
  }

  /**
   * With non-negative amounts the counters never fall, so an unlocked letter,
   * word or time achievement still holds for the current record.
   */
  lemma {:induction false} CounterAchievementsStayMet(catalogue: seq<Achievement>, events: seq<Event>)
    requires Distinct(Ids(catalogue)) && NonNegativeAmounts(events)
    ensures var q := Replay(catalogue, Fresh, events);
      forall a | a in catalogue && a.id in q.unlocked && a.condition.measure != Streak :: Holds(a.condition, q.stats)
  {
    if events != [] {
      var n := |events| - 1;
      var p := Replay(catalogue, Fresh, events[..n]);
      var q := Replay(catalogue, Fresh, events);
      CounterAchievementsStayMet(catalogue, events[..n]);
      forall a | a in catalogue && a.id in q.unlocked && a.condition.measure != Streak
        ensures Holds(a.condition, q.stats)
      {
        if a.id in p.unlocked {
          ConditionMonotone(a.condition, p.stats, q.stats);
        } else {
          var b :| b in catalogue && b.id == a.id && Holds(b.condition, q.stats);
          SameIdSameEntry(catalogue, a, b);
        }
      }
    }
  }

  // ---------------------------------------------------------------------------
  // The streak and day count over a history of events
  // ---------------------------------------------------------------------------

  function Days(events: seq<Event>): (ds: seq<int>)
    ensures |ds| == |events| && forall i | 0 <= i < |ds| :: ds[i] == events[i].today
  {
    seq(|events|, i requires 0 <= i < |events| => events[i].today)
  }

  ghost predicate NonDecreasing(ds: seq<int>)
  {
    forall i, j | 0 <= i < j < |ds| :: ds[i] <= ds[j]
  }

  /** The `k` days that end at the last day of `ds` all occur in `ds`. */
  ghost predicate RunOf(ds: seq<int>, k: int)
    requires ds != []
  {
    forall day | ds[|ds| - 1] - k < day <= ds[|ds| - 1] :: day in ds
  }

  ghost function DistinctDays(ds: seq<int>): set<int>
  {
    set d | d in ds
  }

  /**
   * `s` ends at the last day of `ds`, its streak is the longest unbroken run of
   * days ending there, and its day count is the number of distinct days.
   */
  ghost predicate StreakMatchesHistory(s: LearningStats, ds: seq<int>)
  {
    && ds != []
    && s.lastLearningDate == On(ds[|ds| - 1])
    && RunOf(ds, s.consecutiveDays)
    && !RunOf(ds, s.consecutiveDays + 1)
    && s.totalDaysLearned == |DistinctDays(ds)|
  }

  lemma FirstDayRun(d: int)
    ensures RunOf([d], 1) && !RunOf([d], 2)
  {
    assert d - 1 !in [d];
  }

  /** Another event on the last day changes no run. */
  lemma {:induction false} SameDayRun(front: seq<int>, d: int, k: int)
    requires front != [] && d == front[|front| - 1]
    ensures RunOf(front + [d], k) <==> RunOf(front, k)
  {
    assert forall x :: x in front + [d] <==> x in front;
  }

  /** An event on the day after the last one extends a run of exactly `c` days to exactly `c + 1`. */
  lemma {:induction false} NextDayRun(front: seq<int>, d: int, c: int)
    requires front != [] && d == front[|front| - 1] + 1
    requires RunOf(front, c) && !RunOf(front, c + 1)
    ensures RunOf(front + [d], c + 1) && !RunOf(front + [d], c + 2)
  {
    var ds := front + [d];
    var last := front[|front| - 1];
    forall day | d - (c + 1) < day <= d ensures day in ds {
      if day < d {
        assert day in front;
      }
    }
    var missing :| last - (c + 1) < missing <= last && missing !in front;
    assert missing != d;
    assert missing !in ds;
  }

  /** An event more than one day after the last one starts a new run of one day. */
  lemma {:induction false} GapRun(front: seq<int>, d: int)
    requires front != [] && d > front[|front| - 1] + 1
    requires forall x | x in front :: x <= front[|front| - 1]
    ensures RunOf(front + [d], 1) && !RunOf(front + [d], 2)
  {
    assert d - 1 !in front + [d];
  }

  /**
   * For events whose days never go back, `consecutiveDays` is the length of
   * the longest unbroken run of days ending at the last event day,
   * `lastLearningDate` is that day, and `totalDaysLearned` is the number of
   * distinct days with an event.
   */
  lemma {:induction false} StreakIsLongestRun(catalogue: seq<Achievement>, events: seq<Event>)
    requires events != [] && NonDecreasing(Days(events))
    ensures StreakMatchesHistory(Replay(catalogue, Fresh, events).stats, Days(events))
  {
    var n := |events| - 1;
    var e := events[n];
    var ds := Days(events);
    assert Days(events[..n]) == ds[..n];
    assert ds == ds[..n] + [e.today];
    var prev := Replay(catalogue, Fresh, events[..n]).stats;
    var newStats := Bump(prev, e.activity, e.amount);
    assert Replay(catalogue, Fresh, events).stats == Committed(prev, newStats, e.today);
    if n == 0 {
      assert prev == ZeroStats;
      FirstEventStreak(newStats, e.today);
    } else {
      assert NonDecreasing(ds[..n]);
      StreakIsLongestRun(catalogue, events[..n]);
      LaterEventStreak(ds[..n], e.today, prev, newStats);
    }
  }

  lemma FirstEventStreak(newStats: LearningStats, d: int)
    ensures StreakMatchesHistory(Committed(ZeroStats, newStats, d), [d])
  {
    assert DistinctDays([d]) == {d};
    FirstDayRun(d);
  }

  /** One more event, on a day no earlier than the last, keeps the streak matched to the history. */
  lemma LaterEventStreak(front: seq<int>, d: int, prev: LearningStats, newStats: LearningStats)
    requires StreakMatchesHistory(prev, front) && NonDecreasing(front + [d])
    requires newStats.consecutiveDays == prev.consecutiveDays
    ensures StreakMatchesHistory(Committed(prev, newStats, d), front + [d])
  {
    var ds := front + [d];
    var s := Committed(prev, newStats, d);
    var last := front[|front| - 1];
    var c := prev.consecutiveDays;
    assert forall x | x in front :: x <= last by {
      forall x | x in front ensures x <= last {
        var i :| 0 <= i < |front| && front[i] == x;
        assert ds[i] == x && ds[|front| - 1] == last;
      }
    }
    assert last <= d by {
      assert ds[|front| - 1] == last && ds[|front|] == d;
    }
    if d == last {
      SameDayRun(front, d, c);
      SameDayRun(front, d, c + 1);
      assert DistinctDays(ds) == DistinctDays(front);
    } else {
      assert d !in front;
      assert DistinctDays(ds) == DistinctDays(front) + {d};
      if d == last + 1 {
        NextDayRun(front, d, c);
      } else {
        GapRun(front, d);
      }
    }
  }

  // ---------------------------------------------------------------------------
  // Scenarios
  // ---------------------------------------------------------------------------

  /** A fresh store after one letter: one letter, a one-day streak, `first_letter` but not `alphabet_master`. */
  lemma FirstLetterScenario(today: int)
    ensures var q := Record(AllAchievements, Fresh, Event(Letters, 1, today));
      && q.stats.totalAlphabetLearned == 1
      && q.stats.consecutiveDays == 1
      && "first_letter" in q.unlocked
      && "alphabet_master" !in q.unlocked
  {
    LetterEntries();
    EntryById(1);
    var q := Record(AllAchievements, Fresh, Event(Letters, 1, today));
    assert q.stats.totalAlphabetLearned == 1;
    assert !Holds(AllAchievements[1].condition, q.stats);
  }

  lemma LetterEntries()
    ensures AllAchievements[0].id == "first_letter" && AllAchievements[0].condition == AtLeast(Letters, 1)
    ensures AllAchievements[1].id == "alphabet_master" && AllAchievements[1].condition == AtLeast(Letters, 26)
  {
  }

  /** Catalogue identifiers are keys: the entry at index `k` is the only one with its identifier. */
  lemma EntryById(k: int)
    requires 0 <= k < |AllAchievements|
    ensures forall a | a in AllAchievements && a.id == AllAchievements[k].id :: a == AllAchievements[k]
  {
    CatalogueIdsDistinct();
    forall a | a in AllAchievements && a.id == AllAchievements[k].id ensures a == AllAchievements[k] {
      SameIdSameEntry(AllAchievements, a, AllAchievements[k]);
    }
  }

  /** After `n` single words, on whatever days, every word milestone of threshold at most `n` is unlocked. */
  lemma WordMilestonesReached(catalogue: seq<Achievement>, events: seq<Event>)
    requires events != []
    requires forall i | 0 <= i < |events| :: events[i].activity == Words && events[i].amount == 1
    ensures var q := Replay(catalogue, Fresh, events);
      && q.stats.totalWordsLearned == |events|
      && forall a | a in catalogue && a.condition.measure == Words && a.condition.threshold <= |events| :: a.id in q.unlocked
  {
    var n := |events| - 1;
    CountersAreTotals(catalogue, events);
    WordTotal(events);
    MetConditionsAreUnlocked(catalogue, Replay(catalogue, Fresh, events[..n]), events[n]);
  }

  lemma WordEntries()
    ensures AllAchievements[2].id == "first_word" && AllAchievements[2].condition == AtLeast(Words, 1)
    ensures AllAchievements[3].id == "word_collector_10" && AllAchievements[3].condition == AtLeast(Words, 10)
    ensures AllAchievements[4].id == "word_collector_50" && AllAchievements[4].condition == AtLeast(Words, 50)
    ensures AllAchievements[5].id == "word_collector_100" && AllAchievements[5].condition == AtLeast(Words, 100)
    ensures AllAchievements[6].id == "word_collector_200" && AllAchievements[6].condition == AtLeast(Words, 200)
  {
  }

  /** Two hundred single words, on whatever days, unlock every word milestone up to 200. */
  lemma TwoHundredWordsScenario(events: seq<Event>)
    requires |events| == 200
    requires forall i | 0 <= i < |events| :: events[i].activity == Words && events[i].amount == 1
    ensures var q := Replay(AllAchievements, Fresh, events);
      && q.stats.totalWordsLearned == 200
      && forall id | id in ["first_word", "word_collector_10", "word_collector_50", "word_collector_100", "word_collector_200"]
           :: id in q.unlocked
  {
    WordMilestonesReached(AllAchievements, events);
    WordEntries();
    assert AllAchievements[2] in AllAchievements && AllAchievements[3] in AllAchievements;
    assert AllAchievements[4] in AllAchievements && AllAchievements[5] in AllAchievements;
    assert AllAchievements[6] in AllAchievements;
  }

  lemma {:induction false} WordTotal(events: seq<Event>)
    requires forall i | 0 <= i < |events| :: events[i].activity == Words && events[i].amount == 1
    ensures Total(events, Words) == |events|
  {
    if events != [] {
      WordTotal(events[..|events| - 1]);
    }
  }

  // ---------------------------------------------------------------------------
  // The hook's state, updated in place
  // ---------------------------------------------------------------------------

  class ProgressTracker {
    /** The achievement catalogue the hook checks, `ALL_ACHIEVEMENTS`. */
    const catalogue: seq<Achievement>
    var stats: LearningStats
    var unlocked: seq<string>

    /** Catalogue identifiers are keys; unlocked identifiers are distinct catalogue identifiers. */
    ghost predicate Valid()
      reads this
    {
      Distinct(Ids(catalogue)) && Distinct(unlocked) && forall id | id in unlocked :: id in Ids(catalogue)
    }

    function Snapshot(): Progress
      reads this
    {
      Progress(stats, unlocked)
    }

    constructor ()
      ensures Valid() && catalogue == AllAchievements && Snapshot() == Fresh
    {
      catalogue := AllAchievements;
      stats := ZeroStats;
      unlocked := [];
      CatalogueIdsDistinct();
    }

    method RecordAlphabetLearning(count: int, today: int)
      requires Valid()
      modifies this
      ensures Valid()
      ensures Snapshot() == Record(catalogue, old(Snapshot()), Event(Letters, count, today))
    {
      var newStats := stats.(totalAlphabetLearned := stats.totalAlphabetLearned + count);
      UpdateLearningStats(newStats, today);
    }

    method RecordWordLearning(count: int, today: int)
      requires Valid()
      modifies this
      ensures Valid()
      ensures Snapshot() == Record(catalogue, old(Snapshot()), Event(Words, count, today))
    {
      var newStats := stats.(totalWordsLearned := stats.totalWordsLearned + count);
      UpdateLearningStats(newStats, today);
    }

    method RecordLearningTime(minutes: int, today: int)
      requires Valid()
      modifies this
      ensures Valid()
      ensures Snapshot() == Record(catalogue, old(Snapshot()), Event(Minutes, minutes, today))
    {
      var newStats := stats.(totalLearningTime := stats.totalLearningTime + minutes);
      UpdateLearningStats(newStats, today);
    }

    /** The commit step applied to `newStats`, then the achievement check. */
    method UpdateLearningStats(newStats: LearningStats, today: int)
      requires Valid()
      modifies this
      ensures Valid()
      ensures stats == Committed(old(stats), newStats, today)
      ensures unlocked == old(unlocked) + NewlyUnlocked(catalogue, old(unlocked), stats)
    {
      var updated := newStats;
      match stats.lastLearningDate {
        case On(last) =>
          var daysDiff := today - last;
          if daysDiff == 1 {
            updated := updated.(consecutiveDays := stats.consecutiveDays + 1);
          } else if daysDiff > 1 {
            updated := updated.(consecutiveDays := 1);
          }
        case Never =>
          updated := updated.(consecutiveDays := 1);
      }
      updated := updated.(lastLearningDate := On(today));
      updated := updated.(totalDaysLearned := stats.totalDaysLearned + (if stats.lastLearningDate != On(today) then 1 else 0));
      stats := updated;
      CheckAchievements(updated);
    }

    method CheckAchievements(current: LearningStats)
      requires Valid()
      modifies this`unlocked
      ensures Valid()
      ensures unlocked == old(unlocked) + NewlyUnlocked(catalogue, old(unlocked), current)
    {
      var newlyUnlocked: seq<string> := [];
      for i := 0 to |catalogue|
        invariant newlyUnlocked == NewlyUnlocked(catalogue[..i], unlocked, current)
      {
        var achievement := catalogue[i];
        assert catalogue[..i + 1][..i] == catalogue[..i];
        if achievement.id !in unlocked && Holds(achievement.condition, current) {
          newlyUnlocked := newlyUnlocked + [achievement.id];
        }
      }
      assert catalogue[..|catalogue|] == catalogue;
      if |newlyUnlocked| > 0 {
        NewlyUnlockedDistinct(catalogue, unlocked, current);
        NewlyUnlockedAreCatalogueIds(catalogue, unlocked, current);
        unlocked := unlocked + newlyUnlocked;
      }
    }

    function GetUnlockedAchievementObjects(): (r: seq<Achievement>)
      reads this
      ensures forall a :: a in r <==> a in catalogue && a.id in unlocked
      ensures IsSubsequence(r, catalogue)
    {
      UnlockedObjects(catalogue, unlocked)
    }

    method ResetAllData()
      requires Valid()
      modifies this
      ensures Valid() && Snapshot() == Fresh
    {
      stats := ZeroStats;
      unlocked := [];
    }
  }
}
