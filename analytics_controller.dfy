/** The read side: `getUserAnalytics`, which sums a user's rollups into an
    overall accuracy, one entry per topic and one aggregate per difficulty,
    and `getProgressTrends`, which buckets the user's interviews of the last
    30 days by week label and returns the buckets sorted by label. */
module AnalyticsController {
  import opened Wrappers
  import opened Text
  import opened Calendar
  import opened Records

  // ----------------------------------------------------------------- summary

  datatype DifficultyPerformance = DifficultyPerformance(total: nat, correct: nat, accuracy: real)

  datatype TopicPerformance = TopicPerformance(topic: string, accuracy: real, totalQuestions: nat, correctAnswers: nat)

  datatype Summary = Summary(
    totalInterviews: nat,
    overallAccuracy: real,
    topicWisePerformance: seq<TopicPerformance>,
    easy: DifficultyPerformance,
    medium: DifficultyPerformance,
    hard: DifficultyPerformance)

  /** `Analytics.find({ user_id })`: the user's rollups in store order. */
  function UserRollups(rs: seq<Rollup>, userId: UserId): (r: seq<Rollup>)
    ensures forall x :: x in r <==> x in rs && x.userId == userId
    ensures forall x :: multiset(r)[x] == if x.userId == userId then multiset(rs)[x] else 0
    decreases |rs|
  {
    if rs == [] then []
    else
      assert rs == [rs[0]] + rs[1..];
      if rs[0].userId == userId then [rs[0]] + UserRollups(rs[1..], userId)
      else UserRollups(rs[1..], userId)
  }

  /** `Interview.countDocuments({ user_id })`. */
  function CountInterviews(ivs: seq<Interview>, userId: UserId): nat
    decreases |ivs|
  {
    if ivs == [] then 0
    else CountInterviews(ivs[..|ivs| - 1], userId) + (if ivs[|ivs| - 1].userId == userId then 1 else 0)
  }

  function SumTotal(rs: seq<Rollup>): nat
    decreases |rs|
  {
    if rs == [] then 0 else SumTotal(rs[..|rs| - 1]) + rs[|rs| - 1].totalQuestions
  }

  function SumCorrect(rs: seq<Rollup>): nat
    decreases |rs|
  {
    if rs == [] then 0 else SumCorrect(rs[..|rs| - 1]) + rs[|rs| - 1].correctAnswers
  }

  /** The inner `forEach` over the three bucket keys: bucket-wise sums. */
  function AddStats(a: DifficultyStats, b: DifficultyStats): (r: DifficultyStats)
    ensures forall d :: Bucket(r, d) == BucketStats(Bucket(a, d).total + Bucket(b, d).total, Bucket(a, d).correct + Bucket(b, d).correct)
  {
    DifficultyStats(
      BucketStats(a.easy.total + b.easy.total, a.easy.correct + b.easy.correct),
      BucketStats(a.medium.total + b.medium.total, a.medium.correct + b.medium.correct),
      BucketStats(a.hard.total + b.hard.total, a.hard.correct + b.hard.correct))
  }

  const NoStats := DifficultyStats(EmptyBucket, EmptyBucket, EmptyBucket)

  /** The difficulty buckets summed over the rollups. */
  function SumStats(rs: seq<Rollup>): DifficultyStats
    decreases |rs|
  {
    if rs == [] then NoStats else AddStats(SumStats(rs[..|rs| - 1]), rs[|rs| - 1].difficultyStats)
  }

  /** Sum of each rollup's accuracy weighted by its question count. */
  function WeightedAccuracy(rs: seq<Rollup>): real
    decreases |rs|
  {
    if rs == [] then 0.0
    else WeightedAccuracy(rs[..|rs| - 1]) + rs[|rs| - 1].accuracy * rs[|rs| - 1].totalQuestions as real
  }

  /** The plain mean of the per-topic accuracies (which the summary does NOT report). */
  function MeanAccuracy(rs: seq<Rollup>): real
    requires |rs| > 0
  {
    SumAccuracy(rs) / |rs| as real
  }

  function SumAccuracy(rs: seq<Rollup>): real
    decreases |rs|
  {
    if rs == [] then 0.0 else SumAccuracy(rs[..|rs| - 1]) + rs[|rs| - 1].accuracy
  }

  function TopicEntry(r: Rollup): TopicPerformance {
    TopicPerformance(r.topic, r.accuracy, r.totalQuestions, r.correctAnswers)
  }

  /** One difficulty aggregate with its accuracy filled in (0 when empty). */
  function WithAccuracy(b: BucketStats): DifficultyPerformance {
    DifficultyPerformance(b.total, b.correct, Accuracy(b.correct, b.total))
  }

  /** The aggregate of one difficulty over a user's rollups. */
  function Performance(rs: seq<Rollup>, d: Difficulty): DifficultyPerformance {
    WithAccuracy(Bucket(SumStats(rs), d))
  }

  predicate AllValid(rs: seq<Rollup>) {
    forall i :: 0 <= i < |rs| ==> RollupInv(rs[i])
  }

  /** The `forEach` over a user's rollups: running question and correct
      totals, one topic entry per rollup, and bucket-wise sums. */
  method SumRollups(analytics: seq<Rollup>)
    returns (totalQuestions: nat, totalCorrect: nat, topicWise: seq<TopicPerformance>, sums: DifficultyStats)
    ensures totalQuestions == SumTotal(analytics) && totalCorrect == SumCorrect(analytics)
    ensures |topicWise| == |analytics| && forall k :: 0 <= k < |analytics| ==> topicWise[k] == TopicEntry(analytics[k])
    ensures sums == SumStats(analytics)
  {
    topicWise := [];
    sums := NoStats;
    totalQuestions := 0;
    totalCorrect := 0;
    var i := 0;
    while i < |analytics|
      invariant 0 <= i <= |analytics|
      invariant totalQuestions == SumTotal(analytics[..i]) && totalCorrect == SumCorrect(analytics[..i])
      invariant |topicWise| == i && forall k :: 0 <= k < i ==> topicWise[k] == TopicEntry(analytics[k])
      invariant sums == SumStats(analytics[..i])
    {
      var item := analytics[i];
      totalQuestions := totalQuestions + item.totalQuestions;
      totalCorrect := totalCorrect + item.correctAnswers;
      topicWise := topicWise + [TopicEntry(item)];
      sums := AddStats(sums, item.difficultyStats);
      assert analytics[..i + 1][..i] == analytics[..i];
      i := i + 1;
    }
    assert analytics[..i] == analytics;
  }

  /** `getUserAnalytics`. */
  method GetUserAnalytics(userId: UserId, rollups: seq<Rollup>, interviews: seq<Interview>) returns (summary: Summary)
    ensures summary.totalInterviews == CountInterviews(interviews, userId)
    ensures var mine := UserRollups(rollups, userId);
      && summary.overallAccuracy == Accuracy(SumCorrect(mine), SumTotal(mine))
      && |summary.topicWisePerformance| == |mine|
      && (forall i :: 0 <= i < |mine| ==> summary.topicWisePerformance[i] == TopicEntry(mine[i]))
      && summary.easy == Performance(mine, Easy)
      && summary.medium == Performance(mine, Medium)
      && summary.hard == Performance(mine, Hard)
  {
    var analytics := UserRollups(rollups, userId);
    var totalInterviews := CountInterviews(interviews, userId);
    var totalQuestions, totalCorrect, topicWise, sums := SumRollups(analytics);
    var overall := Accuracy(totalCorrect, totalQuestions);
    summary := Summary(totalInterviews, overall, topicWise,
                       WithAccuracy(sums.easy), WithAccuracy(sums.medium), WithAccuracy(sums.hard));
  }

  /** Prefixes of valid rollups are valid. */
  lemma AllValidPrefix(rs: seq<Rollup>)
    requires AllValid(rs) && rs != []
    ensures AllValid(rs[..|rs| - 1]) && RollupInv(rs[|rs| - 1])
  {
    assert forall i :: 0 <= i < |rs| - 1 ==> rs[..|rs| - 1][i] == rs[i];
  }

  lemma AddPercentages(w: real, c: nat, v: real, d: nat)
    requires w == c as real * 100.0 && v == d as real * 100.0
    ensures w + v == (c + d) as real * 100.0
  {
  }

  /** What the weighted mean needs of each rollup: no more correct answers than
      answers, and accuracy times total is 100 times correct. */
  predicate AllWeighted(rs: seq<Rollup>) {
    forall i :: 0 <= i < |rs| ==>
      rs[i].correctAnswers <= rs[i].totalQuestions
      && rs[i].accuracy * rs[i].totalQuestions as real == rs[i].correctAnswers as real * 100.0
  }

  lemma ValidIsWeighted(rs: seq<Rollup>)
    requires AllValid(rs)
    ensures AllWeighted(rs)
  {
    forall i | 0 <= i < |rs|
      ensures rs[i].accuracy * rs[i].totalQuestions as real == rs[i].correctAnswers as real * 100.0
    {
      RollupAccuracyBounds(rs[i]);
    }
  }

  lemma {:induction false} WeightedSum(rs: seq<Rollup>)
    requires AllWeighted(rs)
    ensures SumCorrect(rs) <= SumTotal(rs)
    ensures WeightedAccuracy(rs) == SumCorrect(rs) as real * 100.0
    decreases |rs|
  {
    if rs != [] {
      var prefix, last := rs[..|rs| - 1], rs[|rs| - 1];
      assert AllWeighted(prefix) by {
        assert forall i :: 0 <= i < |prefix| ==> prefix[i] == rs[i];
      }
      WeightedSum(prefix);
      AddPercentages(WeightedAccuracy(prefix), SumCorrect(prefix), last.accuracy * last.totalQuestions as real, last.correctAnswers);
    }
  }

  lemma {:induction false} BucketSums(rs: seq<Rollup>)
    requires AllValid(rs)
    ensures var s := SumStats(rs);
      && s.easy.total + s.medium.total + s.hard.total == SumTotal(rs)
      && s.easy.correct + s.medium.correct + s.hard.correct == SumCorrect(rs)
    decreases |rs|
  {
    if rs != [] {
      AllValidPrefix(rs);
      BucketSums(rs[..|rs| - 1]);
    }
  }

  lemma {:induction false} BucketCorrectAtMostTotal(rs: seq<Rollup>, d: Difficulty)
    requires AllValid(rs)
    ensures Bucket(SumStats(rs), d).correct <= Bucket(SumStats(rs), d).total
    decreases |rs|
  {
    if rs != [] {
      AllValidPrefix(rs);
      BucketCorrectAtMostTotal(rs[..|rs| - 1], d);
    }
  }

  lemma SameHundredfold(x: real, y: real, c: nat)
    requires x == c as real * 100.0 && y == c as real * 100.0
    ensures x == y
  {
  }

  lemma WeightedMean(rs: seq<Rollup>)
    requires AllWeighted(rs)
    ensures Accuracy(SumCorrect(rs), SumTotal(rs)) * SumTotal(rs) as real == WeightedAccuracy(rs)
  {
    var c, t := SumCorrect(rs), SumTotal(rs);
    WeightedSum(rs);
    AccuracyBounds(c, t);
    SameHundredfold(Accuracy(c, t) * t as real, WeightedAccuracy(rs), c);
  }

  /** Over valid rollups, the overall accuracy is the mean of the per-topic
      accuracies weighted by their question counts, and a percentage. */
  lemma OverallIsWeightedMean(rs: seq<Rollup>)
    requires AllValid(rs)
    ensures Accuracy(SumCorrect(rs), SumTotal(rs)) * SumTotal(rs) as real == WeightedAccuracy(rs)
    ensures 0.0 <= Accuracy(SumCorrect(rs), SumTotal(rs)) <= 100.0
  {
    ValidIsWeighted(rs);
    WeightedMean(rs);
    WeightedSum(rs);
    AccuracyBounds(SumCorrect(rs), SumTotal(rs));
  }

  /** Over valid rollups, the three difficulty aggregates split the summed
      question and correct counts, and each has an accuracy in [0, 100]. */
  lemma DifficultyAggregatesSplitTotals(rs: seq<Rollup>, d: Difficulty)
    requires AllValid(rs)
    ensures Performance(rs, Easy).total + Performance(rs, Medium).total + Performance(rs, Hard).total == SumTotal(rs)
    ensures Performance(rs, Easy).correct + Performance(rs, Medium).correct + Performance(rs, Hard).correct == SumCorrect(rs)
    ensures 0.0 <= Performance(rs, d).accuracy <= 100.0
  {
    BucketSums(rs);
    BucketCorrectAtMostTotal(rs, d);
    AccuracyBounds(Bucket(SumStats(rs), d).correct, Bucket(SumStats(rs), d).total);
  }

  /** Two topics, 7 of 10 and 1 of 5 correct: the overall accuracy is
      8 / 15 * 100, not the mean (70 + 20) / 2 of the topic accuracies. */
  lemma OverallIsNotMeanOfTopics()
    ensures var js := Rollup(1, "JavaScript", 10, 7, 70.0, DifficultyStats(BucketStats(10, 7), EmptyBucket, EmptyBucket), 0);
            var py := Rollup(1, "Python", 5, 1, 20.0, DifficultyStats(BucketStats(5, 1), EmptyBucket, EmptyBucket), 0);
            && RollupInv(js) && RollupInv(py)
            && Accuracy(SumCorrect([js, py]), SumTotal([js, py])) == 160.0 / 3.0
            && MeanAccuracy([js, py]) == 45.0
  {
    var js := Rollup(1, "JavaScript", 10, 7, 70.0, DifficultyStats(BucketStats(10, 7), EmptyBucket, EmptyBucket), 0);
    var py := Rollup(1, "Python", 5, 1, 20.0, DifficultyStats(BucketStats(5, 1), EmptyBucket, EmptyBucket), 0);
    assert Accuracy(7, 10) == 70.0 && Accuracy(1, 5) == 20.0;
    assert [js, py][..1] == [js];
    assert [js][..0] == [];
    assert SumCorrect([js]) == 7 && SumTotal([js]) == 10 && SumAccuracy([js]) == 70.0;
    assert SumCorrect([js, py]) == 8 && SumTotal([js, py]) == 15;
    assert SumAccuracy([js, py]) == 90.0;
    assert Accuracy(8, 15) == (8.0 / 15.0) * 100.0;
  }

  // ------------------------------------------------------------------ trends

  const ThirtyDaysMs: int := 30 * 24 * 60 * 60 * 1000

  /** `` `${year}-W${String(week).padStart(2, '0')}` `` with the calendar
      year of the date and its ISO week number. */
  function WeekKey(createdAt: int): string {
    var day := DayNumber(createdAt);
    IsoWeekInRange(day);
    IntToString(YearOf(day)) + "-W" + PadStart2(NatToString(IsoWeek(day)))
  }

  /** The week part of every label is exactly two digits. */
  lemma WeekKeyShape(createdAt: int)
    ensures var day := DayNumber(createdAt);
      && 1 <= IsoWeek(day) <= 53
      && exists w: string :: |w| == 2 && IsDigit(w[0]) && IsDigit(w[1])
           && WeekKey(createdAt) == IntToString(YearOf(day)) + "-W" + w
  {
    var day := DayNumber(createdAt);
    IsoWeekInRange(day);
    TwoDigits(IsoWeek(day));
    var w := PadStart2(NatToString(IsoWeek(day)));
    assert IsDigit(w[0]) && IsDigit(w[1]);
  }

  lemma YearStarts()
    ensures YearStart(2020) == 18262 && YearStart(2021) == 18628 && YearStart(2022) == 18993
  {
  }

  /** 1 January 2021 is a Friday, so its week's Thursday is 31 December 2020,
      in week 53 of 2020. */
  lemma NewYearsDay2021(day: int)
    requires day == 18628
    ensures YearOf(day) == 2021 && IsoWeek(day) == 53
  {
    YearStarts();
    YearOfUnique(day, 2021);
    ThursdayOf(day);
    assert (day + 3) / 7 == 2661;
    YearOfUnique(day - 1, 2020);
    WeeksBetween(2661, YearStart(2020), YearStart(2021));
    assert (YearStart(2020) + 6) / 7 == 2609;
  }

  /** 4 January 2021 is in week 1 of 2021. */
  lemma FourthOfJanuary2021(day: int)
    requires day == 18631
    ensures YearOf(day) == 2021 && IsoWeek(day) == 1
  {
    YearStarts();
    YearOfUnique(day, 2021);
    Jan4InWeekOne(2021);
  }

  lemma YearText()
    ensures IntToString(2021) == "2021"
  {
    assert NatToString(2) == "2";
    assert NatToString(20) == "20";
    assert NatToString(202) == "202";
  }

  lemma WeekTexts()
    ensures PadStart2(NatToString(53)) == "53" && PadStart2(NatToString(1)) == "01"
  {
    assert NatToString(5) == "5";
    assert NatToString(1) == "1";
  }

  /** The two labels of early January 2021, spelled out. */
  lemma LabelTexts()
    ensures IntToString(2021) + "-W" + PadStart2(NatToString(53)) == "2021-W53"
    ensures IntToString(2021) + "-W" + PadStart2(NatToString(1)) == "2021-W01"
  {
    YearText();
    WeekTexts();
  }

  /** The label of an instant whose year and week number are known. */
  lemma WeekKeyOf(t: int, y: int, w: nat)
    requires YearOf(DayNumber(t)) == y && IsoWeek(DayNumber(t)) == w
    ensures WeekKey(t) == IntToString(y) + "-W" + PadStart2(NatToString(w))
  {
  }

  /** Every instant of 1 January 2021 is labelled "2021-W53". */
  lemma NewYearsDayLabel(t: int)
    requires DayNumber(t) == 18628
    ensures WeekKey(t) == "2021-W53"
  {
    NewYearsDay2021(DayNumber(t));
    WeekKeyOf(t, 2021, 53);
    LabelTexts();
  }

  /** Every instant of 4 January 2021 is labelled "2021-W01". */
  lemma FourthOfJanuaryLabel(t: int)
    requires DayNumber(t) == 18631
    ensures WeekKey(t) == "2021-W01"
  {
    FourthOfJanuary2021(DayNumber(t));
    WeekKeyOf(t, 2021, 1);
    LabelTexts();
  }

  /** An interview on 1 January 2021 (day 18628, in ISO week 53 of 2020) is
      labelled with the calendar year, "2021-W53", and that label sorts after
      the label "2021-W01" of one on the following Monday. */
  lemma CalendarYearLabel(t: int, u: int)
    requires DayNumber(t) == 18628 && DayNumber(u) == 18631
    ensures WeekKey(t) == "2021-W53" && WeekKey(u) == "2021-W01"
    ensures t < u && LexLess(WeekKey(u), WeekKey(t))
  {
    NewYearsDayLabel(t);
    FourthOfJanuaryLabel(u);
    assert LexLess("0", "5");
    assert LexLess("W01", "W53");
    assert LexLess("-W01", "-W53");
    assert LexLess("1-W01", "1-W53");
    assert LexLess("21-W01", "21-W53");
    assert LexLess("021-W01", "021-W53");
  }

  /** `Interview.find({ user_id, createdAt: { $gte: since } })`. */
  function RecentInterviews(ivs: seq<Interview>, userId: UserId, since: int): (r: seq<Interview>)
    ensures forall iv :: iv in r <==> iv in ivs && iv.userId == userId && iv.createdAt >= since
    ensures forall iv :: multiset(r)[iv] == if iv.userId == userId && iv.createdAt >= since then multiset(ivs)[iv] else 0
    decreases |ivs|
  {
    if ivs == [] then []
    else
      assert ivs == [ivs[0]] + ivs[1..];
      if ivs[0].userId == userId && ivs[0].createdAt >= since then [ivs[0]] + RecentInterviews(ivs[1..], userId, since)
      else RecentInterviews(ivs[1..], userId, since)
  }

  /** A label with a correct and a total count: one entry of `trendsMap`, or
      what one interview contributes to it. */
  datatype WeekTally = WeekTally(key: string, correct: nat, total: nat)

  /** What one interview adds to its week. */
  function Observe(iv: Interview): WeekTally {
    WeekTally(WeekKey(iv.createdAt), iv.correctAnswers, iv.totalQuestions)
  }

  function Observations(ivs: seq<Interview>): (obs: seq<WeekTally>)
    ensures |obs| == |ivs| && forall i :: 0 <= i < |ivs| ==> obs[i] == Observe(ivs[i])
  {
    seq(|ivs|, i requires 0 <= i < |ivs| => Observe(ivs[i]))
  }

  /** An observed label comes from some interview. */
  lemma ObservedFrom(ivs: seq<Interview>, o: WeekTally) returns (iv: Interview)
    requires o in Observations(ivs)
    ensures iv in ivs && WeekKey(iv.createdAt) == o.key
  {
    var obs := Observations(ivs);
    var j :| 0 <= j < |obs| && obs[j] == o;
    iv := ivs[j];
  }

  /** Every interview is observed under its own label. */
  lemma ObservedAs(ivs: seq<Interview>, iv: Interview) returns (o: WeekTally)
    requires iv in ivs
    ensures o in Observations(ivs) && o.key == WeekKey(iv.createdAt)
  {
    var j :| 0 <= j < |ivs| && ivs[j] == iv;
    o := Observations(ivs)[j];
  }

  /** The correct answers observed under a label, and the questions. */
  function CorrectUnder(obs: seq<WeekTally>, key: string): nat
    decreases |obs|
  {
    if obs == [] then 0
    else CorrectUnder(obs[..|obs| - 1], key) + (if obs[|obs| - 1].key == key then obs[|obs| - 1].correct else 0)
  }

  function TotalUnder(obs: seq<WeekTally>, key: string): nat
    decreases |obs|
  {
    if obs == [] then 0
    else TotalUnder(obs[..|obs| - 1], key) + (if obs[|obs| - 1].key == key then obs[|obs| - 1].total else 0)
  }

  /** Some observation carries the label. */
  predicate Seen(obs: seq<WeekTally>, key: string)
    decreases |obs|
  {
    obs != [] && (Seen(obs[..|obs| - 1], key) || obs[|obs| - 1].key == key)
  }

  /** `key in trendsMap`. */
  predicate HasKey(ts: seq<WeekTally>, key: string)
    decreases |ts|
  {
    ts != [] && (ts[0].key == key || HasKey(ts[1..], key))
  }

  /** No label occurs twice. */
  predicate Distinct(ts: seq<WeekTally>)
    decreases |ts|
  {
    ts == [] || (!HasKey(ts[1..], ts[0].key) && Distinct(ts[1..]))
  }

  /** The counts stored under a label, zero when the label is absent. */
  function CountsOf(ts: seq<WeekTally>, key: string): (nat, nat)
    decreases |ts|
  {
    if ts == [] then (0, 0)
    else if ts[0].key == key then (ts[0].correct, ts[0].total)
    else CountsOf(ts[1..], key)
  }

  /** `if (!trendsMap[key]) trendsMap[key] = { correct: 0, total: 0 };`
      followed by adding one interview's counters to the entry. */
  function AddTo(ts: seq<WeekTally>, o: WeekTally): seq<WeekTally>
    decreases |ts|
  {
    if ts == [] then [o]
    else if ts[0].key == o.key then [ts[0].(correct := ts[0].correct + o.correct, total := ts[0].total + o.total)] + ts[1..]
    else [ts[0]] + AddTo(ts[1..], o)
  }

  /** `trendsMap` after the loop over the observations. */
  function Tally(obs: seq<WeekTally>): seq<WeekTally>
    decreases |obs|
  {
    if obs == [] then [] else AddTo(Tally(obs[..|obs| - 1]), obs[|obs| - 1])
  }

  /** Adding to a tally creates the label if it was absent and keeps the others. */
  lemma {:induction false} AddToKeys(ts: seq<WeekTally>, o: WeekTally, other: string)
    ensures HasKey(AddTo(ts, o), other) == (HasKey(ts, other) || other == o.key)
    decreases |ts|
  {
    if ts != [] && ts[0].key != o.key {
      AddToKeys(ts[1..], o, other);
      assert AddTo(ts, o)[1..] == AddTo(ts[1..], o);
    }
  }

  /** Adding to a tally keeps its labels distinct. */
  lemma {:induction false} AddToDistinct(ts: seq<WeekTally>, o: WeekTally)
    requires Distinct(ts)
    ensures Distinct(AddTo(ts, o))
    decreases |ts|
  {
    var r := AddTo(ts, o);
    if ts == [] {
    } else if ts[0].key == o.key {
      assert r[1..] == ts[1..];
    } else {
      AddToDistinct(ts[1..], o);
      AddToKeys(ts[1..], o, ts[0].key);
      assert r[1..] == AddTo(ts[1..], o);
    }
  }

  /** Adding to a tally adds the counters to its label only. */
  lemma {:induction false} AddToCounts(ts: seq<WeekTally>, o: WeekTally, other: string)
    ensures CountsOf(AddTo(ts, o), other) ==
      if other == o.key then (CountsOf(ts, other).0 + o.correct, CountsOf(ts, other).1 + o.total) else CountsOf(ts, other)
    decreases |ts|
  {
    if ts != [] && ts[0].key != o.key {
      AddToCounts(ts[1..], o, other);
      assert AddTo(ts, o)[1..] == AddTo(ts[1..], o);
    }
  }

  lemma {:induction false} MemberHasKey(ts: seq<WeekTally>, x: WeekTally)
    requires x in ts
    ensures HasKey(ts, x.key)
    decreases |ts|
  {
    if ts[0] != x {
      assert x in ts[1..];
      MemberHasKey(ts[1..], x);
    }
  }

  lemma {:induction false} KeyWitness(ts: seq<WeekTally>, key: string) returns (x: WeekTally)
    requires HasKey(ts, key)
    ensures x in ts && x.key == key
    decreases |ts|
  {
    if ts[0].key == key {
      x := ts[0];
    } else {
      x := KeyWitness(ts[1..], key);
    }
  }

  lemma {:induction false} MemberSeen(obs: seq<WeekTally>, o: WeekTally)
    requires o in obs
    ensures Seen(obs, o.key)
    decreases |obs|
  {
    if obs[|obs| - 1] != o {
      assert o in obs[..|obs| - 1];
      MemberSeen(obs[..|obs| - 1], o);
    }
  }

  lemma {:induction false} SeenWitness(obs: seq<WeekTally>, key: string) returns (o: WeekTally)
    requires Seen(obs, key)
    ensures o in obs && o.key == key
    decreases |obs|
  {
    if obs[|obs| - 1].key == key {
      o := obs[|obs| - 1];
    } else {
      o := SeenWitness(obs[..|obs| - 1], key);
      assert o in obs[..|obs| - 1];
      assert obs[..|obs| - 1] <= obs;
    }
  }

  /** A tally with distinct labels holds, in each entry, the counts of its label. */
  lemma {:induction false} CountsOfMember(ts: seq<WeekTally>, x: WeekTally)
    requires Distinct(ts) && x in ts
    ensures CountsOf(ts, x.key) == (x.correct, x.total)
    decreases |ts|
  {
    if ts[0] != x {
      assert x in ts[1..];
      MemberHasKey(ts[1..], x);
      CountsOfMember(ts[1..], x);
    }
  }

  /** After the loop, labels are distinct, a label is present exactly when
      some observation carries it, and its entry sums those observations. */
  lemma {:induction false} TallySpec(obs: seq<WeekTally>, key: string)
    ensures Distinct(Tally(obs))
    ensures HasKey(Tally(obs), key) == Seen(obs, key)
    ensures CountsOf(Tally(obs), key) == (CorrectUnder(obs, key), TotalUnder(obs, key))
    decreases |obs|
  {
    if obs != [] {
      var prefix := obs[..|obs| - 1];
      var o := obs[|obs| - 1];
      TallySpec(prefix, key);
      AddToDistinct(Tally(prefix), o);
      AddToKeys(Tally(prefix), o, key);
      AddToCounts(Tally(prefix), o, key);
    }
  }

  // ------------------------------------------------------ sorting the labels

  predicate StrictlySorted(ts: seq<WeekTally>) {
    forall i, j :: 0 <= i < j < |ts| ==> LexLess(ts[i].key, ts[j].key)
  }

  function Insert(x: WeekTally, ts: seq<WeekTally>): seq<WeekTally>
    decreases |ts|
  {
    if ts == [] then [x]
    else if LexLess(x.key, ts[0].key) then [x] + ts
    else [ts[0]] + Insert(x, ts[1..])
  }

  /** `Object.keys(trendsMap).sort()`, carrying each label's counts along. */
  function SortByKey(ts: seq<WeekTally>): seq<WeekTally>
    decreases |ts|
  {
    if ts == [] then [] else Insert(ts[0], SortByKey(ts[1..]))
  }

  /** Every label of `ts` lies above `k`. */
  predicate AllAbove(k: string, ts: seq<WeekTally>) {
    forall j :: 0 <= j < |ts| ==> LexLess(k, ts[j].key)
  }

  /** Putting an entry below every label in front of a sorted sequence keeps it sorted. */
  lemma ConsSorted(h: WeekTally, ts: seq<WeekTally>)
    requires StrictlySorted(ts) && AllAbove(h.key, ts)
    ensures StrictlySorted([h] + ts)
  {
    var r := [h] + ts;
    forall i, j | 0 <= i < j < |r| ensures LexLess(r[i].key, r[j].key) {
      if i > 0 {
        assert r[i] == ts[i - 1] && r[j] == ts[j - 1];
      }
    }
  }

  /** A bound below every entry of `tail` and below `x` is below every entry
      of any arrangement of them. */
  lemma MultisetAbove(k: string, x: WeekTally, tail: seq<WeekTally>, rest: seq<WeekTally>)
    requires AllAbove(k, tail) && LexLess(k, x.key)
    requires multiset(rest) == multiset(tail) + multiset{x}
    ensures AllAbove(k, rest)
  {
    forall j | 0 <= j < |rest| ensures LexLess(k, rest[j].key) {
      var y := rest[j];
      assert y in multiset(rest);
      if y != x {
        assert y in multiset(tail);
        var i :| 0 <= i < |tail| && tail[i] == y;
      }
    }
  }

  /** In a sorted sequence, every label after the head lies above the head's. */
  lemma SortedTailAbove(ts: seq<WeekTally>)
    requires StrictlySorted(ts) && ts != []
    ensures StrictlySorted(ts[1..]) && AllAbove(ts[0].key, ts[1..])
  {
    assert forall j :: 0 <= j < |ts[1..]| ==> ts[1..][j] == ts[j + 1];
  }

  lemma {:induction false} InsertSorted(x: WeekTally, ts: seq<WeekTally>)
    requires StrictlySorted(ts)
    requires forall y :: y in ts ==> y.key != x.key
    ensures StrictlySorted(Insert(x, ts))
    ensures multiset(Insert(x, ts)) == multiset(ts) + multiset{x}
    decreases |ts|
  {
    if ts == [] {
    } else if LexLess(x.key, ts[0].key) {
      forall j | 0 <= j < |ts| ensures LexLess(x.key, ts[j].key) {
        if j > 0 {
          LexLessTransitive(x.key, ts[0].key, ts[j].key);
        }
      }
      ConsSorted(x, ts);
    } else {
      var tail := ts[1..];
      LexLessTotal(x.key, ts[0].key);
      SortedTailAbove(ts);
      assert forall y :: y in tail ==> y in ts;
      InsertSorted(x, tail);
      var rest := Insert(x, tail);
      MultisetAbove(ts[0].key, x, tail, rest);
      ConsSorted(ts[0], rest);
      assert ts == [ts[0]] + tail;
    }
  }

  /** A label absent from a sequence is absent from any rearrangement of it. */
  lemma KeyAbsentAfterSort(ts: seq<WeekTally>, sorted: seq<WeekTally>, key: string)
    requires multiset(sorted) == multiset(ts) && !HasKey(ts, key)
    ensures forall y :: y in sorted ==> y.key != key
  {
    forall y | y in sorted ensures y.key != key {
      assert y in multiset(sorted);
      MemberHasKey(ts, y);
    }
  }

  /** The sort returns the same entries, in strictly increasing label order. */
  lemma {:induction false} SortByKeySpec(ts: seq<WeekTally>)
    requires Distinct(ts)
    ensures StrictlySorted(SortByKey(ts))
    ensures multiset(SortByKey(ts)) == multiset(ts)
    decreases |ts|
  {
    if ts != [] {
      var tail := ts[1..];
      SortByKeySpec(tail);
      KeyAbsentAfterSort(tail, SortByKey(tail), ts[0].key);
      InsertSorted(ts[0], SortByKey(tail));
      assert ts == [ts[0]] + tail;
    }
  }

  /** Every entry of the sorted tally is a label some observation carries,
      holding the summed counts of that label. */
  lemma SortedEntries(obs: seq<WeekTally>, x: WeekTally)
    requires x in SortByKey(Tally(obs))
    ensures x.correct == CorrectUnder(obs, x.key) && x.total == TotalUnder(obs, x.key)
    ensures exists o :: o in obs && o.key == x.key
  {
    var tally := Tally(obs);
    TallySpec(obs, x.key);
    SortByKeySpec(tally);
    assert x in multiset(tally);
    CountsOfMember(tally, x);
    MemberHasKey(tally, x);
    var o := SeenWitness(obs, x.key);
  }

  /** Every observed label has an entry in the sorted tally. */
  lemma SortedCovers(obs: seq<WeekTally>, o: WeekTally) returns (i: nat)
    requires o in obs
    ensures i < |SortByKey(Tally(obs))| && SortByKey(Tally(obs))[i].key == o.key
  {
    var tally := Tally(obs);
    var s := SortByKey(tally);
    TallySpec(obs, o.key);
    SortByKeySpec(tally);
    MemberSeen(obs, o);
    var x := KeyWitness(tally, o.key);
    assert x in multiset(s);
    i :| 0 <= i < |s| && s[i] == x;
  }

  /** One point of the trends series. */
  datatype TrendPoint = TrendPoint(date: string, accuracy: real)

  function ToPoint(t: WeekTally): TrendPoint {
    TrendPoint(t.key, Accuracy(t.correct, t.total))
  }

  /** `.map(key => ({ date: key, accuracy }))` over the sorted tally. */
  function Points(sorted: seq<WeekTally>): (r: seq<TrendPoint>)
    ensures |r| == |sorted| && forall k :: 0 <= k < |sorted| ==> r[k] == ToPoint(sorted[k])
  {
    seq(|sorted|, k requires 0 <= k < |sorted| => ToPoint(sorted[k]))
  }

  /** The series built from the final tally: sorted labels mapped to points. */
  function Trends(obs: seq<WeekTally>): (r: seq<TrendPoint>)
    ensures |r| == |SortByKey(Tally(obs))|
  {
    Points(SortByKey(Tally(obs)))
  }

  /** The points come in strictly increasing label order. */
  lemma TrendsSorted(obs: seq<WeekTally>)
    ensures var r := Trends(obs); forall i, j :: 0 <= i < j < |r| ==> LexLess(r[i].date, r[j].date)
  {
    TallySpec(obs, "");
    SortByKeySpec(Tally(obs));
  }

  /** What the series promises about the observations it was built from: it
      is in strictly increasing label order, each point's accuracy is that of
      its label's summed counters, each point is an observed label, and every
      observed label has a point. */
  predicate IsTrendsOf(obs: seq<WeekTally>, r: seq<TrendPoint>) {
    && (forall i, j :: 0 <= i < j < |r| ==> LexLess(r[i].date, r[j].date))
    && (forall i :: 0 <= i < |r| ==> r[i].accuracy == Accuracy(CorrectUnder(obs, r[i].date), TotalUnder(obs, r[i].date)))
    && (forall i :: 0 <= i < |r| ==> Seen(obs, r[i].date))
    && (forall o :: o in obs ==> exists i :: 0 <= i < |r| && r[i].date == o.key)
  }

  /** Each point carries an observed label and that label's accuracy. */
  lemma TrendsAccurate(obs: seq<WeekTally>)
    ensures var r := Trends(obs);
      && (forall i :: 0 <= i < |r| ==> r[i].accuracy == Accuracy(CorrectUnder(obs, r[i].date), TotalUnder(obs, r[i].date)))
      && (forall i :: 0 <= i < |r| ==> Seen(obs, r[i].date))
  {
    var r := Trends(obs);
    var sorted := SortByKey(Tally(obs));
    forall k | 0 <= k < |r|
      ensures r[k].accuracy == Accuracy(CorrectUnder(obs, r[k].date), TotalUnder(obs, r[k].date))
      ensures Seen(obs, r[k].date)
    {
      SortedEntries(obs, sorted[k]);
      var o :| o in obs && o.key == sorted[k].key;
      MemberSeen(obs, o);
    }
  }

  /** Every observed label has a point. */
  lemma TrendsComplete(obs: seq<WeekTally>)
    ensures var r := Trends(obs); forall o :: o in obs ==> exists i :: 0 <= i < |r| && r[i].date == o.key
  {
    var r := Trends(obs);
    var sorted := SortByKey(Tally(obs));
    forall o | o in obs ensures exists k :: 0 <= k < |r| && r[k].date == o.key {
      var k := SortedCovers(obs, o);
      assert r[k].date == sorted[k].key;
    }
  }

  /** The series built from the tally keeps every promise of `IsTrendsOf`. */
  lemma TrendsSpec(obs: seq<WeekTally>)
    ensures IsTrendsOf(obs, Trends(obs))
  {
    TrendsSorted(obs);
    TrendsAccurate(obs);
    TrendsComplete(obs);
  }

  /** Each point is a label some interview carries, with the accuracy of that
      label's summed counters. */
  lemma TrendsPoints(ivs: seq<Interview>, k: nat)
    requires k < |Trends(Observations(ivs))|
    ensures var p := Trends(Observations(ivs))[k];
      && p.accuracy == Accuracy(CorrectUnder(Observations(ivs), p.date), TotalUnder(Observations(ivs), p.date))
      && exists iv :: iv in ivs && WeekKey(iv.createdAt) == p.date
  {
    var obs := Observations(ivs);
    var x := SortByKey(Tally(obs))[k];
    SortedEntries(obs, x);
    var o :| o in obs && o.key == x.key;
    var iv := ObservedFrom(ivs, o);
  }

  /** Every interview's label has a point. */
  lemma TrendsCover(ivs: seq<Interview>, iv: Interview) returns (k: nat)
    requires iv in ivs
    ensures k < |Trends(Observations(ivs))| && Trends(Observations(ivs))[k].date == WeekKey(iv.createdAt)
  {
    var o := ObservedAs(ivs, iv);
    k := SortedCovers(Observations(ivs), o);
  }

  // ------------------------------------------------ independence of order

  /** Splitting the observations splits each label's sums. */
  lemma {:induction false} UnderAppend(a: seq<WeekTally>, b: seq<WeekTally>, key: string)
    ensures CorrectUnder(a + b, key) == CorrectUnder(a, key) + CorrectUnder(b, key)
    ensures TotalUnder(a + b, key) == TotalUnder(a, key) + TotalUnder(b, key)
    decreases |b|
  {
    if b == [] {
      assert a + b == a;
    } else {
      var init := b[..|b| - 1];
      UnderAppend(a, init, key);
      assert (a + b)[..|a + b| - 1] == a + init;
    }
  }

  /** Taking the last element off one of two permutations and the same
      element off the other leaves two permutations. */
  lemma RemoveMatching<T>(s: seq<T>, other: seq<T>, j: nat)
    requires s != [] && j < |other| && other[j] == s[|s| - 1] && multiset(s) == multiset(other)
    ensures multiset(other[..j] + other[j + 1..]) == multiset(s[..|s| - 1])
  {
    var x := s[|s| - 1];
    assert s == s[..|s| - 1] + [x];
    assert other == other[..j] + [x] + other[j + 1..];
    assert multiset(other) == multiset(other[..j]) + multiset{x} + multiset(other[j + 1..]);
    assert multiset(s) == multiset(s[..|s| - 1]) + multiset{x};
    var rest := other[..j] + other[j + 1..];
    assert multiset(rest) == multiset(other[..j]) + multiset(other[j + 1..]);
    forall y ensures multiset(rest)[y] == multiset(s[..|s| - 1])[y] {
      assert multiset(other)[y] == multiset(rest)[y] + multiset{x}[y];
      assert multiset(s)[y] == multiset(s[..|s| - 1])[y] + multiset{x}[y];
    }
  }

  /** A label's sums do not depend on the order of the observations. */
  lemma {:induction false} UnderPermutation(obs: seq<WeekTally>, other: seq<WeekTally>, key: string)
    requires multiset(obs) == multiset(other)
    ensures CorrectUnder(obs, key) == CorrectUnder(other, key)
    ensures TotalUnder(obs, key) == TotalUnder(other, key)
    decreases |obs|
  {
    if obs == [] {
      assert |other| == |multiset(other)| == 0;
    } else {
      var x := obs[|obs| - 1];
      var init := obs[..|obs| - 1];
      assert obs == init + [x];
      assert x in multiset(other);
      var j :| 0 <= j < |other| && other[j] == x;
      var before, after := other[..j], other[j + 1..];
      assert other == before + [x] + after;
      RemoveMatching(obs, other, j);
      UnderPermutation(init, before + after, key);
      UnderAppend(before, [x], key);
      UnderAppend(before + [x], after, key);
      UnderAppend(before, after, key);
      assert [x][..0] == [];
    }
  }

  /** The series is fixed by `IsTrendsOf`: two sequences of points that are
      both strictly ordered by label and hold the same points are equal. */
  lemma {:induction false} SortedPointsEqual(r1: seq<TrendPoint>, r2: seq<TrendPoint>)
    requires forall i, j :: 0 <= i < j < |r1| ==> LexLess(r1[i].date, r1[j].date)
    requires forall i, j :: 0 <= i < j < |r2| ==> LexLess(r2[i].date, r2[j].date)
    requires forall p :: p in r1 <==> p in r2
    ensures r1 == r2
    decreases |r1|
  {
    if r1 == [] {
      forall p ensures multiset(r2)[p] == 0 {
        assert p !in r1;
      }
      assert multiset(r2) == multiset{};
      assert |r2| == |multiset(r2)| == 0;
    } else {
      assert r1[0] in r2;
      SameFirstPoint(r1, r2);
      forall p | p in r1[1..] ensures p in r2[1..] {
        TailMember(r1, r2, p);
      }
      forall p | p in r2[1..] ensures p in r1[1..] {
        TailMember(r2, r1, p);
      }
      SortedPointsEqual(r1[1..], r2[1..]);
      assert r1 == [r1[0]] + r1[1..] && r2 == [r2[0]] + r2[1..];
    }
  }

  /** Two strictly ordered series holding the same points start alike. */
  lemma SameFirstPoint(r1: seq<TrendPoint>, r2: seq<TrendPoint>)
    requires forall i, j :: 0 <= i < j < |r1| ==> LexLess(r1[i].date, r1[j].date)
    requires forall i, j :: 0 <= i < j < |r2| ==> LexLess(r2[i].date, r2[j].date)
    requires forall p :: p in r1 <==> p in r2
    requires r1 != [] && r2 != []
    ensures r1[0] == r2[0]
  {
    assert r1[0] in r2;
    var j :| 0 <= j < |r2| && r2[j] == r1[0];
    assert r2[0] in r1;
    var i :| 0 <= i < |r1| && r1[i] == r2[0];
    if i > 0 && j > 0 {
      LexLessTransitive(r1[0].date, r2[0].date, r1[0].date);
      LexLessIrreflexive(r1[0].date);
    }
  }

  /** A point after the first of a strictly ordered series is not the first
      point, so it lies in the tail of any series starting with that point. */
  lemma TailMember(r1: seq<TrendPoint>, r2: seq<TrendPoint>, p: TrendPoint)
    requires forall i, j :: 0 <= i < j < |r1| ==> LexLess(r1[i].date, r1[j].date)
    requires r1 != [] && r2 != [] && r1[0] == r2[0] && p in r1[1..] && p in r2
    ensures p in r2[1..]
  {
    var k :| 0 <= k < |r1[1..]| && r1[1..][k] == p;
    assert LexLess(r1[0].date, r1[k + 1].date);
    LexLessIrreflexive(r1[0].date);
    var m :| 0 <= m < |r2| && r2[m] == p;
    assert m != 0 && r2[1..][m - 1] == p;
  }

  /** At most one series meets `IsTrendsOf` for given observations. */
  lemma TrendsOfUnique(obs: seq<WeekTally>, r1: seq<TrendPoint>, r2: seq<TrendPoint>)
    requires IsTrendsOf(obs, r1) && IsTrendsOf(obs, r2)
    ensures r1 == r2
  {
    forall p | p in r1 ensures p in r2 {
      PointShared(obs, r1, r2, p);
    }
    forall p | p in r2 ensures p in r1 {
      PointShared(obs, r2, r1, p);
    }
    SortedPointsEqual(r1, r2);
  }

  lemma PointShared(obs: seq<WeekTally>, r1: seq<TrendPoint>, r2: seq<TrendPoint>, p: TrendPoint)
    requires IsTrendsOf(obs, r1) && IsTrendsOf(obs, r2) && p in r1
    ensures p in r2
  {
    var i :| 0 <= i < |r1| && r1[i] == p;
    var o := SeenWitness(obs, p.date);
    var k :| 0 <= k < |r2| && r2[k].date == o.key;
    assert r2[k] == p;
  }

  /** `IsTrendsOf` holds of a series for observations in any order. */
  lemma TrendsOfPermutation(obs: seq<WeekTally>, other: seq<WeekTally>, r: seq<TrendPoint>)
    requires multiset(obs) == multiset(other) && IsTrendsOf(other, r)
    ensures IsTrendsOf(obs, r)
  {
    forall i | 0 <= i < |r|
      ensures r[i].accuracy == Accuracy(CorrectUnder(obs, r[i].date), TotalUnder(obs, r[i].date))
    {
      UnderPermutation(obs, other, r[i].date);
    }
    forall i | 0 <= i < |r| ensures Seen(obs, r[i].date) {
      var o := SeenWitness(other, r[i].date);
      assert o in multiset(other);
      MemberSeen(obs, o);
    }
    forall o | o in obs ensures exists i :: 0 <= i < |r| && r[i].date == o.key {
      assert o in multiset(obs);
      assert o in other;
    }
  }

  /** `f` applied to every element, in order. */
  function MapSeq<A, B>(f: A -> B, s: seq<A>): (r: seq<B>)
    ensures |r| == |s| && forall i :: 0 <= i < |s| ==> r[i] == f(s[i])
  {
    seq(|s|, i requires 0 <= i < |s| => f(s[i]))
  }

  /** Mapping two permutations of each other gives two permutations. */
  lemma {:induction false} MapPermutation<A, B>(f: A -> B, s: seq<A>, other: seq<A>)
    requires multiset(s) == multiset(other)
    ensures multiset(MapSeq(f, s)) == multiset(MapSeq(f, other))
    decreases |s|
  {
    if s == [] {
      assert |other| == |multiset(other)| == 0;
    } else {
      var x := s[|s| - 1];
      var init := s[..|s| - 1];
      assert x in multiset(other);
      var j :| 0 <= j < |other| && other[j] == x;
      var before, after := other[..j], other[j + 1..];
      RemoveMatching(s, other, j);
      MapPermutation(f, init, before + after);
      assert MapSeq(f, s) == MapSeq(f, init) + [f(x)];
      assert MapSeq(f, before + after) == MapSeq(f, before) + MapSeq(f, after);
      assert MapSeq(f, other) == MapSeq(f, before) + [f(x)] + MapSeq(f, after);
    }
  }

  /** Observing the interviews in another order observes the same multiset. */
  lemma ObservationsPermutation(ivs: seq<Interview>, other: seq<Interview>)
    requires multiset(ivs) == multiset(other)
    ensures multiset(Observations(ivs)) == multiset(Observations(other))
  {
    MapPermutation(Observe, ivs, other);
    assert Observations(ivs) == MapSeq(Observe, ivs);
    assert Observations(other) == MapSeq(Observe, other);
  }

  /** The series does not depend on the order the interviews are fetched in,
      so the fetch's `createdAt` sort does not affect the result. */
  lemma TrendsIgnoreOrder(ivs: seq<Interview>, other: seq<Interview>)
    requires multiset(ivs) == multiset(other)
    ensures Trends(Observations(ivs)) == Trends(Observations(other))
  {
    ObservationsPermutation(ivs, other);
    TrendsSpec(Observations(ivs));
    TrendsSpec(Observations(other));
    TrendsOfPermutation(Observations(ivs), Observations(other), Trends(Observations(other)));
    TrendsOfUnique(Observations(ivs), Trends(Observations(ivs)), Trends(Observations(other)));
  }

  /** The label and counters one interview adds, computed. */
  method ObserveInterview(iv: Interview) returns (o: WeekTally)
    ensures o == Observe(iv)
  {
    var key := WeekKey(iv.createdAt);
    o := WeekTally(key, iv.correctAnswers, iv.totalQuestions);
  }

  /** Tallying one more observation adds it to the tally so far. */
  lemma TallyStep(obs: seq<WeekTally>, i: nat)
    requires i < |obs|
    ensures Tally(obs[..i + 1]) == AddTo(Tally(obs[..i]), obs[i])
  {
    assert obs[..i + 1][..i] == obs[..i];
  }

  /** The `forEach` of `getProgressTrends`: each interview's counters are
      added to the entry of its week label, created on first sight. */
  method TallyInterviews(recent: seq<Interview>) returns (trendsMap: seq<WeekTally>)
    ensures trendsMap == Tally(Observations(recent))
  {
    ghost var obs := Observations(recent);
    trendsMap := [];
    for i := 0 to |recent|
      invariant trendsMap == Tally(obs[..i])
    {
      var interview := recent[i];
      var week := ObserveInterview(interview);
      TallyStep(obs, i);
      trendsMap := AddTo(trendsMap, week);
    }
    assert obs[..|recent|] == obs;
  }

  /** `getProgressTrends` at time `now` (milliseconds): one point per week
      label of the user's interviews of the last 30 days, in label order, each
      with the accuracy of that week's summed counters. */
  method GetProgressTrends(userId: UserId, interviews: seq<Interview>, now: int) returns (trends: seq<TrendPoint>)
    ensures var obs := Observations(RecentInterviews(interviews, userId, now - ThirtyDaysMs));
      trends == Trends(obs) && IsTrendsOf(obs, trends)
  {
    var thirtyDaysAgo := now - ThirtyDaysMs;
    var recent := RecentInterviews(interviews, userId, thirtyDaysAgo);
    var trendsMap := TallyInterviews(recent);
    var sorted := SortByKey(trendsMap);
    trends := Points(sorted);
    ghost var obs := Observations(recent);
    assert trends == Trends(obs);
    TrendsSpec(obs);
  }
}
