/** The rollup update rule of `updateAnalytics`: what one graded answer does
    to the (user, topic) rollup and to the collection of rollups. */
module AnalyticsUpdate {
  import opened Wrappers
  import opened Records

  /** One bucket after a graded answer. */
  function BumpBucket(b: BucketStats, isCorrect: bool): BucketStats {
    BucketStats(b.total + 1, if isCorrect then b.correct + 1 else b.correct)
  }

  /** `difficulty_stats[diffKey]` after a graded answer: only the bucket the
      difficulty names moves. */
  function BumpDifficulty(s: DifficultyStats, d: Difficulty, isCorrect: bool): DifficultyStats {
    match d
    case Easy => s.(easy := BumpBucket(s.easy, isCorrect))
    case Medium => s.(medium := BumpBucket(s.medium, isCorrect))
    case Hard => s.(hard := BumpBucket(s.hard, isCorrect))
  }

  /** A rollup after one graded answer at time `now`. */
  function RecordAnswer(r: Rollup, d: Difficulty, isCorrect: bool, now: int): Rollup {
    var total := r.totalQuestions + 1;
    var correct := if isCorrect then r.correctAnswers + 1 else r.correctAnswers;
    r.(totalQuestions := total,
       correctAnswers := correct,
       accuracy := Percent(correct, total),
       difficultyStats := BumpDifficulty(r.difficultyStats, d, isCorrect),
       lastUpdated := now)
  }

  /** Bumping a difficulty moves its own bucket by the answer and no other,
      so the bucket sums move with the rollup's counters. */
  lemma BumpDifficultyEffect(s: DifficultyStats, d: Difficulty, isCorrect: bool, other: Difficulty)
    ensures var s' := BumpDifficulty(s, d, isCorrect);
      && Bucket(s', d) == BumpBucket(Bucket(s, d), isCorrect)
      && (other != d ==> Bucket(s', other) == Bucket(s, other))
      && BucketTotalSum(s') == BucketTotalSum(s) + 1
      && BucketCorrectSum(s') == BucketCorrectSum(s) + (if isCorrect then 1 else 0)
  {
  }

  /** One graded answer raises the total by one, the correct count by one
      exactly when the answer is correct, moves only the bucket of its
      difficulty, and keeps the rollup valid. */
  lemma RecordAnswerEffect(r: Rollup, d: Difficulty, isCorrect: bool, now: int, other: Difficulty)
    requires RollupInv(r)
    ensures var r' := RecordAnswer(r, d, isCorrect, now);
      && RollupInv(r')
      && r'.userId == r.userId && r'.topic == r.topic
      && r'.totalQuestions == r.totalQuestions + 1
      && r'.correctAnswers == r.correctAnswers + (if isCorrect then 1 else 0)
      && 0.0 <= r'.accuracy <= 100.0
      && Bucket(r'.difficultyStats, d).total == Bucket(r.difficultyStats, d).total + 1
      && Bucket(r'.difficultyStats, d).correct == Bucket(r.difficultyStats, d).correct + (if isCorrect then 1 else 0)
      && (other != d ==> Bucket(r'.difficultyStats, other) == Bucket(r.difficultyStats, other))
  {
    var r' := RecordAnswer(r, d, isCorrect, now);
    BumpDifficultyEffect(r.difficultyStats, d, isCorrect, other);
    forall e ensures Bucket(r'.difficultyStats, e).correct <= Bucket(r'.difficultyStats, e).total {
      BumpDifficultyEffect(r.difficultyStats, d, isCorrect, e);
      assert Bucket(r.difficultyStats, e).correct <= Bucket(r.difficultyStats, e).total;
    }
    assert RollupInv(r');
    RollupAccuracyBounds(r');
  }

  /** One graded answer as `submitAnswer` reports it to the rollup. */
  datatype GradedAnswer = GradedAnswer(difficulty: Difficulty, isCorrect: bool, at: int)

  /** The rollup after a sequence of graded answers, oldest first. */
  function Replay(r: Rollup, events: seq<GradedAnswer>): Rollup
    decreases |events|
  {
    if events == [] then r
    else
      var e := events[|events| - 1];
      RecordAnswer(Replay(r, events[..|events| - 1]), e.difficulty, e.isCorrect, e.at)
  }

  function CountCorrect(events: seq<GradedAnswer>): nat
    decreases |events|
  {
    if events == [] then 0
    else CountCorrect(events[..|events| - 1]) + (if events[|events| - 1].isCorrect then 1 else 0)
  }

  function CountAt(events: seq<GradedAnswer>, d: Difficulty): nat
    decreases |events|
  {
    if events == [] then 0
    else CountAt(events[..|events| - 1], d) + (if events[|events| - 1].difficulty == d then 1 else 0)
  }

  function CountCorrectAt(events: seq<GradedAnswer>, d: Difficulty): nat
    decreases |events|
  {
    if events == [] then 0
    else
      var e := events[|events| - 1];
      CountCorrectAt(events[..|events| - 1], d) + (if e.difficulty == d && e.isCorrect then 1 else 0)
  }

  /** After N graded answers of which K were correct, a fresh rollup holds
      total N, correct K, accuracy K / N * 100 (0 when N is 0), and each
      bucket counts the answers of its own difficulty. */
  lemma {:induction false} ReplayFromFresh(userId: UserId, topic: string, now: int, events: seq<GradedAnswer>)
    ensures var r := Replay(NewRollup(userId, topic, now), events);
      && RollupInv(r)
      && r.userId == userId && r.topic == topic
      && r.totalQuestions == |events|
      && r.correctAnswers == CountCorrect(events)
      && r.accuracy == Accuracy(CountCorrect(events), |events|)
      && forall d :: Bucket(r.difficultyStats, d) == BucketStats(CountAt(events, d), CountCorrectAt(events, d))
    decreases |events|
  {
    if events == [] {
      NewRollupInv(userId, topic, now);
    } else {
      var prefix := events[..|events| - 1];
      var e := events[|events| - 1];
      ReplayFromFresh(userId, topic, now, prefix);
      var r := Replay(NewRollup(userId, topic, now), prefix);
      RecordAnswerEffect(r, e.difficulty, e.isCorrect, e.at, e.difficulty);
      forall d ensures Bucket(RecordAnswer(r, e.difficulty, e.isCorrect, e.at).difficultyStats, d)
                       == BucketStats(CountAt(events, d), CountCorrectAt(events, d))
      {
        RecordAnswerEffect(r, e.difficulty, e.isCorrect, e.at, d);
      }
    }
  }

  // ------------------------------------------------------- the rollup store

  predicate KeyIs(r: Rollup, userId: UserId, topic: string) {
    r.userId == userId && r.topic == topic
  }

  /** `Analytics.findOne({ user_id, topic })`: the first rollup of the pair. */
  function FindRollup(rs: seq<Rollup>, userId: UserId, topic: string): (r: Option<nat>)
    ensures r.None? <==> forall i :: 0 <= i < |rs| ==> !KeyIs(rs[i], userId, topic)
    ensures r.Some? ==> r.value < |rs| && KeyIs(rs[r.value], userId, topic)
    ensures r.Some? ==> forall i :: 0 <= i < r.value ==> !KeyIs(rs[i], userId, topic)
    decreases |rs|
  {
    if rs == [] then None
    else if KeyIs(rs[0], userId, topic) then Some(0)
    else match FindRollup(rs[1..], userId, topic)
      case None => None
      case Some(i) => Some(i + 1)
  }

  /** The rollups after `updateAnalytics` saved one graded answer: the pair's
      rollup is updated where it stands, or a fresh one is appended. */
  function RecordInStore(rs: seq<Rollup>, userId: UserId, topic: string, d: Difficulty, isCorrect: bool, now: int): seq<Rollup> {
    match FindRollup(rs, userId, topic)
    case Some(i) => rs[i := RecordAnswer(rs[i], d, isCorrect, now)]
    case None => rs + [RecordAnswer(NewRollup(userId, topic, now), d, isCorrect, now)]
  }

  /** Every rollup is valid and no two share a (user, topic) pair. */
  predicate StoreInv(rs: seq<Rollup>) {
    && (forall i :: 0 <= i < |rs| ==> RollupInv(rs[i]))
    && (forall i, j :: 0 <= i < j < |rs| ==> !KeyIs(rs[j], rs[i].userId, rs[i].topic))
  }

  /** Recording an answer keeps the collection valid, leaves exactly one rollup
      for the pair, creates it zeroed and counted once when the pair is new,
      updates an existing pair's rollup where it stands, and leaves every
      other rollup where and as it was. */
  lemma RecordInStoreEffect(rs: seq<Rollup>, userId: UserId, topic: string, d: Difficulty, isCorrect: bool, now: int)
    requires StoreInv(rs)
    ensures var rs' := RecordInStore(rs, userId, topic, d, isCorrect, now);
      && StoreInv(rs')
      && |rs'| == |rs| + (if FindRollup(rs, userId, topic).None? then 1 else 0)
      && (forall i :: 0 <= i < |rs| && !KeyIs(rs[i], userId, topic) ==> rs'[i] == rs[i])
      && (exists i :: 0 <= i < |rs'| && KeyIs(rs'[i], userId, topic))
      && (FindRollup(rs, userId, topic).None? ==>
            rs'[|rs|] == RecordAnswer(NewRollup(userId, topic, now), d, isCorrect, now))
      && (FindRollup(rs, userId, topic).Some? ==>
            var i := FindRollup(rs, userId, topic).value;
            rs'[i] == RecordAnswer(rs[i], d, isCorrect, now))
  {
    var rs' := RecordInStore(rs, userId, topic, d, isCorrect, now);
    match FindRollup(rs, userId, topic)
    case Some(i) =>
      RecordAnswerEffect(rs[i], d, isCorrect, now, d);
      assert KeyIs(rs'[i], userId, topic);
    case None =>
      NewRollupInv(userId, topic, now);
      RecordAnswerEffect(NewRollup(userId, topic, now), d, isCorrect, now, d);
      assert KeyIs(rs'[|rs|], userId, topic);
  }
}
