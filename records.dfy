/** The stored records: the Interview, Question, Answer and per-(user, topic)
    Analytics documents with the schema defaults and enumerations. */
module Records {
  import opened Wrappers

  /** A user's document id. */
  type UserId = nat

  // ---------------------------------------------------------------- Interview

  /** The schema's difficulty enumeration. */
  datatype Difficulty = Easy | Medium | Hard

  /** The stored string of a difficulty. */
  function DifficultyName(d: Difficulty): string {
    match d
    case Easy => "Easy"
    case Medium => "Medium"
    case Hard => "Hard"
  }

  /** The enum validator: only the three exact names are accepted. */
  function ParseDifficulty(s: string): (r: Option<Difficulty>)
    ensures r.Some? <==> s in {"Easy", "Medium", "Hard"}
  {
    if s == "Easy" then Some(Easy)
    else if s == "Medium" then Some(Medium)
    else if s == "Hard" then Some(Hard)
    else None
  }

  /** The validator accepts exactly the stored names, each for its own difficulty. */
  lemma ParseDifficultyRoundTrip(s: string, d: Difficulty)
    ensures ParseDifficulty(s) == Some(d) <==> s == DifficultyName(d)
  {
  }

  datatype Status = Active | Completed

  datatype Interview = Interview(
    userId: UserId,
    topic: string,
    difficulty: Difficulty,
    status: Status,
    totalQuestions: nat,
    correctAnswers: nat,
    createdAt: int)

  /** A new Interview document with the schema defaults: active, both counters zero. */
  function NewInterview(userId: UserId, topic: string, difficulty: Difficulty, createdAt: int): (iv: Interview)
    ensures iv.status == Active && iv.totalQuestions == 0 && iv.correctAnswers == 0
    ensures iv.userId == userId && iv.topic == topic && iv.difficulty == difficulty && iv.createdAt == createdAt
  {
    Interview(userId, topic, difficulty, Active, 0, 0, createdAt)
  }

  // ----------------------------------------------------------------- Question

  /** A generated question. `id` is its document id, `interviewId` the owner's. */
  datatype Question = Question(
    id: nat,
    interviewId: nat,
    questionText: string,
    generatedBy: string,
    topic: string,
    difficulty: Difficulty,
    idealAnswer: string)

  // ------------------------------------------------------------------- Answer

  /** A graded answer by `userId` to question `questionId`. */
  datatype Answer = Answer(
    userId: UserId,
    questionId: nat,
    userResponse: string,
    score: real,
    feedback: string,
    isCorrect: bool)

  // --------------------------------------------------------------- Analytics

  datatype BucketStats = BucketStats(total: nat, correct: nat)

  /** The three fixed difficulty buckets of a rollup. */
  datatype DifficultyStats = DifficultyStats(easy: BucketStats, medium: BucketStats, hard: BucketStats)

  /** The per-(user, topic) accuracy rollup. */
  datatype Rollup = Rollup(
    userId: UserId,
    topic: string,
    totalQuestions: nat,
    correctAnswers: nat,
    accuracy: real,
    difficultyStats: DifficultyStats,
    lastUpdated: int)

  /** The keys of `difficulty_stats`. */
  const BucketKeys: seq<string> := ["easy", "medium", "hard"]

  /** `c.toLowerCase()` for ASCII characters. */
  function LowerChar(c: char): char {
    if 'A' <= c <= 'Z' then (c as int + 32) as char else c
  }

  function AsciiLower(s: string): (r: string)
    ensures |r| == |s|
  {
    if s == [] then [] else [LowerChar(s[0])] + AsciiLower(s[1..])
  }

  /** The bucket a difficulty selects. */
  function BucketKey(d: Difficulty): string {
    match d
    case Easy => "easy"
    case Medium => "medium"
    case Hard => "hard"
  }

  /** `difficulty.toLowerCase()` of every stored difficulty names one of the
      three buckets, and different difficulties name different buckets. */
  lemma LowerCaseNameIsBucket(d: Difficulty, e: Difficulty)
    ensures AsciiLower(DifficultyName(d)) == BucketKey(d)
    ensures BucketKey(d) in BucketKeys
    ensures BucketKey(d) == BucketKey(e) ==> d == e
  {
    match d
    case Easy => assert AsciiLower("Easy") == "easy";
    case Medium => assert AsciiLower("Medium") == "medium";
    case Hard => assert AsciiLower("Hard") == "hard";
  }

  function Bucket(stats: DifficultyStats, d: Difficulty): BucketStats {
    match d
    case Easy => stats.easy
    case Medium => stats.medium
    case Hard => stats.hard
  }

  const EmptyBucket := BucketStats(0, 0)

  /** A new Analytics document with the schema defaults. */
  function NewRollup(userId: UserId, topic: string, now: int): (r: Rollup)
    ensures r.userId == userId && r.topic == topic && r.lastUpdated == now
    ensures r.totalQuestions == 0 && r.correctAnswers == 0 && r.accuracy == 0.0
    ensures forall d :: Bucket(r.difficultyStats, d) == BucketStats(0, 0)
  {
    Rollup(userId, topic, 0, 0, 0.0, DifficultyStats(EmptyBucket, EmptyBucket, EmptyBucket), now)
  }

  /** `correct / total * 100` for a positive total. */
  function Percent(correct: nat, total: nat): real
    requires total > 0
  {
    (correct as real / total as real) * 100.0
  }

  /** A percentage with the read side's convention: 0 when nothing was counted. */
  function Accuracy(correct: nat, total: nat): real {
    if total > 0 then Percent(correct, total) else 0.0
  }

  /** Bounds of a percentage of a part within its whole. */
  lemma AccuracyBounds(correct: nat, total: nat)
    requires correct <= total
    ensures 0.0 <= Accuracy(correct, total) <= 100.0
    ensures Accuracy(correct, total) * total as real == correct as real * 100.0
  {
    if total > 0 {
      assert correct as real / total as real <= 1.0;
    }
  }

  function BucketTotalSum(s: DifficultyStats): nat {
    s.easy.total + s.medium.total + s.hard.total
  }

  function BucketCorrectSum(s: DifficultyStats): nat {
    s.easy.correct + s.medium.correct + s.hard.correct
  }

  /** What every stored rollup satisfies: no more correct answers than answers,
      accuracy is their percentage, and the buckets split both counters. */
  predicate RollupInv(r: Rollup) {
    && r.correctAnswers <= r.totalQuestions
    && r.accuracy == Accuracy(r.correctAnswers, r.totalQuestions)
    && BucketTotalSum(r.difficultyStats) == r.totalQuestions
    && BucketCorrectSum(r.difficultyStats) == r.correctAnswers
    && (forall d :: Bucket(r.difficultyStats, d).correct <= Bucket(r.difficultyStats, d).total)
  }

  /** A fresh rollup already satisfies the invariant. */
  lemma NewRollupInv(userId: UserId, topic: string, now: int)
    ensures RollupInv(NewRollup(userId, topic, now))
  {
  }

  /** The accuracy of a valid rollup is a percentage. */
  lemma RollupAccuracyBounds(r: Rollup)
    requires RollupInv(r)
    ensures 0.0 <= r.accuracy <= 100.0
    ensures r.accuracy * r.totalQuestions as real == r.correctAnswers as real * 100.0
  {
    AccuracyBounds(r.correctAnswers, r.totalQuestions);
  }
}
