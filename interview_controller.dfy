/** The interview session handlers: starting an interview, submitting an
    answer, asking for the next question, ending an interview, the
    question/answer join of the details view, the rollup update that follows
    every graded answer, and the classifier that turns an error message into
    an HTTP status. The record store is the class `Store`; the question
    generator and the answer evaluator are function parameters that either fail with an
    error message or return their parsed reply. */
module InterviewController {
  import opened Wrappers
  import opened Text
  import opened Records
  import opened AnalyticsUpdate

  // ------------------------------------------------------------- responses

  /** An error response: its HTTP status, its `message` and, for the generic
      server error, the underlying `error` text. */
  datatype ApiError = ApiError(status: nat, message: string, error: Option<string>)

  const InvalidTopicMessage := "Invalid topic. Please select a technical interview topic."
  const QuestionNotFoundMessage := "Question not found"
  const InterviewNotFoundMessage := "Interview not found"
  const NotFoundOrNotAuthorizedMessage := "Interview not found or not authorized"
  const InvalidKeyMessage := "Invalid or unauthorized Gemini API key. Please check your API key."
  const RateLimitMessage := "Gemini API rate limit exceeded. Please try again later or check your plan."
  const ParseFailureMessage := "Failed to parse Gemini API response. Please try again."
  const ServerErrorMessage := "Server error"

  function ServerError(error: string): ApiError {
    ApiError(500, ServerErrorMessage, Some(error))
  }

  // ------------------------------------------------------ error classifier

  predicate MentionsAuth(message: string) {
    Contains(message, "API key") || Contains(message, "401") || Contains(message, "400")
  }

  predicate MentionsRateLimit(message: string) {
    Contains(message, "429")
  }

  predicate MentionsBadJson(message: string) {
    Contains(message, "Unexpected token") || Contains(message, "not valid JSON")
  }

  /** The catch block shared by the three handlers that call the model. */
  function ClassifyError(message: string): (e: ApiError)
    ensures e.status in {401, 429, 500}
    ensures e.error.Some? ==> e == ServerError(message)
  {
    if MentionsAuth(message) then ApiError(401, InvalidKeyMessage, None)
    else if MentionsRateLimit(message) then ApiError(429, RateLimitMessage, None)
    else if MentionsBadJson(message) then ApiError(500, ParseFailureMessage, None)
    else ServerError(message)
  }

  /** The checks run in priority order: an authorization mention wins even
      over a rate-limit mention, a rate-limit mention over a parse failure,
      and only a message mentioning none of them is passed on verbatim. */
  lemma ClassifierPriority(message: string)
    ensures ClassifyError(message).status == 401 <==> MentionsAuth(message)
    ensures ClassifyError(message).status == 429 <==> !MentionsAuth(message) && MentionsRateLimit(message)
    ensures (ClassifyError(message).message == ParseFailureMessage)
      <==> !MentionsAuth(message) && !MentionsRateLimit(message) && MentionsBadJson(message)
    ensures (ClassifyError(message) == ServerError(message))
      <==> !MentionsAuth(message) && !MentionsRateLimit(message) && !MentionsBadJson(message)
  {
  }

  /** How severe a classification is, in the classifier's own priority order. */
  function Rank(e: ApiError): nat {
    if e.status == 401 then 3
    else if e.status == 429 then 2
    else if e.message == ParseFailureMessage then 1
    else 0
  }

  lemma ContainsInContext(p: string, m: string, s: string, pat: string)
    requires Contains(m, pat)
    ensures Contains(p + m + s, pat)
  {
    ContainsAppend(m, s, pat);
    ContainsPrepend(p, m + s, pat);
    assert p + m + s == p + (m + s);
  }

  /** Wrapping a message in more text (as the model client does with its
      "Failed to ..." prefix) never lowers its classification. */
  lemma ContextNeverDemotes(p: string, m: string, s: string)
    ensures Rank(ClassifyError(p + m + s)) >= Rank(ClassifyError(m))
  {
    var pats := ["API key", "401", "400", "429", "Unexpected token", "not valid JSON"];
    forall k | 0 <= k < |pats| && Contains(m, pats[k]) ensures Contains(p + m + s, pats[k]) {
      ContainsInContext(p, m, s, pats[k]);
    }
    assert pats[0] == "API key" && pats[1] == "401" && pats[2] == "400";
    assert pats[3] == "429" && pats[4] == "Unexpected token" && pats[5] == "not valid JSON";
  }

  // -------------------------------------------------------- topic whitelist

  const ValidTopics: seq<string> := [
    "JavaScript", "Python", "Java", "Data Structures", "Algorithms",
    "DBMS", "System Design", "React", "Node.js"]

  predicate IsValidTopic(topic: string) {
    topic in ValidTopics
  }

  /** Exactly nine distinct topics are accepted; the match is exact, so a
      different spelling or an unlisted language is refused. */
  lemma TopicWhitelist()
    ensures |ValidTopics| == 9
    ensures forall i, j :: 0 <= i < j < |ValidTopics| ==> ValidTopics[i] != ValidTopics[j]
    ensures !IsValidTopic("Ruby") && !IsValidTopic("javascript") && IsValidTopic("Node.js")
  {
  }

  // ------------------------------------------------------ validation errors

  /** Mongoose's message when the schema refuses the difficulty: the
      `required` validator runs first and refuses the empty string, any
      other value outside the enum is refused by the `enum` validator. */
  function DifficultyRejectedMessage(difficulty: string): string {
    if difficulty == "" then DifficultyRequiredMessage
    else "Interview validation failed: difficulty: `" + difficulty + "` is not a valid enum value for path `difficulty`."
  }

  const DifficultyRequiredMessage := "Interview validation failed: difficulty: Path `difficulty` is required."

  /** Mongoose's message when the generated question text is empty. */
  const QuestionTextRequiredMessage := "Question validation failed: question_text: Path `question_text` is required."

  /** The TypeError raised when a question's interview no longer exists. */
  const MissingInterviewMessage := "Cannot read properties of null (reading 'totalQuestions')"

  /** A difficulty of "400" is refused by the schema, and the validation
      message then reads to the classifier as an API key problem. */
  lemma DifficultyNamedLikeStatusIsAuth()
    ensures ParseDifficulty("400").None?
    ensures ClassifyError(DifficultyRejectedMessage("400")).status == 401
  {
    var p := "Interview validation failed: difficulty: `";
    var s := "` is not a valid enum value for path `difficulty`.";
    assert Contains("400", "400") by { assert "400"[..3] == "400"; }
    ContainsInContext(p, "400", s, "400");
    assert DifficultyRejectedMessage("400") == p + "400" + s;
  }

  // ------------------------------------------------------- the details join

  /** One entry of the details view; the four answer fields are null (None)
      when the question has no answer by the requester. */
  datatype QuestionDetail = QuestionDetail(
    questionId: nat,
    questionText: string,
    topic: string,
    difficulty: Difficulty,
    idealAnswer: string,
    userResponse: Option<string>,
    score: Option<real>,
    feedback: Option<string>,
    isCorrect: Option<bool>)

  datatype InterviewDetails = InterviewDetails(interviewId: nat, interview: Interview, details: seq<QuestionDetail>)

  /** `Question.find({ interview_id })`: the interview's questions in store order. */
  function QuestionsOf(qs: seq<Question>, interviewId: nat): (r: seq<Question>)
    ensures |r| <= |qs|
    ensures forall i :: 0 <= i < |r| ==> r[i].interviewId == interviewId && r[i] in qs
    ensures forall q :: q in qs && q.interviewId == interviewId ==> q in r
    ensures forall q :: multiset(r)[q] == if q.interviewId == interviewId then multiset(qs)[q] else 0
    decreases |qs|
  {
    if qs == [] then []
    else
      assert qs == [qs[0]] + qs[1..];
      if qs[0].interviewId == interviewId then [qs[0]] + QuestionsOf(qs[1..], interviewId)
      else QuestionsOf(qs[1..], interviewId)
  }

  function QuestionIds(qs: seq<Question>): set<nat> {
    set i | 0 <= i < |qs| :: qs[i].id
  }

  /** `Answer.find({ question_id: { $in: ids }, user_id })`: in store order. */
  function AnswersOf(answers: seq<Answer>, ids: set<nat>, userId: UserId): seq<Answer>
    decreases |answers|
  {
    if answers == [] then []
    else if answers[0].questionId in ids && answers[0].userId == userId then [answers[0]] + AnswersOf(answers[1..], ids, userId)
    else AnswersOf(answers[1..], ids, userId)
  }

  /** `answers.find(a => a.question_id === question._id)`. */
  function FindAnswer(answers: seq<Answer>, questionId: nat): Option<Answer>
    decreases |answers|
  {
    if answers == [] then None
    else if answers[0].questionId == questionId then Some(answers[0])
    else FindAnswer(answers[1..], questionId)
  }

  predicate AnswerOf(a: Answer, userId: UserId, questionId: nat) {
    a.userId == userId && a.questionId == questionId
  }

  /** The requester's earliest stored answer to a question, if any. */
  function FirstAnswerBy(answers: seq<Answer>, userId: UserId, questionId: nat): (r: Option<Answer>)
    ensures r.None? <==> forall k :: 0 <= k < |answers| ==> !AnswerOf(answers[k], userId, questionId)
    ensures r.Some? ==> exists k :: 0 <= k < |answers| && answers[k] == r.value && AnswerOf(answers[k], userId, questionId)
                          && forall j :: 0 <= j < k ==> !AnswerOf(answers[j], userId, questionId)
    decreases |answers|
  {
    if answers == [] then None
    else if AnswerOf(answers[0], userId, questionId) then Some(answers[0])
    else
      var r := FirstAnswerBy(answers[1..], userId, questionId);
      if r.Some? then
        ghost var k :| 0 <= k < |answers[1..]| && answers[1..][k] == r.value && AnswerOf(answers[1..][k], userId, questionId)
                         && forall j :: 0 <= j < k ==> !AnswerOf(answers[1..][j], userId, questionId);
        assert answers[k + 1] == r.value;
        r
      else r
  }

  /** Filtering the requester's answers to the interview's questions and then
      taking the first one for a question finds the requester's earliest
      answer to it. */
  lemma {:induction false} FindInQuery(answers: seq<Answer>, ids: set<nat>, userId: UserId, questionId: nat)
    requires questionId in ids
    ensures FindAnswer(AnswersOf(answers, ids, userId), questionId) == FirstAnswerBy(answers, userId, questionId)
    decreases |answers|
  {
    if answers != [] {
      FindInQuery(answers[1..], ids, userId, questionId);
    }
  }

  /** One details entry from a question and its answer, if any. */
  function DetailOf(q: Question, a: Option<Answer>): (d: QuestionDetail)
    ensures d.questionId == q.id && d.questionText == q.questionText && d.idealAnswer == q.idealAnswer
    ensures d.topic == q.topic && d.difficulty == q.difficulty
    ensures d.userResponse.None? == a.None? && d.score.None? == a.None?
    ensures d.feedback.None? == a.None? && d.isCorrect.None? == a.None?
    ensures a.Some? ==> d.userResponse == Some(a.value.userResponse) && d.score == Some(a.value.score)
                        && d.feedback == Some(a.value.feedback) && d.isCorrect == Some(a.value.isCorrect)
  {
    QuestionDetail(
      q.id, q.questionText, q.topic, q.difficulty, q.idealAnswer,
      if a.Some? then Some(a.value.userResponse) else None,
      if a.Some? then Some(a.value.score) else None,
      if a.Some? then Some(a.value.feedback) else None,
      if a.Some? then Some(a.value.isCorrect) else None)
  }

  /** `questions.map(...)` over the requester's answers to those questions:
      one entry per question, in question order, carrying the requester's
      earliest answer to it, or nulls when there is none. */
  function JoinDetails(qs: seq<Question>, answers: seq<Answer>, userId: UserId): (r: seq<QuestionDetail>)
    ensures |r| == |qs|
    ensures forall i :: 0 <= i < |qs| ==> r[i] == DetailOf(qs[i], FirstAnswerBy(answers, userId, qs[i].id))
  {
    var mine := AnswersOf(answers, QuestionIds(qs), userId);
    var r := seq(|qs|, i requires 0 <= i < |qs| => DetailOf(qs[i], FindAnswer(mine, qs[i].id)));
    assert forall i :: 0 <= i < |qs| ==> r[i] == DetailOf(qs[i], FirstAnswerBy(answers, userId, qs[i].id)) by {
      forall i | 0 <= i < |qs| ensures r[i] == DetailOf(qs[i], FirstAnswerBy(answers, userId, qs[i].id)) {
        assert qs[i].id in QuestionIds(qs);
        FindInQuery(answers, QuestionIds(qs), userId, qs[i].id);
      }
    }
    r
  }

  // ---------------------------------------------------------- model replies

  /** The generator's parsed reply. */
  datatype GeneratedQuestion = GeneratedQuestion(question: string, idealAnswer: string)

  /** The answer evaluator's parsed reply. */
  datatype Evaluation = Evaluation(score: real, feedback: string, isCorrect: bool)

  /** What a question-issuing handler returns: the ids and the text only. */
  datatype IssuedQuestion = IssuedQuestion(interviewId: nat, questionId: nat, text: string)

  // ----------------------------------------------------------------- store

  /** The body of `updateAnalytics` between fetch and save: bump the
      counters, recompute the accuracy, bump the difficulty's bucket and
      stamp the time, one field at a time. */
  method ApplyAnswer(r: Rollup, difficulty: Difficulty, isCorrect: bool, now: int) returns (analytics: Rollup)
    ensures analytics == RecordAnswer(r, difficulty, isCorrect, now)
  {
    analytics := r.(totalQuestions := r.totalQuestions + 1);
    if isCorrect {
      analytics := analytics.(correctAnswers := analytics.correctAnswers + 1);
    }
    analytics := analytics.(accuracy := Percent(analytics.correctAnswers, analytics.totalQuestions));

    var stats := analytics.difficultyStats;
    match difficulty {
      case Easy => stats := stats.(easy := BumpBucket(stats.easy, isCorrect));
      case Medium => stats := stats.(medium := BumpBucket(stats.medium, isCorrect));
      case Hard => stats := stats.(hard := BumpBucket(stats.hard, isCorrect));
    }
    analytics := analytics.(difficultyStats := stats, lastUpdated := now);
  }

  /** The record store: interviews and questions are addressed by their
      position, answers and rollups are kept in insertion order. */
  class Store {
    var interviews: seq<Interview>
    var questions: seq<Question>
    var answers: seq<Answer>
    var rollups: seq<Rollup>

    ghost predicate Valid()
      reads this
    {
      && (forall i :: 0 <= i < |interviews| ==> interviews[i].correctAnswers <= interviews[i].totalQuestions)
      && (forall i :: 0 <= i < |questions| ==> questions[i].id == i)
      && StoreInv(rollups)
    }

    constructor ()
      ensures Valid()
      ensures interviews == [] && questions == [] && answers == [] && rollups == []
    {
      interviews, questions, answers, rollups := [], [], [], [];
    }

    /** `startInterview`. The interview is saved before the generator is
        called, so a generator failure leaves an interview with no question. */
    method StartInterview(userId: UserId, topic: string, difficulty: string,
                          generate: (string, Difficulty) -> Result<GeneratedQuestion, string>, now: int)
      returns (res: Result<IssuedQuestion, ApiError>)
      requires Valid()
      modifies this
      ensures Valid()
      ensures answers == old(answers) && rollups == old(rollups)
      ensures !IsValidTopic(topic) ==>
        res == Failure(ApiError(400, InvalidTopicMessage, None))
        && interviews == old(interviews) && questions == old(questions)
      ensures IsValidTopic(topic) && ParseDifficulty(difficulty).None? ==>
        res == Failure(ClassifyError(DifficultyRejectedMessage(difficulty)))
        && interviews == old(interviews) && questions == old(questions)
      ensures IsValidTopic(topic) && ParseDifficulty(difficulty).Some? ==>
        var d := ParseDifficulty(difficulty).value;
        var id := |old(interviews)|;
        && interviews == old(interviews) + [NewInterview(userId, topic, d, now).(totalQuestions := 1)]
        && match generate(topic, d)
           case Failure(msg) => res == Failure(ClassifyError(msg)) && questions == old(questions)
           case Success(g) =>
             if g.question == "" then
               res == Failure(ClassifyError(QuestionTextRequiredMessage)) && questions == old(questions)
             else
               var qid := |old(questions)|;
               && questions == old(questions) + [Question(qid, id, g.question, "AI", topic, d, g.idealAnswer)]
               && res == Success(IssuedQuestion(id, qid, g.question))
    {
      if !IsValidTopic(topic) {
        return Failure(ApiError(400, InvalidTopicMessage, None));
      }
      var parsed := ParseDifficulty(difficulty);
      if parsed.None? {
        return Failure(ClassifyError(DifficultyRejectedMessage(difficulty)));
      }
      var d := parsed.value;
      var interview := NewInterview(userId, topic, d, now).(totalQuestions := 1, correctAnswers := 0);
      var id := |interviews|;
      interviews := interviews + [interview];

      var reply := generate(topic, d);
      if reply.Failure? {
        return Failure(ClassifyError(reply.error));
      }
      if reply.value.question == "" {
        return Failure(ClassifyError(QuestionTextRequiredMessage));
      }
      var qid := |questions|;
      questions := questions + [Question(qid, id, reply.value.question, "AI", topic, d, reply.value.idealAnswer)];
      res := Success(IssuedQuestion(id, qid, reply.value.question));
    }

    /** `updateAnalytics`: fetch or create the pair's rollup, bump its
        counters, accuracy and difficulty bucket, and save it. A failed save
        (`saved` false) is logged and swallowed: nothing changes. */
    method UpdateAnalytics(userId: UserId, topic: string, difficulty: Difficulty, isCorrect: bool, now: int, saved: bool)
      requires Valid()
      modifies this
      ensures Valid()
      ensures interviews == old(interviews) && questions == old(questions) && answers == old(answers)
      ensures rollups == if saved then RecordInStore(old(rollups), userId, topic, difficulty, isCorrect, now) else old(rollups)
    {
      RecordInStoreEffect(rollups, userId, topic, difficulty, isCorrect, now);
      var found := FindRollup(rollups, userId, topic);
      var analytics := if found.Some? then rollups[found.value] else NewRollup(userId, topic, now);
      analytics := ApplyAnswer(analytics, difficulty, isCorrect, now);
      if saved {
        if found.Some? {
          rollups := rollups[found.value := analytics];
        } else {
          rollups := rollups + [analytics];
        }
      }
    }

    /** `submitAnswer`. */
    method SubmitAnswer(userId: UserId, questionId: nat, userResponse: string,
                        evaluate: (string, string, string) -> Result<Evaluation, string>,
                        now: int, analyticsSaved: bool)
      returns (res: Result<Evaluation, ApiError>)
      requires Valid()
      modifies this
      ensures Valid()
      ensures questions == old(questions)
      ensures questionId >= |questions| ==>
        res == Failure(ApiError(404, QuestionNotFoundMessage, None))
        && interviews == old(interviews) && answers == old(answers) && rollups == old(rollups)
      ensures questionId < |questions| ==>
        var q := questions[questionId];
        match evaluate(q.questionText, userResponse, q.idealAnswer)
        case Failure(msg) =>
          res == Failure(ClassifyError(msg))
          && interviews == old(interviews) && answers == old(answers) && rollups == old(rollups)
        case Success(ev) =>
          && answers == old(answers) + [Answer(userId, questionId, userResponse, ev.score, ev.feedback, ev.isCorrect)]
          && if q.interviewId < |old(interviews)| then
               var iv := old(interviews)[q.interviewId];
               && interviews == old(interviews)[q.interviewId := iv.(
                    totalQuestions := iv.totalQuestions + 1,
                    correctAnswers := if ev.isCorrect then iv.correctAnswers + 1 else iv.correctAnswers)]
               && rollups == (if analyticsSaved
                              then RecordInStore(old(rollups), userId, q.topic, q.difficulty, ev.isCorrect, now)
                              else old(rollups))
               && res == Success(ev)
             else
               && interviews == old(interviews) && rollups == old(rollups)
               && res == Failure(ClassifyError(MissingInterviewMessage))
    {
      if questionId >= |questions| {
        return Failure(ApiError(404, QuestionNotFoundMessage, None));
      }
      var q := questions[questionId];
      var evaluation := evaluate(q.questionText, userResponse, q.idealAnswer);
      if evaluation.Failure? {
        return Failure(ClassifyError(evaluation.error));
      }
      var ev := evaluation.value;
      answers := answers + [Answer(userId, questionId, userResponse, ev.score, ev.feedback, ev.isCorrect)];

      if q.interviewId >= |interviews| {
        return Failure(ClassifyError(MissingInterviewMessage));
      }
      var interview := interviews[q.interviewId];
      interview := interview.(totalQuestions := interview.totalQuestions + 1);
      if ev.isCorrect {
        interview := interview.(correctAnswers := interview.correctAnswers + 1);
      }
      interviews := interviews[q.interviewId := interview];

      UpdateAnalytics(userId, q.topic, q.difficulty, ev.isCorrect, now, analyticsSaved);
      res := Success(ev);
    }

    /** `getNextQuestion`. Neither the owner nor the status is checked. */
    method GetNextQuestion(interviewId: nat, generate: (string, Difficulty) -> Result<GeneratedQuestion, string>)
      returns (res: Result<IssuedQuestion, ApiError>)
      requires Valid()
      modifies this
      ensures Valid()
      ensures answers == old(answers) && rollups == old(rollups)
      ensures interviewId >= |old(interviews)| ==>
        res == Failure(ApiError(404, InterviewNotFoundMessage, None))
        && interviews == old(interviews) && questions == old(questions)
      ensures interviewId < |old(interviews)| ==>
        var iv := old(interviews)[interviewId];
        match generate(iv.topic, iv.difficulty)
        case Failure(msg) =>
          res == Failure(ClassifyError(msg)) && interviews == old(interviews) && questions == old(questions)
        case Success(g) =>
          if g.question == "" then
            res == Failure(ClassifyError(QuestionTextRequiredMessage))
            && interviews == old(interviews) && questions == old(questions)
          else
            var qid := |old(questions)|;
            && questions == old(questions) + [Question(qid, interviewId, g.question, "AI", iv.topic, iv.difficulty, g.idealAnswer)]
            && interviews == old(interviews)[interviewId := iv.(totalQuestions := iv.totalQuestions + 1)]
            && res == Success(IssuedQuestion(interviewId, qid, g.question))
    {
      if interviewId >= |interviews| {
        return Failure(ApiError(404, InterviewNotFoundMessage, None));
      }
      var interview := interviews[interviewId];
      var reply := generate(interview.topic, interview.difficulty);
      if reply.Failure? {
        return Failure(ClassifyError(reply.error));
      }
      if reply.value.question == "" {
        return Failure(ClassifyError(QuestionTextRequiredMessage));
      }
      var qid := |questions|;
      questions := questions + [Question(qid, interviewId, reply.value.question, "AI",
                                         interview.topic, interview.difficulty, reply.value.idealAnswer)];
      interview := interview.(totalQuestions := interview.totalQuestions + 1);
      interviews := interviews[interviewId := interview];
      res := Success(IssuedQuestion(interviewId, qid, reply.value.question));
    }

    /** `endInterview`: `findByIdAndUpdate` with status completed, returning
        the updated document. Neither the owner nor the status is checked. */
    method EndInterview(interviewId: nat) returns (res: Result<Interview, ApiError>)
      requires Valid()
      modifies this
      ensures Valid()
      ensures questions == old(questions) && answers == old(answers) && rollups == old(rollups)
      ensures interviewId >= |old(interviews)| ==>
        res == Failure(ApiError(404, InterviewNotFoundMessage, None)) && interviews == old(interviews)
      ensures interviewId < |old(interviews)| ==>
        && interviews == old(interviews)[interviewId := old(interviews)[interviewId].(status := Completed)]
        && res == Success(interviews[interviewId])
      ensures interviewId < |old(interviews)| && old(interviews)[interviewId].status == Completed ==>
        interviews == old(interviews)
    {
      if interviewId >= |interviews| {
        return Failure(ApiError(404, InterviewNotFoundMessage, None));
      }
      interviews := interviews[interviewId := interviews[interviewId].(status := Completed)];
      res := Success(interviews[interviewId]);
    }

    /** `getInterviewDetails`: the requester's own interview with one entry
        per question, in question order, joined with the requester's earliest
        answer to it. */
    function GetInterviewDetails(userId: UserId, interviewId: nat): (r: Result<InterviewDetails, ApiError>)
      reads this
      ensures r.Failure? <==> !(interviewId < |interviews| && interviews[interviewId].userId == userId)
      ensures r.Failure? ==> r.error == ApiError(404, NotFoundOrNotAuthorizedMessage, None)
      ensures r.Success? ==>
        && r.value.interviewId == interviewId && r.value.interview == interviews[interviewId]
        && |r.value.details| == |QuestionsOf(questions, interviewId)|
        && forall i :: 0 <= i < |r.value.details| ==>
             var q := QuestionsOf(questions, interviewId)[i];
             && q.interviewId == interviewId
             && r.value.details[i] == DetailOf(q, FirstAnswerBy(answers, userId, q.id))
    {
      if interviewId < |interviews| && interviews[interviewId].userId == userId then
        Success(InterviewDetails(interviewId, interviews[interviewId],
                                 JoinDetails(QuestionsOf(questions, interviewId), answers, userId)))
      else
        Failure(ApiError(404, NotFoundOrNotAuthorizedMessage, None))
    }
  }
}
