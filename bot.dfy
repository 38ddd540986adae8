/**
 * The bot's polling loop: one iteration fetches the statuses changed since the
 * cursor, moves the cursor to the server's `current_date`, formats the first
 * homework of the answer and sends the text; any error on the way is caught
 * and sent as a failure notice instead. The HTTP replies are inputs, one per
 * iteration, and the texts handed to the messenger are outputs.
 */
module Bot {

  import opened Wrappers
  import opened PyJson
  import opened PyErrors
  import opened Homework

  const CurrentDateKey := "current_date"

  /** What the loop sends, before `str(error)`, when an iteration fails. */
  const FailurePrefix := "Сбой в работе программы: "

  /** The exit message when a credential is missing. */
  const TokensMissing := "Токены отсутствуют"

  /** The failure notice sent for an error caught by the loop. */
  function FailureMessage(e: PyError): (m: string)
    ensures FailurePrefix <= m && m[|FailurePrefix|..] == ErrorText(e)
  {
    FailurePrefix + ErrorText(e)
  }

  /**
   * What the body of the `try` does once the answer is known to be a dict:
   * validate it, take its first homework (an empty list raises `IndexError`)
   * and format it. The result is the text to send, or `None` when the first
   * homework equals `[]`, the only value `response != []` lets through to the
   * "not updated" branch.
   */
  function HandleAnswer(answer: Json): (r: Result<Option<string>, PyError>)
    requires answer.Dict?
    ensures r == Success(None) <==>
              CheckResponse(answer).Success? && |CheckResponse(answer).value| > 0
              && CheckResponse(answer).value[0] == List([])
    ensures CheckResponse(answer) == Success([]) ==> r == Failure(IndexError(ListIndexOutOfRange))
    ensures CheckResponse(answer).Failure? ==> r == Failure(CheckResponse(answer).error)
    ensures CheckResponse(answer).Success? && |CheckResponse(answer).value| > 0
            && CheckResponse(answer).value[0] != List([]) ==>
              r == (match ParseStatus(CheckResponse(answer).value[0])
                    case Success(m) => Success(Some(m))
                    case Failure(e) => Failure(e))
  {
    match CheckResponse(answer)
    case Failure(e) => Failure(e)
    case Success(homeworks) =>
      if |homeworks| == 0 then Failure(IndexError(ListIndexOutOfRange))
      else if homeworks[0] == List([]) then Success(None)
      else
        match ParseStatus(homeworks[0])
        case Failure(e) => Failure(e)
        case Success(message) => Success(Some(message))
  }

  /** The state an iteration leaves behind and the text it handed to `send_message`. */
  datatype StepResult = StepResult(cursor: Json, sent: Option<string>)

  /**
   * A reply after which the iteration sends nothing: a 200 JSON dict whose
   * `homeworks` list starts with an empty list.
   */
  predicate Quiet(reply: HttpReply)
  {
    var answer := GetApiAnswer(reply);
    answer.Success? && answer.value.Dict?
    && CheckResponse(answer.value).Success?
    && |CheckResponse(answer.value).value| > 0
    && CheckResponse(answer.value).value[0] == List([])
  }

  /** Where the `try` block of an iteration left the cursor, and how it ended. */
  datatype Attempted = Attempted(cursor: Json, outcome: Result<Option<string>, PyError>)

  /**
   * The `try` block of one iteration. The cursor is reassigned from the
   * answer's `current_date` before the answer is validated, and only when the
   * answer is a dict (on anything else `.get` raises first).
   */
  function Attempt(cursor: Json, reply: HttpReply): (a: Attempted)
    ensures GetApiAnswer(reply).Failure? ==> a == Attempted(cursor, Failure(GetApiAnswer(reply).error))
    ensures GetApiAnswer(reply).Success? && !GetApiAnswer(reply).value.Dict? ==>
              a.cursor == cursor && a.outcome.Failure? && a.outcome.error.AttributeError?
    ensures GetApiAnswer(reply).Success? && GetApiAnswer(reply).value.Dict? ==>
              a.cursor == Get(GetApiAnswer(reply).value, CurrentDateKey)
              && a.outcome == HandleAnswer(GetApiAnswer(reply).value)
  {
    match GetApiAnswer(reply)
    case Failure(e) => Attempted(cursor, Failure(e))
    case Success(answer) =>
      if !answer.Dict? then Attempted(cursor, Failure(AttributeError(TypeName(answer), "get")))
      else Attempted(Get(answer, CurrentDateKey), HandleAnswer(answer))
  }

  /**
   * One pass of the `while True` body: the `try` block, then either its own
   * send or the handler's failure notice. `send_message` swallows every
   * delivery error, so its outcome does not appear here.
   */
  function Step(cursor: Json, reply: HttpReply): (r: StepResult)
    ensures r.sent.None? <==> Quiet(reply)
    ensures r.cursor == Attempt(cursor, reply).cursor
    ensures Attempt(cursor, reply).outcome.Failure? ==>
              r.sent == Some(FailureMessage(Attempt(cursor, reply).outcome.error))
    ensures Attempt(cursor, reply).outcome.Success? ==> r.sent == Attempt(cursor, reply).outcome.value
    ensures GetApiAnswer(reply).Failure? ==>
              r == StepResult(cursor, Some(FailureMessage(GetApiAnswer(reply).error)))
  {
    var attempted := Attempt(cursor, reply);
    match attempted.outcome
    case Failure(e) => StepResult(attempted.cursor, Some(FailureMessage(e)))
    case Success(message) => StepResult(attempted.cursor, message)
  }

  /** A reply whose whole chain succeeds: a 200 JSON dict whose first homework `parse_status` accepts. */
  predicate Notifying(reply: HttpReply)
  {
    var answer := GetApiAnswer(reply);
    answer.Success? && answer.value.Dict?
    && CheckResponse(answer.value).Success?
    && |CheckResponse(answer.value).value| > 0
    && Recognised(CheckResponse(answer.value).value[0])
  }

  /** A well-formed answer with a recognised first record sends that record's notification. */
  lemma StepNotifies(cursor: Json, reply: HttpReply)
    requires Notifying(reply)
    ensures Step(cursor, reply).cursor == Get(GetApiAnswer(reply).value, CurrentDateKey)
    ensures Step(cursor, reply).sent
            == Some(ParseStatus(CheckResponse(GetApiAnswer(reply).value).value[0]).value)
  {
  }

  /**
   * Each iteration that is not quiet sends exactly one text, and that text is
   * the notification exactly when the whole chain succeeded; otherwise it is a
   * failure notice.
   */
  lemma StepSendsOnce(cursor: Json, reply: HttpReply)
    ensures Notifying(reply) ==> NotificationPrefix <= Step(cursor, reply).sent.value
    ensures Step(cursor, reply).sent.Some? ==>
              (Notifying(reply) <==> !(FailurePrefix <= Step(cursor, reply).sent.value))
  {
    var r := Step(cursor, reply);
    if Notifying(reply) {
      StepNotifies(cursor, reply);
      assert r.sent.value[0] == NotificationPrefix[0] != FailurePrefix[0];
    }
  }

  /**
   * When `parse_status` rejects the first homework, its error is what the
   * failure notice reports, and the cursor has still moved.
   */
  lemma StepReportsParseStatusError(cursor: Json, reply: HttpReply, answer: Json,
                                    homeworks: seq<Json>, e: PyError)
    requires GetApiAnswer(reply) == Success(answer) && answer.Dict?
    requires CheckResponse(answer) == Success(homeworks) && |homeworks| > 0
    requires homeworks[0] != List([]) && ParseStatus(homeworks[0]) == Failure(e)
    ensures Step(cursor, reply)
            == StepResult(Get(answer, CurrentDateKey), Some(FailurePrefix + ErrorText(e)))
  {
  }

  /** An answer with an empty `homeworks` list is reported as an `IndexError`. */
  lemma StepEmptyHomeworks(cursor: Json, reply: HttpReply, answer: Json)
    requires GetApiAnswer(reply) == Success(answer) && answer.Dict?
    requires CheckResponse(answer) == Success([])
    ensures Step(cursor, reply)
            == StepResult(Get(answer, CurrentDateKey), Some(FailurePrefix + "list index out of range"))
  {
  }

  /**
   * The loop never catches `check_response`'s non-dict error: a non-dict answer
   * has already raised `AttributeError` at `.get('current_date')`.
   */
  lemma NotDictPayloadUnreachable(cursor: Json, reply: HttpReply)
    ensures Attempt(cursor, reply).outcome != Failure(TypeError(NotDictPayload))
  {
  }

  /** One approved homework `proj1` and server date 1000: the approval is sent and the cursor moves to 1000. */
  lemma StepApprovedExample(cursor: Json)
    ensures Step(cursor, Reply(200, Parsed(Dict([
              (HomeworksKey, List([Record("proj1", "approved")])),
              (CurrentDateKey, Int(1000))]))))
            == StepResult(Int(1000), Some(NotificationPrefix + "proj1" + NotificationSeparator
                                          + "Работа проверена: ревьюеру всё понравилось. Ура!"))
  {
    var answer := Dict([(HomeworksKey, List([Record("proj1", "approved")])),
                        (CurrentDateKey, Int(1000))]);
    assert answer.entries[0].0 == HomeworksKey && answer.entries[1].0 == CurrentDateKey;
    assert Get(answer, CurrentDateKey) == Int(1000);
    assert Get(answer, HomeworksKey) == List([Record("proj1", "approved")]);
    RecordFields("proj1", "approved");
    ParseStatusVerdicts(Record("proj1", "approved"));
  }

  // ------------------------------------------------------------ many steps

  /** The cursors the loop queried with, the texts it sent, and its final cursor. */
  datatype Trace = Trace(cursor: Json, queried: seq<Json>, sent: seq<string>)

  function OptionToSeq(o: Option<string>): seq<string>
  {
    if o.Some? then [o.value] else []
  }

  /** The loop run from cursor `start` over the replies of successive iterations. */
  function Run(start: Json, replies: seq<HttpReply>): Trace
  {
    if replies == [] then Trace(start, [], [])
    else
      var before := Run(start, replies[..|replies| - 1]);
      var step := Step(before.cursor, replies[|replies| - 1]);
      Trace(step.cursor, before.queried + [before.cursor], before.sent + OptionToSeq(step.sent))
  }

  /** How many replies in `replies` are quiet ones. */
  function QuietCount(replies: seq<HttpReply>): nat
  {
    if replies == [] then 0
    else QuietCount(replies[..|replies| - 1]) + (if Quiet(replies[|replies| - 1]) then 1 else 0)
  }

  /** The last iteration of a run, taken apart. */
  lemma RunLast(start: Json, replies: seq<HttpReply>)
    requires replies != []
    ensures var before := Run(start, replies[..|replies| - 1]);
            var step := Step(before.cursor, replies[|replies| - 1]);
            Run(start, replies).cursor == step.cursor
            && Run(start, replies).queried == before.queried + [before.cursor]
            && Run(start, replies).sent == before.sent + OptionToSeq(step.sent)
  {
  }

  /** One request per iteration, and one text sent per iteration except the quiet ones. */
  lemma {:induction false} RunCounts(start: Json, replies: seq<HttpReply>)
    ensures |Run(start, replies).queried| == |replies|
    ensures |Run(start, replies).sent| + QuietCount(replies) == |replies|
  {
    if replies != [] {
      var n := |replies|;
      RunCounts(start, replies[..n - 1]);
      RunLast(start, replies);
      var step := Step(Run(start, replies[..n - 1]).cursor, replies[n - 1]);
      assert |OptionToSeq(step.sent)| == (if Quiet(replies[n - 1]) then 0 else 1);
    }
  }

  /**
   * One request per iteration, the first with the starting cursor and each
   * later one with the cursor the previous iteration left; one text sent per
   * iteration except the quiet ones.
   */
  lemma {:induction false} RunShape(start: Json, replies: seq<HttpReply>)
    ensures |Run(start, replies).queried| == |replies|
    ensures |Run(start, replies).sent| + QuietCount(replies) == |replies|
    ensures |replies| > 0 ==> Run(start, replies).queried[0] == start
    ensures forall k :: 0 <= k < |replies| - 1 ==>
              Run(start, replies).queried[k + 1]
              == Step(Run(start, replies).queried[k], replies[k]).cursor
    ensures |replies| > 0 ==>
              Run(start, replies).cursor
              == Step(Run(start, replies).queried[|replies| - 1], replies[|replies| - 1]).cursor
  {
    RunCounts(start, replies);
    if replies != [] {
      var n := |replies|;
      var init := replies[..n - 1];
      RunShape(start, init);
      RunLast(start, replies);
      var before := Run(start, init);
      var after := Run(start, replies);
      assert after.queried == before.queried + [before.cursor];
      forall k | 0 <= k < n - 1
        ensures after.queried[k + 1] == Step(after.queried[k], replies[k]).cursor
      {
        assert init[k] == replies[k];
        if k < n - 2 {
          assert after.queried[k + 1] == before.queried[k + 1];
        }
      }
    }
  }

  /** An iteration whose fetch fails, taken at the end of a run that left the cursor at `start`. */
  lemma RunLastFails(start: Json, replies: seq<HttpReply>)
    requires replies != [] && GetApiAnswer(replies[|replies| - 1]).Failure?
    requires Run(start, replies[..|replies| - 1]).cursor == start
    ensures var before := Run(start, replies[..|replies| - 1]);
            Run(start, replies)
            == Trace(start, before.queried + [start],
                     before.sent + [FailureMessage(GetApiAnswer(replies[|replies| - 1]).error)])
  {
    RunLast(start, replies);
  }

  /**
   * During an outage, when every fetch fails, the cursor never moves, every
   * request uses the starting cursor, and every iteration sends a failure notice.
   */
  lemma {:induction false} RunOutage(start: Json, replies: seq<HttpReply>)
    requires forall k :: 0 <= k < |replies| ==> GetApiAnswer(replies[k]).Failure?
    ensures Run(start, replies).cursor == start
    ensures Run(start, replies).queried == seq(|replies|, _ => start)
    ensures |Run(start, replies).sent| == |replies|
    ensures forall k :: 0 <= k < |replies| ==>
              Run(start, replies).sent[k] == FailureMessage(GetApiAnswer(replies[k]).error)
  {
    if replies != [] {
      var n := |replies|;
      var init := replies[..n - 1];
      assert forall k :: 0 <= k < n - 1 ==> init[k] == replies[k];
      RunOutage(start, init);
      RunLastFails(start, replies);
      var before := Run(start, init);
      var after := Run(start, replies);
      assert after.queried == before.queried + [start];
      assert after.sent == before.sent + [FailureMessage(GetApiAnswer(replies[n - 1]).error)];
      forall k | 0 <= k < n
        ensures after.sent[k] == FailureMessage(GetApiAnswer(replies[k]).error)
      {
        if k < n - 1 {
          assert after.sent[k] == before.sent[k];
        }
      }
    }
  }

  /**
   * `main`: without all three credentials the process exits with
   * `TokensMissing` before any request; otherwise the loop starts from the
   * current time `now` and runs one iteration per reply.
   */
  method PollBot(env: Env, now: int, replies: seq<HttpReply>)
    returns (exit: Option<string>, queried: seq<Json>, sent: seq<string>, cursor: Json)
    ensures exit.Some? <==> !CheckTokens(env)
    ensures exit.Some? ==> exit.value == TokensMissing && queried == [] && sent == []
    ensures exit.None? ==> Trace(cursor, queried, sent) == Run(Int(now), replies)
  {
    cursor := Int(now);
    queried, sent := [], [];
    if !CheckTokens(env) {
      exit := Some(TokensMissing);
      return;
    }
    exit := None;
    var i := 0;
    while i < |replies|
      invariant 0 <= i <= |replies|
      invariant Trace(cursor, queried, sent) == Run(Int(now), replies[..i])
    {
      assert replies[..i + 1][..i] == replies[..i];
      queried := queried + [cursor];
      var step := Step(cursor, replies[i]);
      cursor := step.cursor;
      if step.sent.Some? {
        sent := sent + [step.sent.value];
      }
      i := i + 1;
    }
    assert replies[..i] == replies;
  }
}
