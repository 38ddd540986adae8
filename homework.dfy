/**
 * The validation and formatting functions of the bot: the credential check,
 * the status-code branch of the API call, the shape check of the API payload
 * and the formatting of one homework record into a notification.
 */
module Homework {

  import opened Wrappers
  import opened PyJson
  import opened PyErrors

  // ------------------------------------------------------------- constants

  /** The verdict text sent for each review status the API reports. */
  const HomeworkVerdicts: map<string, string> := map[
    "approved" := "Работа проверена: ревьюеру всё понравилось. Ура!",
    "reviewing" := "Работа взята на проверку ревьюером.",
    "rejected" := "Работа проверена: у ревьюера есть замечания."
  ]

  const HttpStatusOk := 200

  const NameKey := "homework_name"
  const StatusKey := "status"
  const HomeworksKey := "homeworks"

  /** What the notification says before and after the homework's name. */
  const NotificationPrefix := "Изменился статус проверки работы \""
  const NotificationSeparator := "\". "

  const NotDictPayload := "Словарь не получен"
  const HomeworksNotList := "Список домашек не список"
  const RecordNotDict := "Не словарь"
  const MissingName := "Ключа homework_name не существует"
  const MissingStatus := "Ключа status не существует"
  const UnknownStatus := "Такого статуса не существует"

  // ---------------------------------------------------------------- tokens

  /** The three credentials as read from the environment; `None` when unset. */
  datatype Env = Env(practicumToken: Option<string>, telegramToken: Option<string>,
                     telegramChatId: Option<string>)

  /** Python truthiness of an optional string: set and not empty. */
  predicate Truthy(v: Option<string>)
  {
    v.Some? && v.value != ""
  }

  /** `all(values)`. */
  function All(values: seq<Option<string>>): (r: bool)
    ensures r <==> forall k :: 0 <= k < |values| ==> Truthy(values[k])
  {
    if values == [] then true
    else Truthy(values[0]) && All(values[1..])
  }

  /** `check_tokens`: every credential is set and non-empty. */
  function CheckTokens(env: Env): (ok: bool)
    ensures ok <==> Truthy(env.practicumToken) && Truthy(env.telegramToken)
                    && Truthy(env.telegramChatId)
  {
    var values := [env.practicumToken, env.telegramToken, env.telegramChatId];
    assert values[0] == env.practicumToken && values[1] == env.telegramToken;
    assert values[2] == env.telegramChatId;
    All(values)
  }

  // ----------------------------------------------------------- API answer

  /** The body of an HTTP response, as `response.json()` sees it. */
  datatype Body = Parsed(value: Json) | Undecodable(detail: string)

  /** What the HTTP GET for one poll produced. */
  datatype HttpReply =
    | TransportFailure                    // `requests.get` raised a RequestException
    | Reply(statusCode: int, body: Body)

  /**
   * `get_api_answer` after the request itself: any failure of the request and
   * any status other than 200 become `APIRequestException`; a 200 answer
   * yields its decoded body, or the decoder's error when it is not JSON.
   */
  function GetApiAnswer(reply: HttpReply): (r: Result<Json, PyError>)
    ensures r.Success? <==> reply.Reply? && reply.statusCode == HttpStatusOk && reply.body.Parsed?
    ensures r.Success? ==> r.value == reply.body.value
    ensures reply.TransportFailure? || reply.statusCode != HttpStatusOk ==>
              r == Failure(ApiRequestException)
    ensures reply.Reply? && reply.statusCode == HttpStatusOk && reply.body.Undecodable? ==>
              r == Failure(DecodeError(reply.body.detail))
  {
    match reply
    case TransportFailure => Failure(ApiRequestException)
    case Reply(code, body) =>
      if code != HttpStatusOk then Failure(ApiRequestException)
      else
        match body
        case Parsed(value) => Success(value)
        case Undecodable(detail) => Failure(DecodeError(detail))
  }

  // -------------------------------------------------------- check_response

  /**
   * `check_response`: the payload must be a dict, and its `homeworks` entry a
   * list, which is returned as it is. A missing `homeworks` key reads as `None`
   * and so fails the list check; no `KeyError` ever arises.
   */
  function CheckResponse(payload: Json): (r: Result<seq<Json>, PyError>)
    ensures !payload.Dict? ==> r == Failure(TypeError(NotDictPayload))
    ensures payload.Dict? ==>
              (r.Success? <==> HasKey(payload, HomeworksKey) && Get(payload, HomeworksKey).List?)
    ensures r.Success? ==>
              exists k :: 0 <= k < |payload.entries|
                          && payload.entries[k] == (HomeworksKey, List(r.value))
    ensures payload.Dict? && r.Failure? ==> r == Failure(TypeError(HomeworksNotList))
    ensures !r.Failure? || r.error.TypeError?
  {
    if !payload.Dict? then Failure(TypeError(NotDictPayload))
    else
      var homeworks := Get(payload, HomeworksKey);
      if !homeworks.List? then Failure(TypeError(HomeworksNotList))
      else Success(homeworks.items)
  }

  // ---------------------------------------------------------- parse_status

  /** A record `parse_status` accepts: a dict with a name and a known status. */
  predicate Recognised(homework: Json)
  {
    homework.Dict? && HasKey(homework, NameKey) && HasKey(homework, StatusKey)
    && Get(homework, StatusKey).Str? && Get(homework, StatusKey).s in HomeworkVerdicts
  }

  /**
   * `parse_status`. Both `.get` calls come before the type check, so a record
   * that is not a dict fails with an `AttributeError`; then the name is checked
   * before the status, and the status must be one of the table's keys (an
   * unhashable status fails the membership test itself).
   */
  function ParseStatus(homework: Json): (r: Result<string, PyError>)
    ensures r.Success? <==> Recognised(homework)
    ensures r.Success? ==>
              NotificationPrefix <= r.value
              && r.value == NotificationPrefix + PyStr(Get(homework, NameKey)) + NotificationSeparator
                            + HomeworkVerdicts[Get(homework, StatusKey).s]
    ensures !homework.Dict? ==> r == Failure(AttributeError(TypeName(homework), "get"))
    ensures homework.Dict? && !HasKey(homework, NameKey) ==> r == Failure(KeyError(MissingName))
    ensures homework.Dict? && HasKey(homework, NameKey) && !HasKey(homework, StatusKey) ==>
              r == Failure(KeyError(MissingStatus))
  {
    if !homework.Dict? then Failure(AttributeError(TypeName(homework), "get"))
    else
      var name := Get(homework, NameKey);
      var status := Get(homework, StatusKey);
      if !HasKey(homework, NameKey) then Failure(KeyError(MissingName))
      else if !HasKey(homework, StatusKey) then Failure(KeyError(MissingStatus))
      else if !Hashable(status) then Failure(Unhashable(status))
      else if !(status.Str? && status.s in HomeworkVerdicts) then Failure(KeyError(UnknownStatus))
      else
        var verdict := HomeworkVerdicts[status.s];
        var message := NotificationPrefix + PyStr(name) + NotificationSeparator + verdict;
        assert message[..|NotificationPrefix|] == NotificationPrefix;
        Success(message)
  }

  /** A record with a name and the given status, in the order the API writes them. */
  function Record(name: string, status: string): Json
  {
    Dict([(NameKey, Str(name)), (StatusKey, Str(status))])
  }

  /** The name and status a `Record` carries are the ones `.get` finds. */
  lemma RecordFields(name: string, status: string)
    ensures Record(name, status).Dict?
    ensures HasKey(Record(name, status), NameKey) && Get(Record(name, status), NameKey) == Str(name)
    ensures HasKey(Record(name, status), StatusKey)
            && Get(Record(name, status), StatusKey) == Str(status)
  {
    var r := Record(name, status);
    assert r.entries[0] == (NameKey, Str(name));
    assert r.entries[1] == (StatusKey, Str(status));
  }

  /**
   * The exact notification text for each of the three statuses, for any record
   * that has a name and that status, whatever else it holds and in any order.
   */
  lemma ParseStatusVerdicts(homework: Json)
    requires homework.Dict? && HasKey(homework, NameKey) && HasKey(homework, StatusKey)
    ensures Get(homework, StatusKey) == Str("approved") ==>
              ParseStatus(homework) == Success(NotificationPrefix + PyStr(Get(homework, NameKey))
                + NotificationSeparator + "Работа проверена: ревьюеру всё понравилось. Ура!")
    ensures Get(homework, StatusKey) == Str("reviewing") ==>
              ParseStatus(homework) == Success(NotificationPrefix + PyStr(Get(homework, NameKey))
                + NotificationSeparator + "Работа взята на проверку ревьюером.")
    ensures Get(homework, StatusKey) == Str("rejected") ==>
              ParseStatus(homework) == Success(NotificationPrefix + PyStr(Get(homework, NameKey))
                + NotificationSeparator + "Работа проверена: у ревьюера есть замечания.")
  {
  }

  /** Any status the table does not know, present on a named record, is an error. */
  lemma ParseStatusRejectsUnknown(homework: Json)
    requires homework.Dict? && HasKey(homework, NameKey) && HasKey(homework, StatusKey)
    requires !(Get(homework, StatusKey).Str? && Get(homework, StatusKey).s in HomeworkVerdicts)
    ensures Hashable(Get(homework, StatusKey)) ==>
              ParseStatus(homework) == Failure(KeyError(UnknownStatus))
    ensures !Hashable(Get(homework, StatusKey)) ==>
              ParseStatus(homework) == Failure(Unhashable(Get(homework, StatusKey)))
  {
  }

  /**
   * The `TypeError` the record type check would raise never arises: a record
   * that is not a dict has already failed at its first `.get`.
   */
  lemma ParseStatusTypeCheckUnreachable(homework: Json)
    ensures ParseStatus(homework) != Failure(TypeError(RecordNotDict))
  {
  }
}
