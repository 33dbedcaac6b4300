/** The decision logic of homework.py: the credential gate, the classification of the API's
    HTTP outcome, the response-shape validator and the status parser. */
module Homework {
  import opened Wrappers
  import opened Exceptions
  import Json
  import Decimal

  const Endpoint := "https://practicum.yandex.ru/api/user_api/homework_statuses/"

  /** `HTTPStatus.OK` */
  const HttpOk: nat := 200

  /** The three review statuses the bot knows and the text it reports for each. */
  const Verdicts: map<string, string> := map[
    "approved" := "Работа проверена: ревьюеру всё понравилось. Ура!",
    "reviewing" := "Работа взята на проверку ревьюером.",
    "rejected" := "Работа проверена: у ревьюера есть замечания."
  ]

  // ---------------------------------------------------------------- credentials

  /** The three environment variables; `None` when the variable is unset. */
  datatype Config = Config(practicumToken: Option<string>, telegramToken: Option<string>, chatId: Option<string>)

  /** Python truthiness of `os.getenv(...)`: set and non-empty. */
  predicate Truthy(v: Option<string>) {
    v.Some? && v.value != ""
  }

  /** `check_tokens`: the bot may start only when every credential is truthy. */
  function CheckTokens(c: Config): (ok: bool)
    ensures !ok <==> (c.practicumToken == None || c.practicumToken == Some("")
                      || c.telegramToken == None || c.telegramToken == Some("")
                      || c.chatId == None || c.chatId == Some(""))
  {
    Truthy(c.practicumToken) && Truthy(c.telegramToken) && Truthy(c.chatId)
  }

  // ---------------------------------------------------------------- get_api_answer

  /** What `homework_statuses.json()` makes of the body. */
  datatype Body = Decoded(value: Json.Value) | Undecodable(reason: string)

  /** What `requests.get` produced: an exception, or a response with a status code and a body. */
  datatype Fetch = TransportFailure(reason: string) | Response(statusCode: nat, body: Body)

  const RequestFailedPrefix := "Ошибка при запросе к API: "
  const UnavailableInfix := " - недоступен. Код ответа API: "

  function UnavailableMessage(code: nat): string {
    Endpoint + UnavailableInfix + Decimal.FromNat(code)
  }

  /** A body that does not decode is only logged; `return response` then reads an unbound local. */
  const UnboundResponseMessage := "cannot access local variable 'response' where it is not associated with a value"

  /** `get_api_answer`, with the request itself replaced by its outcome. */
  function GetApiAnswer(f: Fetch): (r: Result<Json.Value, Error>)
    ensures r.Ok? <==> f.Response? && f.statusCode == HttpOk && f.body.Decoded?
    ensures r.Ok? ==> r.value == f.body.value
    ensures f.TransportFailure? || f.statusCode != HttpOk ==> r.Err? && r.error.BadHttpStatus?
    ensures f.TransportFailure? ==> r.error.message == RequestFailedPrefix + f.reason
    ensures f.Response? && f.statusCode != HttpOk ==> r.error.message == UnavailableMessage(f.statusCode)
  {
    match f
    case TransportFailure(reason) => Err(BadHttpStatus(RequestFailedPrefix + reason))
    case Response(code, body) =>
      if code != HttpOk then Err(BadHttpStatus(UnavailableMessage(code)))
      else match body
        case Decoded(v) => Ok(v)
        case Undecodable(_) => Err(UnboundLocalError(UnboundResponseMessage))
  }

  /** The status code can be read back out of the message of a non-200 failure, so distinct codes
      are reported as distinct errors. */
  lemma UnavailableMessageCarriesCode(code: nat)
    ensures var m := UnavailableMessage(code);
            var k := |Endpoint + UnavailableInfix|;
            k < |m| && Decimal.IsDigits(m[k..]) && Decimal.ToNat(m[k..]) == code
  {
    var m := UnavailableMessage(code);
    var k := |Endpoint + UnavailableInfix|;
    assert m[k..] == Decimal.FromNat(code);
    Decimal.FromNatRoundTrip(code);
  }

  lemma UnavailableMessageInjective(a: nat, b: nat)
    requires UnavailableMessage(a) == UnavailableMessage(b)
    ensures a == b
  {
    var k := |Endpoint + UnavailableInfix|;
    assert UnavailableMessage(a)[k..] == Decimal.FromNat(a);
    assert UnavailableMessage(b)[k..] == Decimal.FromNat(b);
    Decimal.FromNatInjective(a, b);
  }

  // ---------------------------------------------------------------- check_response

  const HomeworksKey := "homeworks"
  const NotDictPrefix := "ответ сервиса не словарь. "
  const MissingHomeworksMessage := "Ошибка ключа: нет \"homeworks\""
  const NotListMessage := "ответ сервиса по ключу homeworks не список"

  /** The documented response shape: a dict whose `homeworks` entry is a list. */
  predicate IsHomeworkList(response: Json.Value) {
    Json.HasKey(response, HomeworksKey) && response.fields[HomeworksKey].Array?
  }

  /** `check_response`: the homework list of a well-shaped response, else the first shape error. */
  function CheckResponse(response: Json.Value): (r: Result<seq<Json.Value>, Error>)
    ensures !response.Object? ==> r == Err(TypeError(NotDictPrefix + Json.Show(response)))
    ensures response.Object? && HomeworksKey !in response.fields ==> r == Err(KeyError(MissingHomeworksMessage))
    ensures Json.HasKey(response, HomeworksKey) && !response.fields[HomeworksKey].Array?
            ==> r == Err(TypeError(NotListMessage))
    ensures r.Ok? <==> IsHomeworkList(response)
    ensures r.Ok? ==> r.value == response.fields[HomeworksKey].items
  {
    match response
    case Object(fields) =>
      if HomeworksKey !in fields then Err(KeyError(MissingHomeworksMessage))
      else if !fields[HomeworksKey].Array? then Err(TypeError(NotListMessage))
      else Ok(fields[HomeworksKey].items)
    case _ => Err(TypeError(NotDictPrefix + Json.Show(response)))
  }

  // ---------------------------------------------------------------- parse_status

  const NameKey := "homework_name"
  const StatusKey := "status"
  const MissingNameMessage := "Отсутствует ключ \"homework_name\" в ответе API"
  const MissingStatusMessage := "Отсутствует ключ \"status\" в ответе API"
  const UnknownStatusMessage := "неожиданный статус домашней работы, обнаруженный в ответе API"

  /** The notification for a homework whose name renders as `name` and whose verdict text is `verdict`. */
  function VerdictMessage(name: string, verdict: string): string {
    "Изменился статус проверки работы \"" + name + "\". " + verdict
  }

  /** Python's `pattern in s` for strings: `pattern` occurs somewhere in `s`. */
  predicate IsSubstring(pattern: string, s: string) {
    pattern <= s || (|s| > 0 && IsSubstring(pattern, s[1..]))
  }

  /** A homework record the parser turns into a verdict: a dict holding both keys, with a known status. */
  predicate IsKnownRecord(h: Json.Value) {
    && Json.HasKey(h, NameKey)
    && Json.HasKey(h, StatusKey)
    && h.fields[StatusKey].Str?
    && h.fields[StatusKey].s in Verdicts
  }

  /** The `HOMEWORK_VERDICTS` lookup for a dict that holds both keys. */
  function LookupVerdict(name: Json.Value, status: Json.Value): Result<string, Error>
  {
    match status
    case Array(_) => Err(TypeError("unhashable type: 'list'"))
    case Object(_) => Err(TypeError("unhashable type: 'dict'"))
    case Str(s) =>
      if s in Verdicts then Ok(VerdictMessage(Json.Show(name), Verdicts[s]))
      else Err(UnknownHomeworkStatus(UnknownStatusMessage))
    case _ => Err(UnknownHomeworkStatus(UnknownStatusMessage))
  }

  /** `parse_status` on any decoded element of the homework list. On a string the key tests are
      substring tests and on a list membership tests, as Python's `in` makes them; the subscript
      that follows then fails. On a number, boolean or `None` the first test fails. */
  function ParseStatus(h: Json.Value): (r: Result<string, Error>)
    ensures h.Object? && NameKey !in h.fields ==> r == Err(KeyError(MissingNameMessage))
    ensures h.Object? && NameKey in h.fields && StatusKey !in h.fields ==> r == Err(KeyError(MissingStatusMessage))
    ensures r.Ok? <==> IsKnownRecord(h)
    ensures r.Ok? ==> r.value == VerdictMessage(Json.Show(h.fields[NameKey]), Verdicts[h.fields[StatusKey].s])
    ensures Json.HasKey(h, NameKey) && Json.HasKey(h, StatusKey)
            && !h.fields[StatusKey].Array? && !h.fields[StatusKey].Object?
            ==> (r == Err(UnknownHomeworkStatus(UnknownStatusMessage))
                 <==> !(h.fields[StatusKey].Str? && h.fields[StatusKey].s in Verdicts))
    ensures r.Err? && r.error.UnknownHomeworkStatus? ==> Json.HasKey(h, NameKey) && Json.HasKey(h, StatusKey)
  {
    match h
    case Object(fields) =>
      if NameKey !in fields then Err(KeyError(MissingNameMessage))
      else if StatusKey !in fields then Err(KeyError(MissingStatusMessage))
      else LookupVerdict(fields[NameKey], fields[StatusKey])
    case Str(s) =>
      if !IsSubstring(NameKey, s) then Err(KeyError(MissingNameMessage))
      else if !IsSubstring(StatusKey, s) then Err(KeyError(MissingStatusMessage))
      else Err(TypeError("string indices must be integers, not 'str'"))
    case Array(items) =>
      if Json.Str(NameKey) !in items then Err(KeyError(MissingNameMessage))
      else if Json.Str(StatusKey) !in items then Err(KeyError(MissingStatusMessage))
      else Err(TypeError("list indices must be integers or slices, not str"))
    case Number(_) => Err(TypeError("argument of type 'int' is not iterable"))
    case Bool(_) => Err(TypeError("argument of type 'bool' is not iterable"))
    case Null => Err(TypeError("argument of type 'NoneType' is not iterable"))
  }

  /** The parser reads nothing of a dict but its name and status entries. */
  lemma ParseStatusReadsOnlyNameAndStatus(h1: Json.Value, h2: Json.Value)
    requires Json.HasKey(h1, NameKey) && Json.HasKey(h1, StatusKey)
    requires Json.HasKey(h2, NameKey) && Json.HasKey(h2, StatusKey)
    requires h1.fields[NameKey] == h2.fields[NameKey] && h1.fields[StatusKey] == h2.fields[StatusKey]
    ensures ParseStatus(h1) == ParseStatus(h2)
  {
  }

  /** Equal concatenations agree on the last `k` characters of their right parts. */
  lemma SameEnding(a1: string, b1: string, a2: string, b2: string, k: nat)
    requires a1 + b1 == a2 + b2
    requires k <= |b1| && k <= |b2|
    ensures b1[|b1| - k..] == b2[|b2| - k..]
  {
    var m := a1 + b1;
    assert b1[|b1| - k..] == m[|m| - k..];
    assert b2[|b2| - k..] == m[|m| - k..];
  }

  /** `p + x + q == p + y + q` forces `x == y`. */
  lemma CancelAround(p: string, x: string, y: string, q: string)
    requires p + x + q == p + y + q
    ensures x == y
  {
    var m := p + x + q;
    assert x == m[|p|..|m| - |q|];
    assert y == m[|p|..|m| - |q|];
  }

  /** The three verdict texts already differ in their last two characters. */
  lemma VerdictEndingsDiffer(v1: string, v2: string)
    requires v1 in Verdicts.Values && v2 in Verdicts.Values && v1 != v2
    ensures |v1| >= 2 && |v2| >= 2
    ensures v1[|v1| - 2..] != v2[|v2| - 2..]
  {
  }

  /** The verdict texts are pairwise distinct. */
  lemma VerdictsDistinct(s1: string, s2: string)
    requires s1 in Verdicts && s2 in Verdicts && s1 != s2
    ensures Verdicts[s1] != Verdicts[s2]
  {
  }

  /** A notification determines the verdict text and the rendered name it was built from. */
  lemma VerdictMessageInjective(n1: string, v1: string, n2: string, v2: string)
    requires v1 in Verdicts.Values && v2 in Verdicts.Values
    requires VerdictMessage(n1, v1) == VerdictMessage(n2, v2)
    ensures v1 == v2 && n1 == n2
  {
    var p := "Изменился статус проверки работы \"";
    var dot := "\". ";
    assert VerdictMessage(n1, v1) == (p + n1 + dot) + v1;
    assert VerdictMessage(n2, v2) == (p + n2 + dot) + v2;
    if v1 != v2 {
      VerdictEndingsDiffer(v1, v2);
      SameEnding(p + n1 + dot, v1, p + n2 + dot, v2, 2);
      assert false;
    }
    assert VerdictMessage(n1, v1) == p + n1 + (dot + v1);
    assert VerdictMessage(n2, v1) == p + n2 + (dot + v1);
    CancelAround(p, n1, n2, dot + v1);
  }

  /** Two homework records yield the same notification only when they agree on the status and on
      the rendered name. */
  lemma SameNotificationSameStatus(h1: Json.Value, h2: Json.Value)
    requires ParseStatus(h1).Ok? && ParseStatus(h2).Ok?
    requires ParseStatus(h1).value == ParseStatus(h2).value
    ensures h1.fields[StatusKey] == h2.fields[StatusKey]
    ensures Json.Show(h1.fields[NameKey]) == Json.Show(h2.fields[NameKey])
  {
    var s1, s2 := h1.fields[StatusKey].s, h2.fields[StatusKey].s;
    VerdictMessageInjective(Json.Show(h1.fields[NameKey]), Verdicts[s1], Json.Show(h2.fields[NameKey]), Verdicts[s2]);
    if s1 != s2 {
      VerdictsDistinct(s1, s2);
    }
  }
}
