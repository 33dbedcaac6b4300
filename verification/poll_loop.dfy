/** One iteration of the polling loop in `main`, as a pure step over the loop-local state, and a
    finite run of such iterations behind the credential gate. */
module PollLoop {
  import opened Wrappers
  import opened Exceptions
  import opened Homework
  import Json

  const CurrentDateKey := "current_date"
  const NotUpdatedMessage := "Статус не обновлен"
  const FailurePrefix := "Сбой в работе бота: "
  const SendFailedPrefix := "Ошибка при отправке сообщения в чат: "
  const MissingEnvMessage := "Отсутствуют переменные окружения"

  /** The variables `main` threads through its loop: the `from_date` of the next request, and the
      last message stored in `prev_verdict`. */
  datatype PollState = PollState(timestamp: Json.Value, prevVerdict: string)

  /** The state before the first iteration: the clock at start-up and an empty `prev_verdict`. */
  function Init(clock: int): PollState {
    PollState(Json.Number(clock), "")
  }

  /** What the chat did with one `send_message` call. */
  datatype Delivery = Delivered | Refused(reason: string)

  /** Everything one iteration learns from the outside world: the outcome of the request, the clock
      `int(time.time())`, and the fate of the send in the `try` block and of the one in `except`. */
  datatype Tick = Tick(fetch: Fetch, clock: int, delivery: Delivery, alertDelivery: Delivery)

  /** What the `try` block leaves behind: the new `current_timestamp` if it got as far as assigning
      it, and the message it delivered or the exception it raised. */
  datatype Attempt = Attempt(newTimestamp: Option<Json.Value>, result: Result<string, Error>)

  /** `send_message`: a refusal becomes a `SendMessageError` that names the chat's reason. */
  function Send(message: string, d: Delivery): (r: Result<string, Error>)
    ensures r.Ok? <==> d.Delivered?
    ensures r.Ok? ==> r.value == message
    ensures r.Err? ==> r.error == SendMessageError(SendFailedPrefix + d.reason)
  {
    match d
    case Delivered => Ok(message)
    case Refused(reason) => Err(SendMessageError(SendFailedPrefix + reason))
  }

  /** `response.get('current_date', int(time.time()))`. */
  function NextTimestamp(response: Json.Value, clock: int): Json.Value
    requires response.Object?
  {
    if CurrentDateKey in response.fields then response.fields[CurrentDateKey] else Json.Number(clock)
  }

  /** The text the success path sends: the verdict on the first homework, or the not-updated notice. */
  function Report(homeworks: seq<Json.Value>): Result<string, Error>
  {
    if |homeworks| > 0 then ParseStatus(homeworks[0]) else Ok(NotUpdatedMessage)
  }

  /** The `try` block of the loop body. */
  function TryBlock(t: Tick): Attempt
  {
    match GetApiAnswer(t.fetch)
    case Err(e) => Attempt(None, Err(e))
    case Ok(response) =>
      match CheckResponse(response)
      case Err(e) => Attempt(None, Err(e))
      case Ok(homeworks) =>
        var ts := NextTimestamp(response, t.clock);
        match Report(homeworks)
        case Err(e) => Attempt(Some(ts), Err(e))
        case Ok(m) => Attempt(Some(ts), Send(m, t.delivery))
  }

  /** `f'Сбой в работе бота: {error}'` */
  function FailureMessage(e: Error): string {
    FailurePrefix + Text(e)
  }

  /** The iteration either ends normally, having delivered `sent`, or a refused alert in the
      `except` branch escapes the loop and ends `main`. */
  datatype StepOutcome = Next(state: PollState, sent: seq<string>) | Crashed(error: Error)

  /** One pass through the loop body. */
  function Step(s: PollState, t: Tick): (o: StepOutcome)
    ensures o.Next? ==> |o.sent| <= 1
    ensures o.Next? && o.sent == [] ==> o.state.prevVerdict == s.prevVerdict
    ensures o.Next? && o.sent != [] ==> o.state.prevVerdict == o.sent[0]
    ensures o.Crashed? <==> TryBlock(t).result.Err?
                            && FailureMessage(TryBlock(t).result.error) != s.prevVerdict
                            && t.alertDelivery.Refused?
    ensures o.Crashed? ==> o.error.SendMessageError?
  {
    var a := TryBlock(t);
    var ts := match a.newTimestamp case Some(v) => v case None => s.timestamp;
    match a.result
    case Ok(m) => Next(PollState(ts, m), [m])
    case Err(e) =>
      var em := FailureMessage(e);
      if em == s.prevVerdict then Next(PollState(ts, s.prevVerdict), [])
      else
        match Send(em, t.alertDelivery)
        case Ok(_) => Next(PollState(ts, em), [em])
        case Err(e2) => Crashed(e2)
  }

  // ---------------------------------------------------------------- the success path

  /** A tick whose request returned 200 and a well-shaped body. */
  predicate ServedList(t: Tick) {
    && t.fetch.Response?
    && t.fetch.statusCode == HttpOk
    && t.fetch.body.Decoded?
    && IsHomeworkList(t.fetch.body.value)
  }

  function ListOf(t: Tick): seq<Json.Value>
    requires ServedList(t)
  {
    t.fetch.body.value.fields[HomeworksKey].items
  }

  /** Once the response has passed validation, the timestamp becomes its `current_date`, or the
      clock when it has none, whatever happens later in the iteration. */
  lemma SuccessPathTimestamp(s: PollState, t: Tick)
    requires ServedList(t)
    ensures var o := Step(s, t);
            var r := t.fetch.body.value;
            o.Next? ==> o.state.timestamp
                        == (if CurrentDateKey in r.fields then r.fields[CurrentDateKey] else Json.Number(t.clock))
  {
  }

  /** A request that fails or is rejected by validation leaves the timestamp alone. */
  lemma EarlyFailureKeepsTimestamp(s: PollState, t: Tick)
    requires !ServedList(t)
    ensures Step(s, t).Next? ==> Step(s, t).state.timestamp == s.timestamp
  {
  }

  /** A non-empty list whose first homework parses sends that verdict and stores it, without
      comparing it with `prev_verdict`. */
  lemma SuccessPathSendsFirstVerdict(s: PollState, t: Tick)
    requires ServedList(t) && |ListOf(t)| > 0
    requires ParseStatus(ListOf(t)[0]).Ok? && t.delivery.Delivered?
    ensures var m := ParseStatus(ListOf(t)[0]).value;
            Step(s, t).Next? && Step(s, t).sent == [m] && Step(s, t).state.prevVerdict == m
  {
  }

  /** An empty list sends the not-updated notice and stores it, every time. */
  lemma EmptyListSendsNotUpdated(s: PollState, t: Tick)
    requires ServedList(t) && |ListOf(t)| == 0 && t.delivery.Delivered?
    ensures Step(s, t).Next? && Step(s, t).sent == [NotUpdatedMessage]
    ensures Step(s, t).state.prevVerdict == NotUpdatedMessage
  {
  }

  /** Only the first homework of the list is looked at: two responses that agree on it and on
      `current_date` lead to the same iteration. */
  lemma OnlyFirstHomeworkMatters(s: PollState, t1: Tick, t2: Tick)
    requires ServedList(t1) && ServedList(t2)
    requires |ListOf(t1)| > 0 && |ListOf(t2)| > 0 && ListOf(t1)[0] == ListOf(t2)[0]
    requires var r1, r2 := t1.fetch.body.value, t2.fetch.body.value;
             (CurrentDateKey in r1.fields <==> CurrentDateKey in r2.fields)
             && (CurrentDateKey in r1.fields ==> r1.fields[CurrentDateKey] == r2.fields[CurrentDateKey])
    requires t1.clock == t2.clock && t1.delivery == t2.delivery && t1.alertDelivery == t2.alertDelivery
    ensures Step(s, t1) == Step(s, t2)
  {
  }

  /** The success path does not de-duplicate: two iterations that deliver the same verdict send
      it twice. */
  lemma RepeatedVerdictIsResent(s: PollState, t1: Tick, t2: Tick)
    requires TryBlock(t1).result.Ok? && TryBlock(t2).result.Ok?
    requires TryBlock(t1).result.value == TryBlock(t2).result.value
    ensures Step(s, t1).Next? && Step(Step(s, t1).state, t2).Next?
    ensures Step(s, t1).sent == Step(Step(s, t1).state, t2).sent == [TryBlock(t1).result.value]
  {
  }

  // ---------------------------------------------------------------- the error path

  /** An iteration whose `try` block fails, with `em` the alert text it leads to. */
  predicate FailsWith(t: Tick, em: string) {
    TryBlock(t).result.Err? && FailureMessage(TryBlock(t).result.error) == em
  }

  /** A failure is sent and stored exactly when its text differs from `prev_verdict`; otherwise
      the chat is not contacted, so even a refusing chat cannot end `main`, and only the timestamp
      may move. */
  lemma FailureSentOnlyWhenNew(s: PollState, t: Tick, em: string)
    requires FailsWith(t, em)
    requires em != s.prevVerdict ==> t.alertDelivery.Delivered?
    ensures Step(s, t).Next?
    ensures Step(s, t).sent == (if em == s.prevVerdict then [] else [em])
    ensures Step(s, t).state.prevVerdict == em
  {
  }

  /** The first failure after start-up is always reported, since no alert text is empty. */
  lemma FirstFailureReported(clock: int, t: Tick, em: string)
    requires FailsWith(t, em) && t.alertDelivery.Delivered?
    ensures Step(Init(clock), t).sent == [em]
  {
  }

  // ---------------------------------------------------------------- runs

  /** How a finite run ends: still polling, stopped at start-up, or ended by an escaping exception. */
  datatype Exit = Polling(state: PollState) | ExitedAtStartup(reason: string) | Aborted(error: Error)

  /** A run: how it ended, the messages delivered in order, and how many requests were made. */
  datatype Trace = Trace(exit: Exit, sent: seq<string>, fetches: nat)

  /** The loop driven by `ticks`, one request per iteration, until the ticks run out or it aborts. */
  function Loop(s: PollState, ticks: seq<Tick>): (r: Trace)
    ensures r.fetches <= |ticks|
    ensures |r.sent| <= r.fetches
    ensures !r.exit.ExitedAtStartup?
    ensures r.exit.Polling? ==> r.fetches == |ticks|
    ensures r.exit.Aborted? ==> 0 < r.fetches
    decreases |ticks|
  {
    if |ticks| == 0 then Trace(Polling(s), [], 0)
    else
      match Step(s, ticks[0])
      case Crashed(e) => Trace(Aborted(e), [], 1)
      case Next(s', sent) =>
        var rest := Loop(s', ticks[1..]);
        Trace(rest.exit, sent + rest.sent, rest.fetches + 1)
  }

  /** `main`: the credential gate, then the loop from the start-up clock. */
  function Run(c: Config, clock: int, ticks: seq<Tick>): (r: Trace)
    ensures !CheckTokens(c) ==> r == Trace(ExitedAtStartup(MissingEnvMessage), [], 0)
    ensures CheckTokens(c) ==> !r.exit.ExitedAtStartup? && (|ticks| > 0 ==> r.fetches > 0)
  {
    if !CheckTokens(c) then Trace(ExitedAtStartup(MissingEnvMessage), [], 0)
    else Loop(Init(clock), ticks)
  }

  /** Any number of consecutive iterations failing with the same text send it at most once: once if
      it differs from `prev_verdict` at the start, never otherwise. Only that first alert reaches the
      chat, so only its delivery matters; the later ones are never attempted and cannot end `main`. */
  lemma {:induction false} RepeatedFailureSentOnce(s: PollState, ticks: seq<Tick>, em: string)
    requires forall i :: 0 <= i < |ticks| ==> FailsWith(ticks[i], em)
    requires |ticks| > 0 && em != s.prevVerdict ==> ticks[0].alertDelivery.Delivered?
    ensures Loop(s, ticks).exit.Polling?
    ensures Loop(s, ticks).sent == (if |ticks| > 0 && em != s.prevVerdict then [em] else [])
    ensures |ticks| > 0 ==> Loop(s, ticks).exit.state.prevVerdict == em
    decreases |ticks|
  {
    if |ticks| > 0 {
      FailureSentOnlyWhenNew(s, ticks[0], em);
      var s' := Step(s, ticks[0]).state;
      RepeatedFailureSentOnce(s', ticks[1..], em);
    }
  }
}
