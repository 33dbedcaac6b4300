/** Concrete iterations of the bot on hand-written API answers. */
module Scenarios {
  import opened Wrappers
  import opened Exceptions
  import opened Homework
  import opened PollLoop
  import opened Json

  const ApprovedHw1 := "Изменился статус проверки работы \"" + "hw1" + "\". " + "Работа проверена: ревьюеру всё понравилось. Ура!"

  function Served(body: Value, clock: int): Tick {
    Tick(Response(200, Decoded(body)), clock, Delivered, Delivered)
  }

  /** An approved `hw1` with a `current_date` is announced with the approval text, and the next
      request starts from that date. */
  lemma ApprovedHomeworkAnnounced(clock: int, now: int)
    ensures var hw := Object(map[NameKey := Str("hw1"), StatusKey := Str("approved")]);
            var body := Object(map[HomeworksKey := Array([hw]), CurrentDateKey := Number(1700000000)]);
            Step(Init(clock), Served(body, now))
            == Next(PollState(Number(1700000000), ApprovedHw1), [ApprovedHw1])
  {
    var hw := Object(map[NameKey := Str("hw1"), StatusKey := Str("approved")]);
    var body := Object(map[HomeworksKey := Array([hw]), CurrentDateKey := Number(1700000000)]);
    assert ParseStatus(hw) == Ok(ApprovedHw1);
    assert CheckResponse(body) == Ok([hw]);
    assert TryBlock(Served(body, now)) == Attempt(Some(Number(1700000000)), Ok(ApprovedHw1));
  }

  /** Each known status is announced with its own text; any other string is rejected. */
  lemma KnownStatusesParse(name: string, status: string)
    ensures var hw := Object(map[NameKey := Str(name), StatusKey := Str(status)]);
            (status == "reviewing" ==> ParseStatus(hw) == Ok(VerdictMessage(name, "Работа взята на проверку ревьюером.")))
            && (status == "rejected" ==> ParseStatus(hw) == Ok(VerdictMessage(name, "Работа проверена: у ревьюера есть замечания.")))
            && (status !in {"approved", "reviewing", "rejected"} ==> ParseStatus(hw) == Err(UnknownHomeworkStatus(UnknownStatusMessage)))
  {
  }

  /** An empty list without `current_date` sends the not-updated notice and moves the timestamp to
      the clock. */
  lemma EmptyListScenario(clock: int, now: int)
    ensures Step(Init(clock), Served(Object(map[HomeworksKey := Array([])]), now))
            == Next(PollState(Number(now), NotUpdatedMessage), [NotUpdatedMessage])
  {
  }

  /** An HTTP 503 is reported once, with the code in the alert, and a second 503 stays silent. */
  lemma ServiceUnavailableScenario(clock: int, now: int)
    ensures var t := Tick(Response(503, Undecodable("")), now, Delivered, Delivered);
            var em := FailurePrefix + Endpoint + " - недоступен. Код ответа API: 503";
            var o := Step(Init(clock), t);
            && o == Next(PollState(Number(clock), em), [em])
            && Step(o.state, t) == Next(o.state, [])
  {
    var t := Tick(Response(503, Undecodable("")), now, Delivered, Delivered);
    var e := BadHttpStatus(UnavailableMessage(503));
    assert Decimal.FromNat(503) == "503";
    assert TryBlock(t) == Attempt(None, Err(e));
    assert FailureMessage(e) == FailurePrefix + Endpoint + " - недоступен. Код ответа API: 503";
    var o := Step(Init(clock), t);
    assert o.state.prevVerdict == FailureMessage(e);
  }

  /** Malformed answers: a top-level list, a dict without `homeworks`, and a `homeworks` that is a
      string or a dict. */
  lemma MalformedResponsesRejected()
    ensures CheckResponse(Array([])) == Err(TypeError(NotDictPrefix + "[]"))
    ensures CheckResponse(Object(map[])) == Err(KeyError(MissingHomeworksMessage))
    ensures CheckResponse(Object(map[HomeworksKey := Str("x")])) == Err(TypeError(NotListMessage))
    ensures CheckResponse(Object(map[HomeworksKey := Object(map[])])) == Err(TypeError(NotListMessage))
  {
    var empty: seq<Value> := [];
    assert seq(|empty|, i requires 0 <= i < |empty| => Repr(empty[i])) == [];
    assert Show(Array([])) == "[]";
  }

  /** A missing `homeworks` key is alerted with the key error's quoted message. */
  lemma MissingKeyAlertText(clock: int, now: int)
    ensures Step(Init(clock), Served(Object(map[]), now)).sent
            == [FailurePrefix + ("'" + MissingHomeworksMessage + "'")]
  {
    var e := KeyError(MissingHomeworksMessage);
    assert TryBlock(Served(Object(map[]), now)) == Attempt(None, Err(e));
  }
}
