/** The polling loop of the notifier: one pass of its body as a pure step over the
    state it carries between passes, a run of several passes, and the start-up that
    checks the tokens before the first pass.

    The API answer and the outcome of the delivery attempt are inputs of a step:
    fetching and sending are I/O. The sleep between passes has no effect on the state.
 */
module PollLoop {
  import opened Results
  import opened PyJson
  import opened Homework

  /** What the loop carries from one pass to the next: the last status it announced
      and the `from_date` cursor for the next fetch. The cursor is a Json because the
      assignment meant to advance it would store whatever value it read. */
  datatype PollState = PollState(lastStatus: string, timestamp: Json)

  /** The effect of one pass: the new state, the message handed to the messenger
      (if the pass got that far) and the exception the pass ended with, if any. */
  datatype StepOutcome = StepOutcome(state: PollState, sent: Option<string>, raised: Option<Error>)

  /** The inputs of one pass: what fetching the API answer produced, and whether the
      messenger would accept a message in this pass. */
  datatype Cycle = Cycle(fetched: Result<Json>, delivered: bool)

  /** The state before the first pass: nothing announced yet, cursor at start-up time. */
  function InitialState(now: int): PollState {
    PollState("", JInt(now))
  }

  /** A last status the loop can hold: the initial empty one or a known status. */
  predicate KnownStatus(s: string) {
    s == "" || s in HomeworkVerdicts
  }

  /** The newest homework of a well-shaped answer with at least one homework. */
  function NewestHomework(response: Json): Option<Json> {
    if WellShaped(response) && |response.fields["homeworks"].items| > 0
    then Some(response.fields["homeworks"].items[0])
    else None
  }

  /** The `status` entry of the newest homework, when that homework is a dict that has one. */
  function NewestStatus(response: Json): Option<Json> {
    match NewestHomework(response)
    case Some(h) => if h.JObject? && "status" in h.fields then Some(h.fields["status"]) else None
    case None => None
  }

  /** Compares the newest homework's status with the last one announced and, when it
      differs, builds the notification, hands it over and records the status. The
      status is recorded only once both the sentence and the delivery succeeded. */
  function CompareAndNotify(st: PollState, lastHomework: Json, delivered: bool): (o: StepOutcome)
    ensures o.state.timestamp == st.timestamp
    ensures o.sent.None? ==> o.state == st
  {
    match GetItem(lastHomework, "status")
    case Err(e) => StepOutcome(st, None, Some(e))
    case Ok(status) =>
      if JStr(st.lastStatus) == status then StepOutcome(st, None, None)
      else
        match ParseStatus(lastHomework)
        case Err(e) => StepOutcome(st, None, Some(e))
        case Ok(message) =>
          if !delivered then StepOutcome(st, Some(message), Some(GenericErr))
          else StepOutcome(st.(lastStatus := status.s), Some(message), None)
  }

  /** One pass of the loop body. Every exception is caught at the end of the pass;
      whatever was assigned before it was raised is kept. */
  function Step(st: PollState, fetched: Result<Json>, delivered: bool): (o: StepOutcome)
    // The cursor never moves: the statement meant to advance it subscripts the
    // homework list with a string, which always raises.
    ensures o.state.timestamp == st.timestamp
    ensures o.raised.Some?
    // The state changes only by recording a status whose notification was delivered.
    ensures o.sent.None? ==> o.state == st
    ensures o.state.lastStatus != st.lastStatus <==> o.sent.Some? && delivered
    ensures o.sent.Some? && delivered ==>
              fetched.Ok? && NewestStatus(fetched.value) == Some(JStr(o.state.lastStatus))
    ensures KnownStatus(st.lastStatus) ==> KnownStatus(o.state.lastStatus)
  {
    match fetched
    case Err(e) => StepOutcome(st, None, Some(e))
    case Ok(response) =>
      match CheckResponse(response)
      case Err(e) => StepOutcome(st, None, Some(e))
      case Ok(_) =>
        var homeworks := response.fields["homeworks"];
        var o := if Truthy(homeworks)
                 then CompareAndNotify(st, homeworks.items[0], delivered)
                 else StepOutcome(st, None, None);
        if o.raised.Some? then o
        else
          match GetItem(homeworks, "current_date")
          case Err(e) => o.(raised := Some(e))
          case Ok(cursor) => o.(state := o.state.(timestamp := cursor))
  }

  /** A message is handed over exactly when the answer is well shaped, its newest
      homework has a status different from the last one announced, and that homework
      yields a sentence; the message is that sentence. */
  lemma StepSendsIffStatusChanged(st: PollState, response: Json, delivered: bool)
    ensures var o := Step(st, Ok(response), delivered);
            o.sent.Some? <==>
              && NewestHomework(response).Some?
              && ParseStatus(NewestHomework(response).value).Ok?
              && NewestStatus(response) != Some(JStr(st.lastStatus))
    ensures var o := Step(st, Ok(response), delivered);
            o.sent.Some? ==> o.sent == Some(ParseStatus(NewestHomework(response).value).value)
  {
  }

  /** A failed fetch, a failed shape check or an empty homework list changes nothing
      and sends nothing. */
  lemma NothingToAnnounce(st: PollState, fetched: Result<Json>, delivered: bool)
    requires fetched.Err? || !WellShaped(fetched.value)
             || fetched.value.fields["homeworks"].items == []
    ensures Step(st, fetched, delivered) == StepOutcome(st, None, Step(st, fetched, delivered).raised)
  {
  }

  /** Once a status has been announced, an answer whose newest homework still has that
      status sends nothing and leaves the state as it is. */
  lemma StepDeduplicates(st: PollState, response: Json, delivered: bool)
    requires NewestStatus(response) == Some(JStr(st.lastStatus))
    ensures Step(st, Ok(response), delivered).sent.None?
    ensures Step(st, Ok(response), delivered).state == st
  {
  }

  /** A delivery that fails records nothing, so the next pass over an answer with the
      same newest homework hands over the same message again. */
  lemma FailedDeliveryIsRetried(st: PollState, response: Json, delivered: bool)
    requires Step(st, Ok(response), false).sent.Some?
    ensures var o := Step(st, Ok(response), false);
            o.state == st && Step(o.state, Ok(response), delivered).sent == o.sent
  {
  }

  function SentOf(o: StepOutcome): seq<string> {
    if o.sent.Some? then [o.sent.value] else []
  }

  /** The state after a sequence of passes and the messages handed over, in order. */
  function Poll(st: PollState, cycles: seq<Cycle>): (r: (PollState, seq<string>))
    ensures r.0.timestamp == st.timestamp
    ensures |r.1| <= |cycles|
    ensures KnownStatus(st.lastStatus) ==> KnownStatus(r.0.lastStatus)
    decreases |cycles|
  {
    if |cycles| == 0 then (st, [])
    else
      var prev := Poll(st, cycles[..|cycles| - 1]);
      var last := cycles[|cycles| - 1];
      var o := Step(prev.0, last.fetched, last.delivered);
      (o.state, prev.1 + SentOf(o))
  }

  /** The loop proper: runs the passes one after the other. */
  method Run(init: PollState, cycles: seq<Cycle>) returns (final: PollState, sent: seq<string>)
    ensures (final, sent) == Poll(init, cycles)
    ensures final.timestamp == init.timestamp
  {
    final, sent := init, [];
    var i := 0;
    while i < |cycles|
      invariant 0 <= i <= |cycles|
      invariant (final, sent) == Poll(init, cycles[..i])
    {
      var o := Step(final, cycles[i].fetched, cycles[i].delivered);
      assert cycles[..i + 1][..i] == cycles[..i];
      final, sent := o.state, sent + SentOf(o);
      i := i + 1;
    }
    assert cycles[..i] == cycles;
  }

  /** Checks the tokens, builds the bot, then runs the loop from the start-up time
      `now`. A missing token stops the program before the bot is built; a token the
      bot library rejects (`botAccepted` false) stops it before the first pass. */
  method Launch(practicumToken: Option<string>, telegramToken: Option<string>,
                telegramChatId: Option<string>, botAccepted: bool, now: int, cycles: seq<Cycle>)
    returns (r: Result<(PollState, seq<string>)>)
    ensures r.Err? <==> practicumToken.None? || telegramToken.None? || telegramChatId.None?
                        || !botAccepted
    ensures r.Err? ==> r.error == GenericErr
    ensures r.Ok? ==> r.value == Poll(InitialState(now), cycles)
    ensures r.Ok? ==> r.value.0.timestamp == JInt(now) && KnownStatus(r.value.0.lastStatus)
  {
    var tokens := CheckTokens(practicumToken, telegramToken, telegramChatId);
    if tokens.Fail? {
      return Err(tokens.error);
    }
    if !botAccepted {
      return Err(GenericErr);
    }
    var final, sent := Run(InitialState(now), cycles);
    return Ok((final, sent));
  }

  /** Invariant of a run over the same answer with every delivery accepted: either
      nothing happened yet, or exactly one message went out and the status it announced
      is the newest homework's status. */
  lemma {:induction false} RepeatedAnswerInvariant(st: PollState, response: Json, cycles: seq<Cycle>)
    requires forall k :: 0 <= k < |cycles| ==> cycles[k] == Cycle(Ok(response), true)
    ensures var r := Poll(st, cycles);
            || (r.1 == [] && r.0 == st)
            || (|r.1| == 1 && NewestStatus(response) == Some(JStr(r.0.lastStatus)))
    decreases |cycles|
  {
    if |cycles| > 0 {
      var prefix := cycles[..|cycles| - 1];
      RepeatedAnswerInvariant(st, response, prefix);
      var prev := Poll(st, prefix);
      if NewestStatus(response) == Some(JStr(prev.0.lastStatus)) {
        StepDeduplicates(prev.0, response, true);
      }
    }
  }

  /** The same answer polled any number of times, with every delivery accepted,
      produces at most one notification. */
  lemma RepeatedAnswerNotifiesOnce(st: PollState, response: Json, cycles: seq<Cycle>)
    requires forall k :: 0 <= k < |cycles| ==> cycles[k] == Cycle(Ok(response), true)
    ensures |Poll(st, cycles).1| <= 1
  {
    RepeatedAnswerInvariant(st, response, cycles);
  }

  /** A fresh loop that sees one approved homework announces it; the cursor keeps its
      start-up value. */
  lemma FirstApprovalIsAnnounced(now: int)
    ensures var hw := JObject(map["homework_name" := JStr("hw1"), "status" := JStr("approved")]);
            var response := JObject(map["homeworks" := JList([hw]), "current_date" := JInt(1000)]);
            Step(InitialState(now), Ok(response), true)
            == StepOutcome(PollState("approved", JInt(now)),
                           Some("Изменился статус проверки работы \"" + "hw1" + "\". "
                                + "Работа проверена: ревьюеру всё понравилось. Ура!"),
                           Some(TypeErr))
  {
  }

  /** A homework without a status raises KeyError when its status is compared, before
      any sentence is built, and the loop carries on unchanged. */
  lemma MissingStatusIsSwallowed(st: PollState)
    ensures var response := JObject(map["homeworks" := JList([JObject(map["homework_name" := JStr("hw2")])])]);
            Step(st, Ok(response), true) == StepOutcome(st, None, Some(KeyErr))
  {
  }
}
