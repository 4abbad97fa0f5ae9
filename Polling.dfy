/** The driving loop of main: one pass (fetch, validate, format and send
    each record, advance the cursor; or, on any exception, send one failure
    notice and keep the cursor), a bounded run of passes, and the Poller
    class that performs them step by step on its own fields. */
module Polling {
  import opened PyModel
  import opened Homework

  const FailurePrefix := "Something went wrong: "

  /** The text the outer handler sends for an exception. */
  function FailureNotice(e: PyError): string
  {
    FailurePrefix + Str(e)
  }

  /** What the outside world does during one pass: the API's reply, the
      outcome of each record notification in turn (sends beyond the end of
      this list are delivered), the outcome of the failure notice, and the
      clock reading taken after the records are sent. */
  datatype Poll = Poll(reply: HttpReply, sends: seq<SendOutcome>, notice: SendOutcome, now: int)

  /** The loop's state: the cursor, every message delivered to the chat so
      far, every request issued so far, and whether an exception has escaped
      main (which ends the process). */
  datatype State = State(cursor: int, sent: seq<string>, requests: seq<Request>, halted: bool)

  /** The record messages a pass delivered, and the exception that cut it short. */
  datatype Delivery = Delivery(messages: seq<string>, failure: Option<PyError>)

  function SendAt(sends: seq<SendOutcome>, k: nat): SendOutcome
  {
    if k < |sends| then sends[k] else Delivered
  }

  /** What parse_status gives for each record. */
  function Formatted(records: seq<Json>): seq<Result<string, PyError>>
  {
    seq(|records|, k requires 0 <= k < |records| => ParseStatus(records[k]))
  }

  /** Send the formatted records texts[i..] in order, stopping at the first
      exception (formatting record i, or sending its text). */
  function DeliverFrom(texts: seq<Result<string, PyError>>, sends: seq<SendOutcome>, i: nat): Delivery
    requires i <= |texts|
    decreases |texts| - i
  {
    if i == |texts| then Delivery([], None)
    else
      match texts[i]
      case Err(e) => Delivery([], Some(e))
      case Ok(text) =>
        match SendMessage(SendAt(sends, i))
        case Err(e) => Delivery([], Some(e))
        case Ok(_) =>
          var rest := DeliverFrom(texts, sends, i + 1);
          Delivery([text] + rest.messages, rest.failure)
  }

  /** The records a pass formats: fetch, validate, and iterate the validated
      value when it is truthy. */
  function Validated(reply: HttpReply): Result<seq<Json>, PyError>
  {
    match GetApiAnswer(reply)
    case Err(e) => Err(e)
    case Ok(body) =>
      match CheckResponse(body)
      case Err(e) => Err(e)
      case Ok(homeworks) => if Truthy(homeworks) then Iterate(homeworks) else Ok([])
  }

  /** Everything inside the loop's try block. */
  function Attempt(p: Poll): Delivery
  {
    match Validated(p.reply)
    case Err(e) => Delivery([], Some(e))
    case Ok(records) => DeliverFrom(Formatted(records), p.sends, 0)
  }

  /** One pass of the loop from state s. */
  function Step(s: State, p: Poll): State
  {
    if s.halted then s
    else
      var d := Attempt(p);
      var requests := s.requests + [ApiRequest(s.cursor)];
      match d.failure
      case None => State(p.now, s.sent + d.messages, requests, false)
      case Some(e) =>
        if p.notice.Delivered? then State(s.cursor, s.sent + d.messages + [FailureNotice(e)], requests, false)
        else State(s.cursor, s.sent + d.messages, requests, true)
  }

  /** The passes of a bounded run, one per element of polls. */
  function Passes(s: State, polls: seq<Poll>): State
    decreases |polls|
  {
    if polls == [] then s else Passes(Step(s, polls[0]), polls[1..])
  }

  /** The pass does not end the process: it succeeds, or its failure notice is delivered. */
  predicate Survives(p: Poll)
  {
    Attempt(p).failure.None? || p.notice.Delivered?
  }

  // ---------------------------------------------------------------------
  // One pass

  /** The messages of a pass from record i on are the texts of records
      i, i+1, ... in order, each of them delivered. */
  lemma {:induction false} DeliveredInOrder(texts: seq<Result<string, PyError>>, sends: seq<SendOutcome>, i: nat)
    requires i <= |texts|
    decreases |texts| - i
    ensures var d := DeliverFrom(texts, sends, i);
      && i + |d.messages| <= |texts|
      && (forall k :: 0 <= k < |d.messages| ==>
            texts[i + k] == Ok(d.messages[k]) && SendAt(sends, i + k) == Delivered)
  {
    if i < |texts| && texts[i].Ok? && SendMessage(SendAt(sends, i)).Ok? {
      DeliveredInOrder(texts, sends, i + 1);
      var rest := DeliverFrom(texts, sends, i + 1);
      var d := DeliverFrom(texts, sends, i);
      assert d == Delivery([texts[i].value] + rest.messages, rest.failure);
      forall k | 0 <= k < |d.messages|
        ensures texts[i + k] == Ok(d.messages[k]) && SendAt(sends, i + k) == Delivered
      {
        if k > 0 {
          assert d.messages[k] == rest.messages[k - 1];
          assert i + k == (i + 1) + (k - 1);
        }
      }
    }
  }

  /** A pass with no exception gets through every record; one with an
      exception stops at the first record whose formatting or sending
      raised, with that exception. */
  lemma {:induction false} DeliveryStops(texts: seq<Result<string, PyError>>, sends: seq<SendOutcome>, i: nat)
    requires i <= |texts|
    decreases |texts| - i
    ensures var d := DeliverFrom(texts, sends, i);
      && i + |d.messages| <= |texts|
      && (d.failure.None? <==> i + |d.messages| == |texts|)
      && (d.failure.Some? ==> StopsAt(texts, sends, i + |d.messages|, d.failure.value))
      && (forall k :: i <= k < i + |d.messages| ==> texts[k].Ok? && SendAt(sends, k) == Delivered)
  {
    DeliveredInOrder(texts, sends, i);
    var d := DeliverFrom(texts, sends, i);
    forall k | i <= k < i + |d.messages|
      ensures texts[k].Ok? && SendAt(sends, k) == Delivered
    {
      assert texts[i + (k - i)] == Ok(d.messages[k - i]);
    }
    if i < |texts| {
      match texts[i]
      case Err(e) =>
        assert d == Delivery([], Some(e));
      case Ok(text) =>
        match SendMessage(SendAt(sends, i))
        case Err(e) =>
          assert d == Delivery([], Some(e));
        case Ok(_) =>
          DeliveryStops(texts, sends, i + 1);
          var rest := DeliverFrom(texts, sends, i + 1);
          assert d == Delivery([text] + rest.messages, rest.failure);
          assert i + |d.messages| == (i + 1) + |rest.messages|;
    }
  }

  /** Record j is where the pass stopped, with exception e: formatting it
      raised e, or formatting it worked and sending its text raised e. */
  predicate StopsAt(texts: seq<Result<string, PyError>>, sends: seq<SendOutcome>, j: nat, e: PyError)
    requires j < |texts|
  {
    match texts[j]
    case Err(e') => e' == e
    case Ok(_) => SendMessage(SendAt(sends, j)) == Err(e)
  }

  /** A pass in which every validated record formats and is delivered sends
      exactly one message per record, the record's text, in list order after
      everything sent before, and then moves the cursor to the clock reading. */
  lemma SuccessfulPass(s: State, p: Poll, records: seq<Json>)
    requires !s.halted && Validated(p.reply) == Ok(records)
    requires forall k :: 0 <= k < |records| ==> ParseStatus(records[k]).Ok? && SendAt(p.sends, k).Delivered?
    ensures var t := Step(s, p);
      && t.cursor == p.now && !t.halted
      && t.requests == s.requests + [ApiRequest(s.cursor)]
      && |t.sent| == |s.sent| + |records| && t.sent[..|s.sent|] == s.sent
      && forall k :: 0 <= k < |records| ==> t.sent[|s.sent| + k] == ParseStatus(records[k]).value
  {
    var texts := Formatted(records);
    DeliveredInOrder(texts, p.sends, 0);
    DeliveryStops(texts, p.sends, 0);
    var d := DeliverFrom(texts, p.sends, 0);
    var t := Step(s, p);
    assert t.sent == s.sent + d.messages;
    forall k | 0 <= k < |records| ensures t.sent[|s.sent| + k] == ParseStatus(records[k]).value {
      assert t.sent[|s.sent| + k] == d.messages[k];
    }
  }

  /** A pass in which some stage raised keeps the cursor; after the record
      messages sent before the exception (a proper prefix of the records'
      texts) comes exactly one failure notice naming the exception, and
      nothing after it. If that notice itself cannot be delivered, the
      exception escapes main and the process ends. */
  lemma FailingPass(s: State, p: Poll)
    requires !s.halted && Attempt(p).failure.Some?
    ensures var t := Step(s, p);
      var d := Attempt(p);
      var e := d.failure.value;
      && t.cursor == s.cursor
      && t.requests == s.requests + [ApiRequest(s.cursor)]
      && (p.notice.Delivered? ==> !t.halted && t.sent == s.sent + d.messages + [FailureNotice(e)])
      && (!p.notice.Delivered? ==> t.halted && t.sent == s.sent + d.messages)
      && (Validated(p.reply).Err? ==> d.messages == [] && e == Validated(p.reply).error)
      && (Validated(p.reply).Ok? ==>
            var records := Validated(p.reply).value;
            && |d.messages| < |records|
            && forall k :: 0 <= k < |d.messages| ==> ParseStatus(records[k]) == Ok(d.messages[k]))
  {
    if Validated(p.reply).Ok? {
      DeliveredInOrder(Formatted(Validated(p.reply).value), p.sends, 0);
      DeliveryStops(Formatted(Validated(p.reply).value), p.sends, 0);
    }
  }

  /** An empty validated list sends nothing and still advances the cursor. */
  lemma EmptyPass(s: State, p: Poll)
    requires !s.halted && Validated(p.reply) == Ok([])
    ensures Step(s, p) == State(p.now, s.sent, s.requests + [ApiRequest(s.cursor)], false)
  {
  }

  /** Whether a pass succeeds, and what it sends, does not depend on the
      HTTP status code: a non-200 reply is only logged. */
  lemma StatusCodeOnlyLogged(s: State, p: Poll, code: int)
    requires p.reply.Reply?
    ensures Step(s, p.(reply := Reply(code, p.reply.body))) == Step(s, p)
  {
  }

  /** A failure notice never reads as a status notification. */
  lemma {:induction false} ReadAmongRejects(m: string, candidates: seq<string>)
    requires m == [] || m[0] != Opening[0]
    ensures ReadAmong(m, candidates) == None
  {
    if candidates != [] {
      assert ReadAs(m, candidates[0]) == None by {
        if |Opening| <= |m| {
          assert m[..|Opening|][0] == m[0];
        }
      }
      ReadAmongRejects(m, candidates[1..]);
    }
  }

  lemma FailureNoticeIsNoNotification(e: PyError)
    ensures ReadNotification(FailureNotice(e)) == None
  {
    assert FailureNotice(e)[0] == 'S';
    ReadAmongRejects(FailureNotice(e), Verdicts);
  }

  // ---------------------------------------------------------------------
  // A bounded run of passes

  lemma {:induction false} PassesFromHalted(s: State, polls: seq<Poll>)
    requires s.halted
    ensures Passes(s, polls) == s
    decreases |polls|
  {
    if polls != [] {
      PassesFromHalted(Step(s, polls[0]), polls[1..]);
    }
  }

  lemma {:induction false} PassesCompose(s: State, a: seq<Poll>, b: seq<Poll>)
    ensures Passes(s, a + b) == Passes(Passes(s, a), b)
    decreases |a|
  {
    if a != [] {
      assert (a + b)[0] == a[0] && (a + b)[1..] == a[1..] + b;
      PassesCompose(Step(s, a[0]), a[1..], b);
    } else {
      assert a + b == b;
    }
  }

  /** Messages and requests already made stay made: a run only appends to both logs. */
  lemma {:induction false} PassesKeepHistory(s: State, polls: seq<Poll>)
    ensures var t := Passes(s, polls);
      && |s.sent| <= |t.sent| && t.sent[..|s.sent|] == s.sent
      && |s.requests| <= |t.requests| <= |s.requests| + |polls| && t.requests[..|s.requests|] == s.requests
      && (s.halted ==> t.halted)
    decreases |polls|
  {
    if polls != [] {
      var u := Step(s, polls[0]);
      assert |s.sent| <= |u.sent| && u.sent[..|s.sent|] == s.sent;
      assert |s.requests| <= |u.requests| <= |s.requests| + 1 && u.requests[..|s.requests|] == s.requests;
      PassesKeepHistory(u, polls[1..]);
      var t := Passes(s, polls);
      assert t.sent[..|s.sent|] == t.sent[..|u.sent|][..|s.sent|];
      assert t.requests[..|s.requests|] == t.requests[..|u.requests|][..|s.requests|];
    }
  }

  /** When no pass ends the process, every pass issues exactly one request. */
  lemma {:induction false} PassesSurvive(s: State, polls: seq<Poll>)
    requires !s.halted
    requires forall k :: 0 <= k < |polls| ==> Survives(polls[k])
    ensures !Passes(s, polls).halted
    ensures |Passes(s, polls).requests| == |s.requests| + |polls|
    decreases |polls|
  {
    if polls != [] {
      assert Survives(polls[0]);
      PassesSurvive(Step(s, polls[0]), polls[1..]);
    }
  }

  /** A run of failing passes never moves the cursor: each of them asks the
      API again from the same from_date. */
  lemma {:induction false} FailuresRetrySameCursor(s: State, polls: seq<Poll>)
    requires forall k :: 0 <= k < |polls| ==> Attempt(polls[k]).failure.Some?
    ensures var t := Passes(s, polls);
      && t.cursor == s.cursor
      && |s.requests| <= |t.requests|
      && forall i :: |s.requests| <= i < |t.requests| ==> t.requests[i] == ApiRequest(s.cursor)
    decreases |polls|
  {
    if polls != [] {
      var u := Step(s, polls[0]);
      assert Attempt(polls[0]).failure.Some?;
      assert u.cursor == s.cursor;
      assert forall i :: |s.requests| <= i < |u.requests| ==> u.requests[i] == ApiRequest(s.cursor);
      FailuresRetrySameCursor(u, polls[1..]);
      PassesKeepHistory(u, polls[1..]);
      var t := Passes(s, polls);
      forall i | |s.requests| <= i < |t.requests| ensures t.requests[i] == ApiRequest(s.cursor) {
        if i < |u.requests| {
          assert t.requests[i] == t.requests[..|u.requests|][i] == u.requests[i];
        }
      }
    }
  }

  /** A successful pass after passes that all kept the process alive leaves the cursor at its clock reading. */
  lemma CursorAfterSuccess(s: State, a: seq<Poll>, p: Poll)
    requires !s.halted
    requires forall j :: 0 <= j < |a| ==> Survives(a[j])
    requires Attempt(p).failure.None?
    ensures Passes(s, a + [p]).cursor == p.now
  {
    PassesCompose(s, a, [p]);
    PassesSurvive(s, a);
  }

  /** After a run in which no pass ends the process, the cursor is the clock
      reading of the last pass that succeeded. */
  lemma CursorIsLastSuccess(s: State, polls: seq<Poll>, k: nat)
    requires !s.halted && k < |polls|
    requires forall j :: 0 <= j < |polls| ==> Survives(polls[j])
    requires Attempt(polls[k]).failure.None?
    requires forall j :: k < j < |polls| ==> Attempt(polls[j]).failure.Some?
    ensures Passes(s, polls).cursor == polls[k].now
  {
    var head, tail := polls[..k + 1], polls[k + 1..];
    assert polls == head + tail;
    assert head == polls[..k] + [polls[k]];
    CursorAfterSuccess(s, polls[..k], polls[k]);
    PassesCompose(s, head, tail);
    FailuresRetrySameCursor(Passes(s, head), tail);
  }

  /** After a run in which every pass failed, the cursor is where it started. */
  lemma CursorStaysWithoutSuccess(s: State, polls: seq<Poll>)
    requires forall j :: 0 <= j < |polls| ==> Attempt(polls[j]).failure.Some?
    ensures Passes(s, polls).cursor == s.cursor
  {
    FailuresRetrySameCursor(s, polls);
  }

  // ---------------------------------------------------------------------
  // Worked passes

  function Record(status: string, name: string): Json
  {
    JObj([("status", JStr(status)), ("homework_name", JStr(name))])
  }

  function Answer(records: seq<Json>): HttpReply
  {
    Reply(200, Decodes(JObj([("homeworks", JArr(records))])))
  }

  /** An approved proj1 gives one notification with the approved verdict, and the cursor moves. */
  lemma ApprovedRecordPass(cursor: int, now: int)
    ensures Step(State(cursor, [], [], false), Poll(Answer([Record("approved", "proj1")]), [], Delivered, now))
         == State(now, [Notification("proj1", ApprovedVerdict)], [Request(Endpoint, cursor)], false)
  {
    var r := Record("approved", "proj1");
    assert KnownStatus(r);
    assert ParseStatus(r) == Ok(Notification("proj1", ApprovedVerdict));
    assert Validated(Answer([r])) == Ok([r]);
    assert Formatted([r])[0] == ParseStatus(r);
    assert DeliverFrom(Formatted([r]), [], 1) == Delivery([], None);
    assert Attempt(Poll(Answer([r]), [], Delivered, now)) == Delivery([Notification("proj1", ApprovedVerdict)], None);
  }

  /** An unknown status on proj2 gives no notification for it, only the failure notice, and the cursor stays. */
  lemma UnknownRecordPass(cursor: int, now: int)
    ensures Step(State(cursor, [], [], false), Poll(Answer([Record("unknown", "proj2")]), [], Delivered, now))
         == State(cursor, [FailurePrefix + NoStatusText], [Request(Endpoint, cursor)], false)
  {
    var r := Record("unknown", "proj2");
    assert Lookup(r.fields, "status") == Some(JStr("unknown"));
    assert !KnownStatus(r);
  }

  /** A transport failure gives the single notice "Something went wrong: No data from Practicum". */
  lemma TransportFailurePass(s: State, sends: seq<SendOutcome>, now: int)
    requires !s.halted
    ensures Step(s, Poll(TransportFailure, sends, Delivered, now))
         == State(s.cursor, s.sent + [FailurePrefix + NoDataText], s.requests + [ApiRequest(s.cursor)], false)
  {
  }

  /** A failed second send: the first record's message stays sent, then the notice follows. */
  lemma SecondSendFailsPass(s: State, now: int)
    requires !s.halted
    ensures var a, b := Record("approved", "p1"), Record("rejected", "p2");
      Step(s, Poll(Answer([a, b]), [Delivered, RequestsFailure], Delivered, now))
      == State(s.cursor, s.sent + [Notification("p1", ApprovedVerdict), FailurePrefix + TelegramText],
               s.requests + [ApiRequest(s.cursor)], false)
  {
    var a, b := Record("approved", "p1"), Record("rejected", "p2");
    assert KnownStatus(a);
    assert ParseStatus(a) == Ok(Notification("p1", ApprovedVerdict));
    assert ParseStatus(b) == Ok(Notification("p2", RejectedVerdict));
    assert [a, b][1] == b;
    assert Formatted([a, b])[1] == ParseStatus(b);
    assert DeliverFrom(Formatted([a, b]), [Delivered, RequestsFailure], 1) == Delivery([], Some(Raised(TelegramText)));
  }

  // ---------------------------------------------------------------------
  // The loop itself

  class Poller {
    var cursor: int
    var sent: seq<string>
    var requests: seq<Request>
    var halted: bool

    function Current(): State
      reads this
    {
      State(cursor, sent, requests, halted)
    }

    /** main's set-up: the cursor starts at the clock reading taken at start. */
    constructor (start: int)
      ensures Current() == State(start, [], [], false)
    {
      cursor, sent, requests, halted := start, [], [], false;
    }

    /** One pass of the `while True` body. */
    method PollOnce(p: Poll)
      requires !halted
      modifies this
      ensures Current() == Step(old(Current()), p)
    {
      requests := requests + [ApiRequest(cursor)];
      var failure: Option<PyError> := None;
      var answer := GetApiAnswer(p.reply);
      if answer.Err? {
        failure := Some(answer.error);
      } else {
        var checked := CheckResponse(answer.value);
        if checked.Err? {
          failure := Some(checked.error);
        } else if Truthy(checked.value) {
          var records := Iterate(checked.value).value;
          assert Validated(p.reply) == Ok(records);
          failure := SendRecords(records, p.sends);
        }
      }
      match failure
      case None =>
        cursor := p.now;
      case Some(e) =>
        if p.notice.Delivered? {
          sent := sent + [FailureNotice(e)];
        } else {
          halted := true;
        }
    }

    /** The `for homework in response_result` loop: format each record and
        send its text, until one of the two raises. */
    method SendRecords(records: seq<Json>, sends: seq<SendOutcome>) returns (failure: Option<PyError>)
      modifies this`sent
      ensures sent == old(sent) + DeliverFrom(Formatted(records), sends, 0).messages
      ensures failure == DeliverFrom(Formatted(records), sends, 0).failure
    {
      ghost var texts := Formatted(records);
      ghost var d := DeliverFrom(texts, sends, 0);
      failure := None;
      var i := 0;
      while i < |records| && failure.None?
        invariant 0 <= i <= |records|
        invariant failure.None? ==>
          old(sent) + d.messages == sent + DeliverFrom(texts, sends, i).messages &&
          d.failure == DeliverFrom(texts, sends, i).failure
        invariant failure.Some? ==> old(sent) + d.messages == sent && d.failure == failure
        decreases |records| - i + (if failure.None? then 1 else 0)
      {
        var text := ParseStatus(records[i]);
        assert text == texts[i];
        if text.Err? {
          failure := Some(text.error);
        } else {
          var delivery := SendMessage(SendAt(sends, i));
          if delivery.Err? {
            failure := Some(delivery.error);
          } else {
            ghost var rest := DeliverFrom(texts, sends, i + 1);
            assert sent + DeliverFrom(texts, sends, i).messages == (sent + [text.value]) + rest.messages;
            sent := sent + [text.value];
            i := i + 1;
          }
        }
      }
    }

    /** A bounded run of the loop: one pass per element of polls, until an
        exception escapes main. */
    method Run(polls: seq<Poll>)
      modifies this
      ensures Current() == Passes(old(Current()), polls)
    {
      var i := 0;
      while i < |polls| && !halted
        invariant 0 <= i <= |polls|
        invariant Passes(Current(), polls[i..]) == Passes(old(Current()), polls)
      {
        assert polls[i..][1..] == polls[i + 1..];
        PollOnce(polls[i]);
        i := i + 1;
      }
      if i < |polls| {
        PassesFromHalted(Current(), polls[i..]);
      }
    }
  }
}
