/** The bot's decision core: the status vocabulary, the formatter
    (parse_status), the validator (check_response) and the way the fetcher
    (get_api_answer) and the notifier (send_message) turn what the network
    did into a value or an exception. */
module Homework {
  import opened PyModel

  const ApprovedVerdict := "Hooray! Your homework is checked and everything is cool!"
  const ReviewingVerdict := "The tutor started to review your homework"
  const RejectedVerdict := "Ooooops! There are some mistakes in your homework. Please, fix it"

  /** The status vocabulary: status code to verdict text. */
  const Statuses: map<string, string> := map[
    "approved" := ApprovedVerdict,
    "reviewing" := ReviewingVerdict,
    "rejected" := RejectedVerdict
  ]

  /** How an f-string shows the None that `.get` gives for an unknown status. */
  const NoVerdict := "None"

  /** Every verdict text a notification can end with. */
  const Verdicts: seq<string> := [ApprovedVerdict, ReviewingVerdict, RejectedVerdict, NoVerdict]

  const Endpoint := "https://practicum.yandex.ru/api/user_api/homework_statuses/"

  const NoDataText := "No data from Practicum"
  const ServerText := "Something wrong with the server"
  const TelegramText := "Something wrong with Telegram"
  const NoStatusText := "No status"

  // ---------------------------------------------------------------------
  // What the network did, as seen by the two callers of outside libraries

  /** The result of the API's body decoder. */
  datatype Body = Decodes(value: Json) | Undecodable

  /** What the HTTP GET came back with: a requests exception, or a response. */
  datatype HttpReply = TransportFailure | Reply(statusCode: int, body: Body)

  /** The GET the fetcher issues: the endpoint and its `from_date` parameter. */
  datatype Request = Request(url: string, fromDate: int)

  /** What the bot client's send_message did: delivered the text, raised a
      requests exception, or raised an exception of its own carrying message. */
  datatype SendOutcome = Delivered | RequestsFailure | ClientFailure(message: string)

  /** The request get_api_answer sends for a cursor. */
  function ApiRequest(cursor: int): Request
  {
    Request(Endpoint, cursor)
  }

  /** get_api_answer: a transport failure becomes "No data from Practicum", an
      undecodable body "Something wrong with the server"; the status code is
      only logged, so a decoded body is returned whatever the code was. */
  function GetApiAnswer(reply: HttpReply): (r: Result<Json, PyError>)
    ensures r.Ok? <==> reply.Reply? && reply.body.Decodes?
    ensures r.Ok? ==> r.value == reply.body.value
    ensures reply.TransportFailure? ==> r.Err? && Str(r.error) == NoDataText
    ensures reply.Reply? && reply.body.Undecodable? ==> r.Err? && Str(r.error) == ServerText
    ensures r.Err? ==> r.error.Raised?
  {
    match reply
    case TransportFailure => Err(Raised(NoDataText))
    case Reply(_, Undecodable) => Err(Raised(ServerText))
    case Reply(_, Decodes(v)) => Ok(v)
  }

  /** send_message: a requests exception becomes "Something wrong with
      Telegram"; any other exception of the client passes through as it is. */
  function SendMessage(outcome: SendOutcome): (r: Result<(), PyError>)
    ensures r.Ok? <==> outcome.Delivered?
    ensures outcome.RequestsFailure? ==> r.Err? && Str(r.error) == TelegramText
    ensures outcome.ClientFailure? ==> r.Err? && Str(r.error) == outcome.message
  {
    match outcome
    case Delivered => Ok(())
    case RequestsFailure => Err(Raised(TelegramText))
    case ClientFailure(message) => Err(Foreign(message))
  }

  // ---------------------------------------------------------------------
  // Formatter

  const Opening := "The status has changed: \""
  const Closing := "\". "

  /** The notification text for a homework name and a verdict. */
  function Notification(name: string, verdict: string): string
  {
    Opening + name + Closing + verdict
  }

  /** `STATUSES.get(status)` as an f-string shows it. */
  function VerdictFor(status: Json): (r: string)
    ensures r in Verdicts
    ensures status.JStr? && status.s in Statuses ==> r == Statuses[status.s]
    ensures !(status.JStr? && status.s in Statuses) ==> r == NoVerdict
  {
    if status.JStr? && status.s in Statuses then Statuses[status.s] else NoVerdict
  }

  /** parse_status: `homework['status']` and `homework['homework_name']` must
      exist; an unknown status is not an error, its verdict shows as None. */
  function ParseStatus(homework: Json): (r: Result<string, PyError>)
    ensures !homework.JObj? ==> r == Err(BadSubscript(TypeName(homework)))
    ensures homework.JObj? && Lookup(homework.fields, "status").None? ==>
              r == Err(KeyMissing("status"))
    ensures homework.JObj? && Lookup(homework.fields, "status").Some? ==>
              var status := Lookup(homework.fields, "status").value;
              var name := Lookup(homework.fields, "homework_name");
              && (!Hashable(status) ==> r == Err(Unhashable(TypeName(status))))
              && (Hashable(status) && name.None? ==> r == Err(KeyMissing("homework_name")))
              && (Hashable(status) && name.Some? ==>
                    r == Ok(Notification(PyStr(name.value), VerdictFor(status))))
  {
    match Index(homework, "status")
    case Err(e) => Err(e)
    case Ok(status) =>
      if !Hashable(status) then Err(Unhashable(TypeName(status)))
      else
        var verdict := VerdictFor(status);
        match Index(homework, "homework_name")
        case Err(e) => Err(e)
        case Ok(name) => Ok(Notification(PyStr(name), verdict))
  }

  /** The name and verdict a notification text was made from, when it has
      the shape of a notification ending in one of the verdicts (tried in the
      order of Verdicts). */
  function ReadNotification(m: string): Option<(string, string)>
  {
    ReadAmong(m, Verdicts)
  }

  function ReadAmong(m: string, candidates: seq<string>): Option<(string, string)>
  {
    if candidates == [] then None
    else match ReadAs(m, candidates[0])
      case Some(name) => Some((name, candidates[0]))
      case None => ReadAmong(m, candidates[1..])
  }

  function ReadAs(m: string, verdict: string): Option<string>
  {
    var tail := Closing + verdict;
    if |Opening| + |tail| <= |m| && m[..|Opening|] == Opening && m[|m| - |tail|..] == tail
    then Some(m[|Opening|..|m| - |tail|])
    else None
  }

  lemma NotificationEnds(name: string, verdict: string)
    requires verdict != []
    ensures var m := Notification(name, verdict); |m| > 0 && m[|m| - 1] == verdict[|verdict| - 1]
  {
  }

  lemma {:induction false} ReadAmongFinds(name: string, verdict: string, candidates: seq<string>)
    requires verdict in candidates && verdict != []
    requires forall k :: 0 <= k < |candidates| ==> candidates[k] != [] && (candidates[k][|candidates[k]| - 1] == verdict[|verdict| - 1] ==> candidates[k] == verdict)
    ensures ReadAmong(Notification(name, verdict), candidates) == Some((name, verdict))
  {
    var m := Notification(name, verdict);
    var tail := Closing + verdict;
    assert m == Opening + name + tail;
    assert m[..|Opening|] == Opening;
    assert m[|m| - |tail|..] == tail;
    assert m[|Opening|..|m| - |tail|] == name;
    if candidates[0] == verdict {
      assert ReadAs(m, verdict) == Some(name);
    } else {
      NotificationEnds(name, verdict);
      ReadAmongFinds(name, verdict, candidates[1..]);
    }
  }

  /** A notification names its homework and its verdict unambiguously: both
      can be read back from the text, whatever the name holds. */
  lemma ReadNotificationInverts(name: string, verdict: string)
    requires verdict in Verdicts
    ensures ReadNotification(Notification(name, verdict)) == Some((name, verdict))
  {
    ReadAmongFinds(name, verdict, Verdicts);
  }

  /** For a record whose status is in the vocabulary and whose name is a str,
      parse_status gives exactly the template filled with that name and the
      status's verdict, and nothing else can be read from it. */
  lemma ParseStatusKnown(homework: Json, status: string, name: string)
    requires homework.JObj? && Lookup(homework.fields, "status") == Some(JStr(status))
    requires Lookup(homework.fields, "homework_name") == Some(JStr(name))
    requires status in Statuses
    ensures ParseStatus(homework) == Ok(Opening + name + Closing + Statuses[status])
    ensures ReadNotification(ParseStatus(homework).value) == Some((name, Statuses[status]))
  {
    ReadNotificationInverts(name, Statuses[status]);
  }

  /** For a record whose status is a str outside the vocabulary (or null),
      parse_status raises nothing and the verdict part is the text None. */
  lemma ParseStatusUnknown(homework: Json, name: Json)
    requires homework.JObj? && Lookup(homework.fields, "homework_name") == Some(name)
    requires Lookup(homework.fields, "status").Some?
    requires var status := Lookup(homework.fields, "status").value;
      status.JNull? || (status.JStr? && status.s !in Statuses)
    ensures ParseStatus(homework) == Ok(Opening + PyStr(name) + Closing + "None")
    ensures ReadNotification(ParseStatus(homework).value) == Some((PyStr(name), NoVerdict))
  {
    ReadNotificationInverts(PyStr(name), NoVerdict);
  }

  // ---------------------------------------------------------------------
  // Validator

  /** The record's status is one of the vocabulary's codes. */
  predicate KnownStatus(homework: Json)
  {
    homework.JObj? &&
    var status := Lookup(homework.fields, "status");
    status.Some? && status.value.JStr? && status.value.s in Statuses
  }

  /** Every record of the list has a known status: what validation of the
      whole batch would accept. */
  predicate AllKnown(records: seq<Json>)
  {
    forall k :: 0 <= k < |records| ==> KnownStatus(records[k])
  }

  /** The value `response.get('homeworks')` gives for a dict response. */
  function HomeworksOf(response: Json): Json
    requires response.JObj?
  {
    match Lookup(response.fields, "homeworks")
    case Some(v) => v
    case None => JNull
  }

  /** check_response. Its loop returns or raises while visiting the first
      element, so the first element is the only one inspected: the error
      cases are those of `response.get`, of iterating the list, of
      `homework.get` on the first element and of testing its status for
      membership; a known first status returns the list untouched. */
  function CheckResponse(response: Json): (r: Result<Json, PyError>)
    // what is returned is the homeworks value itself, unchanged
    ensures r.Ok? ==> Get(response, "homeworks") == Ok(r.value)
    // and it is empty, or a list whose first record has a known status
    ensures r.Ok? ==>
              Iterate(r.value).Ok? &&
              (!Truthy(r.value) || (r.value.JArr? && KnownStatus(r.value.items[0])))
    ensures !response.JObj? ==> r == Err(NoAttribute(TypeName(response), "get"))
    // a missing key gives None, which cannot be iterated
    ensures response.JObj? && Lookup(response.fields, "homeworks").None? ==>
              r == Err(NotIterable("NoneType"))
    // any empty iterable (an empty list, str or dict) is returned unchanged
    ensures response.JObj? && Iterate(HomeworksOf(response)).Ok? && !Truthy(HomeworksOf(response)) ==>
              r == Ok(HomeworksOf(response))
    // a homeworks value that cannot be iterated raises the iteration's error
    ensures response.JObj? && Iterate(HomeworksOf(response)).Err? ==>
              r == Err(Iterate(HomeworksOf(response)).error)
    // for a list, the whole verdict rests on its first record
    ensures response.JObj? && HomeworksOf(response).JArr? ==>
              var records := HomeworksOf(response).items;
              && (records == [] ==> r == Ok(JArr([])))
              && (records != [] && KnownStatus(records[0]) ==> r == Ok(JArr(records)))
              && ((records != [] && records[0].JObj? && !KnownStatus(records[0])
                   && Hashable(Get(records[0], "status").value)) ==> r == Err(Raised(NoStatusText)))
              && ((records != [] && records[0].JObj? && !Hashable(Get(records[0], "status").value)) ==>
                  r == Err(Unhashable(TypeName(Get(records[0], "status").value))))
              && (records != [] && !records[0].JObj? ==>
                  r == Err(NoAttribute(TypeName(records[0]), "get")))
  {
    match Get(response, "homeworks")
    case Err(e) => Err(e)
    case Ok(homeworks) =>
      match Iterate(homeworks)
      case Err(e) => Err(e)
      case Ok(elements) =>
        if elements == [] then Ok(homeworks)
        else
          match Get(elements[0], "status")
          case Err(e) => Err(e)
          case Ok(status) =>
            if !Hashable(status) then Err(Unhashable(TypeName(status)))
            else if status.JStr? && status.s in Statuses then Ok(homeworks)
            else Err(Raised(NoStatusText))
  }

  /** On a list, check_response accepts exactly when the list is empty or its
      first record has a known status, and the records after the first play
      no part. */
  lemma CheckResponseFirstOnly(fields: seq<(string, Json)>, first: Json, rest: seq<Json>, other: seq<Json>)
    requires Lookup(fields, "homeworks") == Some(JArr([first] + rest))
    ensures CheckResponse(JObj(fields)).Ok? <==> KnownStatus(first)
    ensures CheckResponse(JObj(fields)).Ok? ==> CheckResponse(JObj(fields)).value == JArr([first] + rest)
    ensures forall f2 :: Lookup(f2, "homeworks") == Some(JArr([first] + other)) ==>
              (CheckResponse(JObj(f2)).Ok? <==> CheckResponse(JObj(fields)).Ok?)
  {
    assert ([first] + rest)[0] == first;
    forall f2 | Lookup(f2, "homeworks") == Some(JArr([first] + other))
      ensures CheckResponse(JObj(f2)).Ok? <==> KnownStatus(first)
    {
      assert ([first] + other)[0] == first;
    }
  }

  /** Validation of the whole batch is stricter: whatever it accepts, check_response accepts. */
  lemma CheckResponseAcceptsAllKnown(fields: seq<(string, Json)>, records: seq<Json>)
    requires Lookup(fields, "homeworks") == Some(JArr(records))
    requires AllKnown(records)
    ensures CheckResponse(JObj(fields)) == Ok(JArr(records))
  {
    if records != [] {
      assert KnownStatus(records[0]);
    }
  }

  /** ... but check_response accepts more: a list whose first record is
      approved and whose second has a status outside the vocabulary passes,
      and the second record is then formatted with the verdict None. */
  lemma CheckResponseLetsLaterUnknownThrough()
    ensures var good := JObj([("status", JStr("approved")), ("homework_name", JStr("a"))]);
            var bad := JObj([("status", JStr("unknown")), ("homework_name", JStr("b"))]);
            var response := JObj([("homeworks", JArr([good, bad]))]);
            !AllKnown([good, bad])
    ensures var good := JObj([("status", JStr("approved")), ("homework_name", JStr("a"))]);
            var bad := JObj([("status", JStr("unknown")), ("homework_name", JStr("b"))]);
            var response := JObj([("homeworks", JArr([good, bad]))]);
            CheckResponse(response) == Ok(JArr([good, bad]))
    ensures var bad := JObj([("status", JStr("unknown")), ("homework_name", JStr("b"))]);
            ParseStatus(bad) == Ok(Notification("b", "None"))
  {
    var good := JObj([("status", JStr("approved")), ("homework_name", JStr("a"))]);
    var bad := JObj([("status", JStr("unknown")), ("homework_name", JStr("b"))]);
    assert Lookup(bad.fields, "status") == Some(JStr("unknown"));
    assert !KnownStatus(bad);
    assert [good, bad][1] == bad;
    assert Lookup(good.fields, "status") == Some(JStr("approved"));
    assert KnownStatus(good);
    assert CheckResponse(JObj([("homeworks", JArr([good, bad]))])) == Ok(JArr([good, bad]));
    assert Lookup(bad.fields, "homework_name") == Some(JStr("b"));
    assert ParseStatus(bad) == Ok(Notification("b", NoVerdict));
  }
}
