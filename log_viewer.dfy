/**
 * The live judge-log panel (components/submissions/submission-log-viewer.tsx):
 * a message list that socket events append to, the socket request, and the
 * total maps from connection state and stream name to what is shown.
 */
module LogViewer {
  import opened Wrappers

  /** The fields a socket message carries once parsed. */
  datatype Payload = Payload(stream: string, data: string)

  datatype LogMessage = LogMessage(stream: string, data: string, timestamp: int)

  /** One socket message: its parse result (`None` when it is not valid JSON) and the clock reading at arrival. */
  datatype Event = Event(payload: Option<Payload>, now: int)

  /** The list after one event: a parsed message is stamped with the arrival time and appended; any other is dropped. */
  function Appended(messages: seq<LogMessage>, event: Event): seq<LogMessage> {
    match event.payload
    case None => messages
    case Some(p) => messages + [LogMessage(p.stream, p.data, event.now)]
  }

  /** The list after a run of events, starting from the empty list. */
  function Replay(events: seq<Event>): seq<LogMessage> {
    if events == [] then [] else Appended(Replay(events[..|events| - 1]), events[|events| - 1])
  }

  /** Number of events that parse. */
  function ParsedCount(events: seq<Event>): nat {
    if events == [] then 0 else (if events[0].payload.Some? then 1 else 0) + ParsedCount(events[1..])
  }

  lemma {:induction false} ParsedCountSnoc(events: seq<Event>, e: Event)
    ensures ParsedCount(events + [e]) == ParsedCount(events) + (if e.payload.Some? then 1 else 0)
  {
    if events == [] {
      assert (events + [e])[1..] == [];
    } else {
      assert (events + [e])[1..] == events[1..] + [e];
      ParsedCountSnoc(events[1..], e);
    }
  }

  /** Each parsed event adds exactly one message and an unparsed one adds none. */
  lemma {:induction false} ReplayLength(events: seq<Event>)
    ensures |Replay(events)| == ParsedCount(events)
  {
    if events != [] {
      var init := events[..|events| - 1];
      ReplayLength(init);
      assert events == init + [events[|events| - 1]];
      ParsedCountSnoc(init, events[|events| - 1]);
    }
  }

  /** Append-only: the list after a prefix of the events is a prefix of the list after all of them. */
  lemma {:induction false} ReplayPrefix(events: seq<Event>, k: nat)
    requires k <= |events|
    ensures Replay(events[..k]) <= Replay(events)
    decreases |events|
  {
    if k < |events| {
      var init := events[..|events| - 1];
      assert events[..k] == init[..k];
      ReplayPrefix(init, k);
    } else {
      assert events[..k] == events;
    }
  }

  /** Every message comes from a parsed event, with that event's stream, data and clock reading. */
  lemma {:induction false} ReplaySources(events: seq<Event>, i: nat)
    requires i < |Replay(events)|
    ensures exists k ::
      && 0 <= k < |events|
      && events[k].payload.Some?
      && Replay(events)[i] == LogMessage(events[k].payload.value.stream, events[k].payload.value.data, events[k].now)
  {
    var init := events[..|events| - 1];
    var last := events[|events| - 1];
    if i < |Replay(init)| {
      ReplaySources(init, i);
      var k :| 0 <= k < |init| && init[k].payload.Some? &&
        Replay(init)[i] == LogMessage(init[k].payload.value.stream, init[k].payload.value.data, init[k].now);
      assert events[k] == init[k];
    } else {
      assert events[|events| - 1] == last;
    }
  }

  /** `ReadyState` of the socket library. */
  datatype ReadyState = Uninstantiated | Connecting | Open | Closing | Closed

  /** `connectionStatus`: the text beside the indicator, one for each of the five states. */
  function ConnectionLabel(state: ReadyState): (text: string)
    ensures text == "Live" <==> state == Open
    ensures text == "Disconnected" <==> state == Closed
    ensures text == "Connecting..." <==> state == Connecting
  {
    match state
    case Connecting => "Connecting..."
    case Open => "Live"
    case Closing => "Closing..."
    case Closed => "Disconnected"
    case Uninstantiated => "Uninstantiated"
  }

  /** The label map is one-to-one, so each label names one state. */
  lemma LabelsDistinct(a: ReadyState, b: ReadyState)
    requires a != b
    ensures ConnectionLabel(a) != ConnectionLabel(b)
  {
    var la := ConnectionLabel(a);
    var lb := ConnectionLabel(b);
    assert la[0] != lb[0] || la[1] != lb[1] || |la| != |lb|;
  }

  datatype Indicator = Green | Yellow | Red

  function IndicatorColor(state: ReadyState): (c: Indicator)
    ensures c == Green <==> state == Open
    ensures c == Yellow <==> state == Connecting
    ensures c == Red <==> state !in {Open, Connecting}
  {
    if state == Open then Green else if state == Connecting then Yellow else Red
  }

  datatype TextColor = RedText | BlueText | DefaultText

  function StreamColor(stream: string): (c: TextColor)
    ensures c == RedText <==> stream == "stderr" || stream == "error"
    ensures c == BlueText <==> stream == "info"
  {
    if stream == "stderr" || stream == "error" then RedText
    else if stream == "info" then BlueText
    else DefaultText
  }

  datatype LogView = Placeholder | Lines(lines: seq<(TextColor, string)>)

  /** The panel body: a placeholder while the list is empty, else one coloured line per message. */
  function Render(messages: seq<LogMessage>): (v: LogView)
    ensures v.Placeholder? <==> messages == []
    ensures v.Lines? ==> |v.lines| == |messages|
    ensures v.Lines? ==>
      forall i :: 0 <= i < |messages| ==> v.lines[i] == (StreamColor(messages[i].stream), messages[i].data)
  {
    if messages == [] then Placeholder
    else Lines(seq(|messages|, i requires 0 <= i < |messages| => (StreamColor(messages[i].stream), messages[i].data)))
  }

  const ReconnectIntervalMs: int := 3000

  /** The socket request: no connection without a token; reconnection is always asked for. */
  datatype SocketOptions = SocketOptions(url: Option<string>, shouldReconnect: bool, reconnectIntervalMs: int)

  function LogsUrl(wsBase: string, submissionId: string, token: string): string {
    wsBase + "/ws/submissions/" + submissionId + "/logs?token=" + token
  }

  function Socket(wsBase: string, submissionId: string, token: Option<string>): (o: SocketOptions)
    ensures o.url.Some? <==> Truthy(token)
    ensures o.url.Some? ==> o.url.value == LogsUrl(wsBase, submissionId, token.value)
    ensures o.shouldReconnect && o.reconnectIntervalMs == 3000
  {
    SocketOptions(if Truthy(token) then Some(LogsUrl(wsBase, submissionId, token.value)) else None,
                  true, ReconnectIntervalMs)
  }

  /** The URL ends with the token and, just before the query, names the submission. */
  lemma LogsUrlParts(wsBase: string, submissionId: string, token: string)
    ensures var url := LogsUrl(wsBase, submissionId, token);
      var n := |wsBase| + 16;
      && url[|url| - |token|..] == token
      && url[n..n + |submissionId|] == submissionId
      && url[..|wsBase|] == wsBase
  {
    var url := LogsUrl(wsBase, submissionId, token);
    var n := |wsBase| + 16;
    assert |"/ws/submissions/"| == 16;
    assert url == wsBase + "/ws/submissions/" + submissionId + ("/logs?token=" + token);
  }

  class SubmissionLogViewer {
    const submissionId: string
    var messages: seq<LogMessage>
    /** How many times `onStatusUpdate` has been called. */
    var statusUpdates: nat

    constructor(submissionId: string)
      ensures this.submissionId == submissionId
      ensures messages == [] && statusUpdates == 0
    {
      this.submissionId := submissionId;
      messages := [];
      statusUpdates := 0;
    }

    /** A new `lastMessage`. */
    method OnMessage(event: Event)
      modifies this`messages
      ensures messages == Appended(old(messages), event)
      ensures old(messages) <= messages
    {
      match event.payload {
        case None =>
        case Some(p) =>
          messages := messages + [LogMessage(p.stream, p.data, event.now)];
      }
    }

    /** The socket closed: the status is refetched and the list is kept as it is. */
    method OnClose()
      modifies this`statusUpdates
      ensures statusUpdates == old(statusUpdates) + 1
    {
      statusUpdates := statusUpdates + 1;
    }
  }
}
