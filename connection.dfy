/** The reconnecting connection to one server (class Test in index.js).
    Time is an explicit input in milliseconds; the reachability probe's result and
    the socket's events are inputs as well. Timers are not modelled: an operation
    that would schedule start() again after 5 s returns a flag saying so. */
module Connection {

  /** Least time between two accepted calls of start(), in ms. */
  const MinStartSpacingMs: nat := 200

  datatype ReadyState = Connecting | Open | Closing | Closed

  /** The connection handle: the empty placeholder object the constructor stores,
      or a socket, identified by the number of sockets created before it. */
  datatype Socket = Placeholder | Socket(generation: nat, readyState: ReadyState)

  /** What send() is given: a string, or the object sent on open (serialised before sending). */
  datatype Payload = Text(text: string) | InitCommand(cmdId: nat)

  /** What is written to a socket, tagged with that socket's generation. */
  datatype Frame = Data(generation: nat, payload: Payload) | PingFrame(generation: nat) | PongFrame(generation: nat)

  /** Result of the reachability probe: a response body, or a transport error. */
  datatype ProbeOutcome = ProbeBody(body: string) | ProbeFailure(message: string)

  /** The state of a Test object. */
  datatype Link = Link(connected: bool, autoRetry: bool, disconnectCount: nat,
                       lastStartTime: nat, ws: Socket, generations: nat)

  /** A Test object as its constructor leaves it before start() runs. */
  function Created(): Link {
    Link(false, false, 0, 0, Placeholder, 0)
  }

  /** terminate() is called only on a socket whose state is Open. */
  function Terminated(ws: Socket): Socket {
    if ws.Socket? && ws.readyState == Open then ws.(readyState := Closing) else ws
  }

  /** start() goes on unless it comes less than 200 ms after the previous accepted call. */
  predicate StartAccepted(l: Link, now: nat) {
    now - l.lastStartTime >= MinStartSpacingMs
  }

  /** start() up to its await: the spacing guard, the new start time, terminating an open socket. */
  function StartStep(l: Link, now: nat): Link {
    if StartAccepted(l, now) then l.(lastStartTime := now, ws := Terminated(l.ws)) else l
  }

  /** The rest of start() once the probe settles: a new socket on success, nothing on failure. */
  function ProbeStep(l: Link, outcome: ProbeOutcome): Link {
    match outcome
    case ProbeBody(_) => l.(ws := Socket(l.generations, Connecting), generations := l.generations + 1)
    case ProbeFailure(_) => l
  }

  /** A failed probe schedules another start() when auto-retry is on. */
  predicate ProbeRetries(l: Link, outcome: ProbeOutcome) {
    outcome.ProbeFailure? && l.autoRetry
  }

  /** An event of socket `gen` changes the ready state only of that socket. */
  function Observed(ws: Socket, gen: nat, state: ReadyState): Socket {
    if ws.Socket? && ws.generation == gen then ws.(readyState := state) else ws
  }

  /** The socket's open handler. */
  function OpenStep(l: Link, gen: nat): Link {
    l.(connected := true, ws := Observed(l.ws, gen, Open))
  }

  /** The socket's close handler: a disconnect counts only if the link was connected. */
  function CloseStep(l: Link, gen: nat): Link {
    l.(connected := false,
       disconnectCount := if l.connected then l.disconnectCount + 1 else l.disconnectCount,
       ws := Observed(l.ws, gen, Closed))
  }

  /** send(), ping() and pong() write only while connected and once a socket exists. */
  predicate CanWrite(l: Link) {
    l.connected && l.ws.Socket?
  }

  class Test {
    const server: string
    const url: string
    var connected: bool
    var autoRetry: bool
    var disconnectCount: nat
    var lastStartTime: nat
    var ws: Socket
    var generations: nat
    /** Everything written to a socket, oldest first. */
    ghost var sent: seq<Frame>

    function Model(): Link
      reads this
    {
      Link(connected, autoRetry, disconnectCount, lastStartTime, ws, generations)
    }

    /** The constructor runs start() at once; its guard rejects it only when the
        clock reads less than 200 ms. */
    constructor (server: string, now: nat)
      ensures this.server == server && url == "ws://" + server + "/test"
      ensures Model() == StartStep(Created(), now) && sent == []
      ensures !connected && !autoRetry && disconnectCount == 0 && ws == Placeholder
      ensures lastStartTime == if now < MinStartSpacingMs then 0 else now
    {
      this.server := server;
      url := "ws://" + server + "/test";
      connected := false;
      autoRetry := false;
      disconnectCount := 0;
      lastStartTime := 0;
      ws := Placeholder;
      generations := 0;
      sent := [];
      new;
      var _ := Start(now);
    }

    /** start() up to the probe. A call that comes too soon fails and changes nothing. */
    method Start(now: nat) returns (accepted: bool)
      modifies this
      ensures accepted <==> now - old(lastStartTime) >= MinStartSpacingMs
      ensures !accepted ==> Model() == old(Model())
      ensures accepted ==> lastStartTime == now
      ensures accepted && old(ws).Socket? && old(ws).readyState == Open ==> ws == old(ws).(readyState := Closing)
      ensures accepted && ws.Socket? ==> ws.readyState != Open
      ensures connected == old(connected) && disconnectCount == old(disconnectCount)
      ensures autoRetry == old(autoRetry) && generations == old(generations)
      ensures Model() == StartStep(old(Model()), now) && sent == old(sent)
    {
      if now - lastStartTime < MinStartSpacingMs {
        return false;
      }
      lastStartTime := now;
      if ws.Socket? && ws.readyState == Open {
        ws := ws.(readyState := Closing);
      }
      accepted := true;
    }

    /** The continuation of start() once the probe settles. On success a new
        socket of a fresh generation replaces the handle; on failure nothing
        changes and a retry is scheduled if auto-retry is on. */
    method ProbeSettled(outcome: ProbeOutcome) returns (retryScheduled: bool)
      modifies this
      ensures retryScheduled <==> outcome.ProbeFailure? && autoRetry
      ensures outcome.ProbeBody? ==> ws == Socket(old(generations), Connecting) && generations == old(generations) + 1
      ensures outcome.ProbeFailure? ==> Model() == old(Model())
      ensures Model() == ProbeStep(old(Model()), outcome) && sent == old(sent)
    {
      retryScheduled := false;
      match outcome
      case ProbeFailure(_) =>
        retryScheduled := autoRetry;
      case ProbeBody(_) =>
        ws := Socket(generations, Connecting);
        generations := generations + 1;
    }

    /** The autoRetry setter. */
    method SetAutoRetry(on: bool)
      modifies this
      ensures Model() == old(Model()).(autoRetry := on) && sent == old(sent)
    {
      autoRetry := on;
    }

    /** Socket `gen` reports open. */
    method OnOpen(gen: nat)
      modifies this
      ensures connected
      ensures disconnectCount == old(disconnectCount) && lastStartTime == old(lastStartTime)
      ensures Model() == OpenStep(old(Model()), gen) && sent == old(sent)
    {
      connected := true;
      if ws.Socket? && ws.generation == gen {
        ws := ws.(readyState := Open);
      }
    }

    /** Socket `gen` reports close. Returns whether this ended a connection
        (the flag emitted with 'close') and whether a retry is scheduled. */
    method OnClose(gen: nat) returns (disconnect: bool, retryScheduled: bool)
      modifies this
      ensures disconnect == old(connected) && !connected
      ensures disconnectCount == old(disconnectCount) + (if old(connected) then 1 else 0)
      ensures retryScheduled == autoRetry
      ensures Model() == CloseStep(old(Model()), gen) && sent == old(sent)
    {
      disconnect := false;
      if connected {
        disconnectCount := disconnectCount + 1;
        disconnect := true;
      }
      connected := false;
      if ws.Socket? && ws.generation == gen {
        ws := ws.(readyState := Closed);
      }
      retryScheduled := autoRetry;
    }

    method Send(payload: Payload)
      modifies this`sent
      ensures CanWrite(Model()) ==> sent == old(sent) + [Data(ws.generation, payload)]
      ensures !CanWrite(Model()) ==> sent == old(sent)
    {
      if connected && ws.Socket? {
        sent := sent + [Data(ws.generation, payload)];
      }
    }

    method Ping()
      modifies this`sent
      ensures CanWrite(Model()) ==> sent == old(sent) + [PingFrame(ws.generation)]
      ensures !CanWrite(Model()) ==> sent == old(sent)
    {
      if connected && ws.Socket? {
        sent := sent + [PingFrame(ws.generation)];
      }
    }

    method Pong()
      modifies this`sent
      ensures CanWrite(Model()) ==> sent == old(sent) + [PongFrame(ws.generation)]
      ensures !CanWrite(Model()) ==> sent == old(sent)
    {
      if connected && ws.Socket? {
        sent := sent + [PongFrame(ws.generation)];
      }
    }
  }

  // ---------------------------------------------------------------------------
  // Traces of a Test object

  /** Everything that changes a Test object: start() calls, probe results,
      socket events and the autoRetry setter. */
  datatype LinkEvent =
    | StartCalled(now: nat)
    | ProbeSettledWith(outcome: ProbeOutcome)
    | SocketOpened(gen: nat)
    | SocketClosed(generation: nat)
    | AutoRetrySet(on: bool)

  function Next(l: Link, e: LinkEvent): Link {
    match e
    case StartCalled(now) => StartStep(l, now)
    case ProbeSettledWith(outcome) => ProbeStep(l, outcome)
    case SocketOpened(gen) => OpenStep(l, gen)
    case SocketClosed(gen) => CloseStep(l, gen)
    case AutoRetrySet(on) => l.(autoRetry := on)
  }

  /** The state after a sequence of events. */
  function RunLink(l: Link, evs: seq<LinkEvent>): Link
    decreases |evs|
  {
    if evs == [] then l else Next(RunLink(l, evs[..|evs| - 1]), evs[|evs| - 1])
  }

  /** The states the object passes through: the initial one, then one per event. */
  function History(l: Link, evs: seq<LinkEvent>): (hs: seq<Link>)
    ensures |hs| == |evs| + 1
    decreases |evs|
  {
    if evs == [] then [l] else History(l, evs[..|evs| - 1]) + [RunLink(l, evs)]
  }

  /** How often the connected flag goes from true to false along a history. */
  function Falls(hs: seq<Link>): nat
    decreases |hs|
  {
    if |hs| < 2 then 0
    else Falls(hs[..|hs| - 1]) + (if hs[|hs| - 2].connected && !hs[|hs| - 1].connected then 1 else 0)
  }

  /** The times of the start() calls that the spacing guard let through, in order. */
  function AcceptedStarts(l: Link, evs: seq<LinkEvent>): seq<nat>
    decreases |evs|
  {
    if evs == [] then []
    else
      var before := RunLink(l, evs[..|evs| - 1]);
      var e := evs[|evs| - 1];
      AcceptedStarts(l, evs[..|evs| - 1]) +
        (if e.StartCalled? && StartAccepted(before, e.now) then [e.now] else [])
  }

  /** Each time is at least the minimum spacing after the one before it, the first after `prev`. */
  ghost predicate Spaced(prev: nat, times: seq<nat>, gap: nat) {
    (0 < |times| ==> prev + gap <= times[0]) &&
    forall i :: 0 < i < |times| ==> times[i - 1] + gap <= times[i]
  }

  function LastOr(prev: nat, times: seq<nat>): nat {
    if times == [] then prev else times[|times| - 1]
  }

  /** The disconnect counter goes up exactly once for each time the connection
      goes from connected to not connected, over any sequence of events. */
  lemma {:induction false} DisconnectsCountFalls(l: Link, evs: seq<LinkEvent>)
    ensures RunLink(l, evs).disconnectCount == l.disconnectCount + Falls(History(l, evs))
    decreases |evs|
  {
    if evs != [] {
      var front := evs[..|evs| - 1];
      DisconnectsCountFalls(l, front);
      var hs := History(l, evs);
      assert hs[..|hs| - 1] == History(l, front);
      if |front| == 0 {
        assert History(l, front) == [l];
      } else {
        assert History(l, front)[|front|] == RunLink(l, front);
      }
      assert hs[|hs| - 2] == RunLink(l, front);
    }
  }

  /** Accepted start() calls are always at least 200 ms apart, and the first is
      200 ms after the recorded start time, whatever order the clock readings
      come in; lastStartTime is the time of the last accepted call. */
  lemma {:induction false} StartsAreSpaced(l: Link, evs: seq<LinkEvent>)
    ensures Spaced(l.lastStartTime, AcceptedStarts(l, evs), MinStartSpacingMs)
    ensures RunLink(l, evs).lastStartTime == LastOr(l.lastStartTime, AcceptedStarts(l, evs))
    decreases |evs|
  {
    if evs != [] {
      var front := evs[..|evs| - 1];
      StartsAreSpaced(l, front);
      var a := AcceptedStarts(l, front);
      var e := evs[|evs| - 1];
      var before := RunLink(l, front);
      if e.StartCalled? && StartAccepted(before, e.now) {
        var a' := a + [e.now];
        assert AcceptedStarts(l, evs) == a';
        forall i | 0 < i < |a'| ensures a'[i - 1] + MinStartSpacingMs <= a'[i] {
          if i < |a| {
            assert a'[i] == a[i] && a'[i - 1] == a[i - 1];
          } else {
            assert a'[i - 1] == a[|a| - 1];
          }
        }
      } else {
        assert AcceptedStarts(l, evs) == a;
      }
    }
  }
}
