/** The controller's relay connection (src/App.jsx:19-50): the status shown
    to the user, the current WebSocket, the pending auto-reconnect and the
    guarded `sendWs`.

    Time is abstract: the 1500 ms reconnect delay is the flag
    `reconnectPending`, and its expiry is the event `TimerFires`. Each
    socket the controller creates gets the next serial number, so "a fresh
    socket" is one with a larger serial than any before. What reaches the
    wire is recorded in `outbox`, as the envelopes before stringification.

    `View`, `Step` and `Run` are the specification; the class `Session`
    below is the controller's mutable state, and each of its methods is
    proved to perform exactly one `Step` on its `Snapshot()`. */
module Connection {
  import opened Wrappers
  import opened Socket
  import Messages
  import Js

  /** `socketStatus`, which starts as `'closed'`. */
  datatype Status = Closed | Connecting | Open | Error

  /** The socket in `wsRef.current`: its serial number and its ready-state. */
  datatype Sock = Sock(serial: nat, state: ReadyState)

  datatype View = View(
    status: Status,
    socket: Option<Sock>,
    reconnectPending: bool,
    outbox: seq<Messages.Envelope>,
    created: nat)  // how many sockets have been created so far

  /** Before the effect runs: no socket, no timer, nothing sent. */
  const Initial := View(Closed, None, false, [], 0)

  datatype Event =
    | Connect                             // `connect()` on mount (and on a remount)
    | OnOpen                              // the socket's open event
    | OnClose                             // the socket's close event
    | OnError                             // the socket's error event
    | TimerFires                          // the reconnect delay has elapsed
    | Teardown                            // the effect's cleanup function
    | Send(payload: Messages.Envelope)    // `sendWs(payload)`

  /** When each event can happen. `connect()` is called directly only on
      mount (and on a remount), while no socket is live and no reconnect is
      pending; the timer's call to it is the event `TimerFires`. The browser delivers `open` to a CONNECTING
      socket, and `error` and `close` to a socket that has not yet closed.
      The timer can only fire while it is pending. Teardown and `sendWs` can
      be called at any time. */
  predicate Enabled(v: View, e: Event)
    ensures Enabled(v, e) && e == Connect ==> !CanTransmit(v) && !v.reconnectPending
  {
    match e
    case Connect => !v.reconnectPending && (v.socket.None? || v.socket.value.state == CLOSED)
    case OnOpen => v.socket.Some? && v.socket.value.state == CONNECTING
    case OnClose | OnError => v.socket.Some? && v.socket.value.state != CLOSED
    case TimerFires => v.reconnectPending
    case Teardown | Send(_) => true
  }

  /** `sendWs` transmits only on a socket that exists and is OPEN. */
  predicate CanTransmit(v: View) {
    v.socket.Some? && v.socket.value.state == OPEN
  }

  /** `connect()`: status `connecting` and a new socket in `wsRef.current`. */
  function Connected(v: View): View {
    v.(status := Connecting, socket := Some(Sock(v.created, CONNECTING)), created := v.created + 1)
  }

  /** The effect of one event. */
  function Step(v: View, e: Event): (w: View)
    requires Enabled(v, e)
    ensures e.Send? || w.outbox == v.outbox
    ensures e.Send? ==> w.outbox == v.outbox || w.outbox == v.outbox + [e.payload]
    ensures (e == Connect || e == TimerFires) <==> w.created == v.created + 1
    ensures !(e == Connect || e == TimerFires) ==> w.created == v.created
    ensures w.reconnectPending && !v.reconnectPending ==> e == OnClose
  {
    match e
    case Connect => Connected(v)
    case OnOpen => v.(status := Open, socket := Some(v.socket.value.(state := OPEN)))
    case OnClose =>
      v.(status := Closed, socket := Some(v.socket.value.(state := CLOSED)), reconnectPending := true)
    case OnError => v.(status := Error)
    case TimerFires => Connected(v.(reconnectPending := false))
    case Teardown =>
      var closing :=
        if v.socket.Some? && (v.socket.value.state == CONNECTING || v.socket.value.state == OPEN)
        then Some(v.socket.value.(state := CLOSING))
        else v.socket;
      v.(reconnectPending := false, socket := closing)
    case Send(p) => if CanTransmit(v) then v.(outbox := v.outbox + [p]) else v
  }

  /** A run of events, each enabled where it happens. */
  predicate Feasible(v: View, evs: seq<Event>)
    decreases |evs|
  {
    evs == [] || (Enabled(v, evs[0]) && Feasible(Step(v, evs[0]), evs[1..]))
  }

  function Run(v: View, evs: seq<Event>): View
    requires Feasible(v, evs)
    decreases |evs|
  {
    if evs == [] then v else Run(Step(v, evs[0]), evs[1..])
  }

  /** What holds in every reachable state: a pending reconnect only ever
      waits behind a socket that has closed (so a close event never finds a
      reconnect already pending and at most one is ever scheduled); the
      current socket is the newest one; the status `open` is shown only while
      the socket is open or being torn down, `connecting` only while it is
      connecting or being torn down, and `closed` only when there is no live
      socket. */
  ghost predicate Inv(v: View) {
    && (v.reconnectPending ==> v.socket.Some? && v.socket.value.state == CLOSED)
    && (v.socket.Some? ==> v.socket.value.serial + 1 == v.created)
    && (v.status == Open ==> v.socket.Some? && v.socket.value.state in {OPEN, CLOSING})
    && (v.status == Connecting ==> v.socket.Some? && v.socket.value.state in {CONNECTING, CLOSING})
    && (v.status == Closed ==> v.socket.None? || v.socket.value.state == CLOSED)
  }

  lemma InitialInv()
    ensures Inv(Initial) && Enabled(Initial, Connect)
  {
  }

  /** Every event keeps the invariant. */
  lemma StepInv(v: View, e: Event)
    requires Inv(v) && Enabled(v, e)
    ensures Inv(Step(v, e))
  {
  }

  /** The invariant holds after any feasible run. */
  lemma {:induction false} RunInv(v: View, evs: seq<Event>)
    requires Inv(v) && Feasible(v, evs)
    ensures Inv(Run(v, evs))
    decreases |evs|
  {
    if evs != [] {
      StepInv(v, evs[0]);
      RunInv(Step(v, evs[0]), evs[1..]);
    }
  }

  /** `connect()` shows `connecting` and installs a socket newer than every
      earlier one, still CONNECTING. */
  lemma ConnectInstallsFreshSocket(v: View)
    requires Inv(v) && Enabled(v, Connect)
    ensures var w := Step(v, Connect);
            && w.status == Connecting
            && w.socket == Some(Sock(v.created, CONNECTING))
            && (v.socket.Some? ==> v.socket.value.serial < w.socket.value.serial)
            && w.outbox == v.outbox && !w.reconnectPending
  {
  }

  /** The open event shows `open` and makes the same socket OPEN, so that
      `sendWs` transmits from then on. */
  lemma OpenShowsOpen(v: View)
    requires Inv(v) && Enabled(v, OnOpen)
    ensures Step(v, OnOpen).status == Open
    ensures CanTransmit(Step(v, OnOpen))
    ensures Step(v, OnOpen).socket.value.serial == v.socket.value.serial
    ensures Step(v, OnOpen).reconnectPending == v.reconnectPending
    ensures Step(v, OnOpen).outbox == v.outbox
  {
  }

  /** The close event shows `closed` and schedules exactly one reconnect:
      none was pending before it. */
  lemma CloseSchedulesOneReconnect(v: View)
    requires Inv(v) && Enabled(v, OnClose)
    ensures !v.reconnectPending
    ensures Step(v, OnClose).status == Closed && Step(v, OnClose).reconnectPending
  {
  }

  /** Only the close event schedules a reconnect; in particular an error
      event shows `error` and schedules nothing. */
  lemma OnlyCloseSchedules(v: View, e: Event)
    requires Enabled(v, e) && !v.reconnectPending && Step(v, e).reconnectPending
    ensures e == OnClose
  {
  }

  lemma ErrorSchedulesNothing(v: View)
    requires Enabled(v, OnError)
    ensures Step(v, OnError).status == Error
    ensures Step(v, OnError).reconnectPending == v.reconnectPending
    ensures Step(v, OnError).socket == v.socket
  {
  }

  /** `sendWs` transmits exactly when the socket exists and is OPEN (whatever
      the status shows); otherwise nothing at all changes, so the payload is
      neither queued nor remembered. */
  lemma SendOnlyWhenOpen(v: View, p: Messages.Envelope)
    ensures CanTransmit(v) ==> Step(v, Send(p)).outbox == v.outbox + [p]
    ensures !CanTransmit(v) ==> Step(v, Send(p)) == v
  {
  }

  /** A dropped send leaves no trace: whatever happens afterwards happens as
      if it had never been called. */
  lemma DroppedSendForgotten(v: View, p: Messages.Envelope, evs: seq<Event>)
    requires !CanTransmit(v) && Feasible(v, evs)
    ensures Feasible(v, [Send(p)] + evs)
    ensures Run(v, [Send(p)] + evs) == Run(v, evs)
  {
  }

  /** Only `sendWs` puts anything on the wire: after any run, the earlier
      outbox is kept as a prefix, everything after it was the payload of a
      `Send` in the run, and a run without `Send` (for instance a socket that
      opens later) transmits nothing. */
  lemma {:induction false} OutboxOnlyFromSends(v: View, evs: seq<Event>)
    requires Feasible(v, evs)
    ensures |v.outbox| <= |Run(v, evs).outbox|
    ensures Run(v, evs).outbox[..|v.outbox|] == v.outbox
    ensures forall k :: |v.outbox| <= k < |Run(v, evs).outbox| ==> Send(Run(v, evs).outbox[k]) in evs
    ensures (forall p :: Send(p) !in evs) ==> Run(v, evs).outbox == v.outbox
    decreases |evs|
  {
    if evs != [] {
      var w := Step(v, evs[0]);
      OutboxOnlyFromSends(w, evs[1..]);
      var out := Run(v, evs).outbox;
      assert Run(v, evs) == Run(w, evs[1..]);
      assert w.outbox[..|v.outbox|] == v.outbox;
      assert out[..|v.outbox|] == v.outbox by {
        assert out[..|w.outbox|][..|v.outbox|] == out[..|v.outbox|];
      }
      forall k | |v.outbox| <= k < |out|
        ensures Send(out[k]) in evs
      {
        if k < |w.outbox| {
          assert w.outbox == v.outbox + [w.outbox[k]];
          assert evs[0] == Send(w.outbox[k]);
        } else {
          assert Send(out[k]) in evs[1..];
        }
      }
    }
  }

  /** Reconnect liveness: a socket that closes is followed, once the delay
      elapses, by a fresh socket in `connecting`, and when that one opens the
      status is `open` again, with no intervention. */
  lemma ReconnectCycle(v: View)
    requires Inv(v) && v.socket.Some? && v.socket.value.state == OPEN
    ensures Feasible(v, [OnClose, TimerFires, OnOpen])
    ensures Run(v, [OnClose, TimerFires]).status == Connecting
    ensures Run(v, [OnClose, TimerFires]).socket == Some(Sock(v.created, CONNECTING))
    ensures Run(v, [OnClose, TimerFires, OnOpen]).status == Open
    ensures !Run(v, [OnClose, TimerFires, OnOpen]).reconnectPending
    ensures CanTransmit(Run(v, [OnClose, TimerFires, OnOpen]))
  {
  }

  /** Teardown cancels the reconnect that is pending at that moment and closes
      the current socket, and it is idempotent. */
  lemma TeardownCancelsAndCloses(v: View)
    ensures !Step(v, Teardown).reconnectPending
    ensures Step(v, Teardown).socket.Some? ==> Step(v, Teardown).socket.value.state !in {CONNECTING, OPEN}
    ensures Step(v, Teardown).status == v.status && Step(v, Teardown).outbox == v.outbox
    ensures Step(v, Teardown).created == v.created
    ensures Step(v, Teardown).socket.Some? == v.socket.Some?
    ensures v.socket.Some? ==> Step(v, Teardown).socket.value.serial == v.socket.value.serial
    ensures v.socket.Some? && v.socket.value.state in {CONNECTING, OPEN} ==> Step(v, Teardown).socket.value.state == CLOSING
    ensures v.socket.Some? && v.socket.value.state in {CLOSING, CLOSED} ==> Step(v, Teardown).socket == v.socket
    ensures Step(Step(v, Teardown), Teardown) == Step(v, Teardown)
  {
  }

  /** Teardown does not stop reconnection for good: the close handler stays
      attached, so when the socket it closed (whether it was still connecting
      or already open) reports its close event a new reconnect is scheduled,
      and when that fires a fresh socket is created. */
  lemma TeardownDoesNotStopReconnect(v: View)
    requires Inv(v) && v.socket.Some? && v.socket.value.state in {CONNECTING, OPEN}
    ensures Feasible(v, [Teardown, OnClose, TimerFires])
    ensures Run(v, [Teardown, OnClose]).reconnectPending
    ensures Run(v, [Teardown, OnClose, TimerFires]).status == Connecting
    ensures Run(v, [Teardown, OnClose, TimerFires]).socket == Some(Sock(v.created, CONNECTING))
  {
  }

  /** A `play` sent before the first socket opens is dropped and not
      flushed when it opens; one sent after it opens goes out. */
  lemma NoFlushOnOpen()
    ensures Feasible(Initial, [Connect, Send(Messages.Play), OnOpen])
    ensures Run(Initial, [Connect, Send(Messages.Play), OnOpen]).outbox == []
    ensures Feasible(Initial, [Connect, OnOpen, Send(Messages.Play)])
    ensures Run(Initial, [Connect, OnOpen, Send(Messages.Play)]).outbox == [Messages.Play]
  {
  }

  /** The controller's state as `App` holds it: `socketStatus`,
      `wsRef.current`, `reconnectTimer.current` (as the pending flag), the
      transmitted envelopes, and the `playing` flag. */
  class Session {
    var status: Status
    var socket: Option<Sock>
    var reconnectPending: bool
    var outbox: seq<Messages.Envelope>
    var created: nat
    var playing: bool

    function Snapshot(): View
      reads this
    {
      View(status, socket, reconnectPending, outbox, created)
    }

    ghost predicate Valid()
      reads this
    {
      Inv(Snapshot())
    }

    constructor ()
      ensures Valid() && Snapshot() == Initial && !playing
    {
      status, socket, reconnectPending, outbox, created := Closed, None, false, [], 0;
      playing := false;
    }

    method Connect()
      requires Valid() && Enabled(Snapshot(), Event.Connect)
      modifies this
      ensures Valid() && Snapshot() == Step(old(Snapshot()), Event.Connect) && playing == old(playing)
    {
      status := Connecting;
      socket := Some(Sock(created, CONNECTING));
      created := created + 1;
      StepInv(old(Snapshot()), Event.Connect);
    }

    method OnOpen()
      requires Valid() && Enabled(Snapshot(), Event.OnOpen)
      modifies this
      ensures Valid() && Snapshot() == Step(old(Snapshot()), Event.OnOpen) && playing == old(playing)
    {
      status := Open;
      socket := Some(socket.value.(state := OPEN));
      StepInv(old(Snapshot()), Event.OnOpen);
    }

    method OnClose()
      requires Valid() && Enabled(Snapshot(), Event.OnClose)
      modifies this
      ensures Valid() && Snapshot() == Step(old(Snapshot()), Event.OnClose) && playing == old(playing)
    {
      status := Closed;
      socket := Some(socket.value.(state := CLOSED));
      reconnectPending := true;
      StepInv(old(Snapshot()), Event.OnClose);
    }

    method OnError()
      requires Valid() && Enabled(Snapshot(), Event.OnError)
      modifies this
      ensures Valid() && Snapshot() == Step(old(Snapshot()), Event.OnError) && playing == old(playing)
    {
      status := Error;
      StepInv(old(Snapshot()), Event.OnError);
    }

    method TimerFires()
      requires Valid() && Enabled(Snapshot(), Event.TimerFires)
      modifies this
      ensures Valid() && Snapshot() == Step(old(Snapshot()), Event.TimerFires) && playing == old(playing)
    {
      reconnectPending := false;
      Connect();
    }

    method Teardown()
      requires Valid()
      modifies this
      ensures Valid() && Snapshot() == Step(old(Snapshot()), Event.Teardown) && playing == old(playing)
    {
      reconnectPending := false;
      if socket.Some? && (socket.value.state == CONNECTING || socket.value.state == OPEN) {
        socket := Some(socket.value.(state := CLOSING));
      }
      StepInv(old(Snapshot()), Event.Teardown);
    }

    /** `sendWs(payload)`. */
    method Send(payload: Messages.Envelope)
      requires Valid()
      modifies this`outbox
      ensures Valid() && Snapshot() == Step(old(Snapshot()), Event.Send(payload))
      ensures outbox == if CanTransmit(old(Snapshot())) then old(outbox) + [payload] else old(outbox)
    {
      if socket.Some? && socket.value.state == OPEN {
        outbox := outbox + [payload];
      }
    }

    /** Sends `msg` when there is one: the handlers' shared tail. */
    method SendIfAny(msg: Option<Messages.Envelope>)
      requires Valid()
      modifies this`outbox
      ensures Valid()
      ensures Snapshot() == if msg.Some? then Step(old(Snapshot()), Event.Send(msg.value)) else old(Snapshot())
    {
      if msg.Some? {
        Send(msg.value);
      }
    }

    /** The player's `onStateChange` handler. */
    method OnPlayerStateChange(state: int)
      requires Valid()
      modifies this`playing, this`outbox
      ensures Valid()
      ensures playing == Messages.OnStateChange(state, old(playing)).playing
      ensures var m := Messages.OnStateChange(state, old(playing)).send;
              Snapshot() == if m.Some? then Step(old(Snapshot()), Event.Send(m.value)) else old(Snapshot())
    {
      var r := Messages.OnStateChange(state, playing);
      playing := r.playing;
      SendIfAny(r.send);
    }

    /** `loadVideo(videoId)`; `playerReady` is whether `playerRef.current` is set. */
    method LoadVideo(videoId: Js.Value, playerReady: bool)
      requires Valid()
      modifies this`outbox
      ensures Valid()
      ensures var m := Messages.LoadMessage(playerReady, videoId);
              Snapshot() == if m.Some? then Step(old(Snapshot()), Event.Send(m.value)) else old(Snapshot())
    {
      SendIfAny(Messages.LoadMessage(playerReady, videoId));
    }

    /** `handleSeek(val)`. */
    method HandleSeek(val: real, playerReady: bool)
      requires Valid()
      modifies this`outbox
      ensures Valid()
      ensures var m := Messages.SeekMessage(playerReady, val);
              Snapshot() == if m.Some? then Step(old(Snapshot()), Event.Send(m.value)) else old(Snapshot())
    {
      SendIfAny(Messages.SeekMessage(playerReady, val));
    }

    /** `handleRateChange(val)`. */
    method HandleRateChange(val: real, playerReady: bool)
      requires Valid()
      modifies this`outbox
      ensures Valid()
      ensures var m := Messages.RateMessage(playerReady, val);
              Snapshot() == if m.Some? then Step(old(Snapshot()), Event.Send(m.value)) else old(Snapshot())
    {
      SendIfAny(Messages.RateMessage(playerReady, val));
    }

    /** `trigger(index)`. */
    method Trigger(index: int)
      requires Valid()
      modifies this`outbox
      ensures Valid()
      ensures Snapshot() == Step(old(Snapshot()), Event.Send(Messages.TriggerMessage(index)))
    {
      Send(Messages.TriggerMessage(index));
    }
  }
}
