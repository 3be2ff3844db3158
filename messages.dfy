/** The envelopes the deck controller (src/App.jsx) sends to the relay, the
    object literal each handler passes to `sendWs`, and the player-state
    handler that decides between `play` and `pause`.

    A slider value arrives as `parseFloat(val)` and is carried here as a
    `real`; a `load` carries whatever identifier the result list handed it. */
module Messages {
  import opened Wrappers
  import opened Js

  datatype Envelope =
    | Load(id: Value)
    | Play
    | Pause
    | Seek(position: real)
    | Rate(multiplier: real)
    | Trigger(slot: int)

  /** The `type` field of each envelope. */
  function Tag(e: Envelope): string {
    match e
    case Load(_) => "load"
    case Play => "play"
    case Pause => "pause"
    case Seek(_) => "seek"
    case Rate(_) => "rate"
    case Trigger(_) => "trigger"
  }

  /** The object literal that is stringified and sent: `{type:'load', id}`,
      `{type:'play'}`, `{type:'pause'}`, `{type:'seek', val}`,
      `{type:'rate', val}` and `{type:'trigger', val}`. */
  function ToJson(e: Envelope): (r: Value)
    ensures r.Obj? && "type" in r.fields && r.fields["type"] == Str(Tag(e))
    ensures e == Play ==> r == Obj(map["type" := Str("play")])
    ensures e == Pause ==> r == Obj(map["type" := Str("pause")])
    ensures r.fields.Keys == if e.Play? || e.Pause? then {"type"}
                             else if e.Load? then {"type", "id"}
                             else {"type", "val"}
  {
    match e
    case Load(id) => Obj(map["type" := Str("load"), "id" := id])
    case Play => Obj(map["type" := Str("play")])
    case Pause => Obj(map["type" := Str("pause")])
    case Seek(p) => Obj(map["type" := Str("seek"), "val" := Num(p)])
    case Rate(m) => Obj(map["type" := Str("rate"), "val" := Num(m)])
    case Trigger(n) => Obj(map["type" := Str("trigger"), "val" := Num(n as real)])
  }

  /** A receiver's reading of an envelope object: the `type` tag selects the
      kind and the kind's field must be present (a number for `val`, a whole
      number for a trigger slot). Anything else is not an envelope. */
  function FromJson(v: Value): Option<Envelope> {
    if !v.Obj? || "type" !in v.fields then None
    else
      var f := v.fields;
      var t := f["type"];
      if t == Str("play") then Some(Play)
      else if t == Str("pause") then Some(Pause)
      else if t == Str("load") then (if "id" in f then Some(Load(f["id"])) else None)
      else if "val" !in f || !f["val"].Num? then None
      else if t == Str("seek") then Some(Seek(f["val"].n))
      else if t == Str("rate") then Some(Rate(f["val"].n))
      else if t == Str("trigger") && f["val"].n == f["val"].n.Floor as real then Some(Trigger(f["val"].n.Floor))
      else None
  }

  /** Every envelope the controller builds reads back as itself. */
  lemma RoundTrip(e: Envelope)
    ensures FromJson(ToJson(e)) == Some(e)
  {
  }

  /** Distinct envelopes go out as distinct objects. */
  lemma ToJsonInjective(a: Envelope, b: Envelope)
    ensures ToJson(a) == ToJson(b) ==> a == b
  {
    RoundTrip(a);
    RoundTrip(b);
  }

  /** `loadVideo(videoId)`: nothing when there is no player yet, otherwise
      `{type:'load', id: videoId}`; the start offset is not sent. */
  function LoadMessage(playerReady: bool, videoId: Value): (r: Option<Envelope>)
    ensures r.Some? <==> playerReady
    ensures r.Some? ==> ToJson(r.value) == Obj(map["type" := Str("load"), "id" := videoId])
  {
    if playerReady then Some(Load(videoId)) else None
  }

  /** `handleSeek(val)`: nothing without a player, otherwise `{type:'seek', val}`. */
  function SeekMessage(playerReady: bool, val: real): (r: Option<Envelope>)
    ensures r.Some? <==> playerReady
    ensures r.Some? ==> ToJson(r.value) == Obj(map["type" := Str("seek"), "val" := Num(val)])
  {
    if playerReady then Some(Seek(val)) else None
  }

  /** `handleRateChange(val)`: nothing without a player, otherwise `{type:'rate', val}`. */
  function RateMessage(playerReady: bool, val: real): (r: Option<Envelope>)
    ensures r.Some? <==> playerReady
    ensures r.Some? ==> ToJson(r.value) == Obj(map["type" := Str("rate"), "val" := Num(val)])
  {
    if playerReady then Some(Rate(val)) else None
  }

  /** `trigger(index)`: always `{type:'trigger', val: index}`, player or not. */
  function TriggerMessage(index: int): (r: Envelope)
    ensures ToJson(r) == Obj(map["type" := Str("trigger"), "val" := Num(index as real)])
    ensures FromJson(ToJson(r)) == Some(r)
  {
    RoundTrip(Trigger(index));
    Trigger(index)
  }

  /** The outcome of one `onStateChange` event: the new `playing` flag and
      the envelope sent, if any. */
  datatype Reaction = Reaction(playing: bool, send: Option<Envelope>)

  /** `onStateChange`: player state 1 (PLAYING) and 2 (PAUSED) set the flag
      and announce it; every other state changes nothing and sends nothing. */
  function OnStateChange(state: int, playing: bool): (r: Reaction)
    ensures r.send.Some? <==> state == 1 || state == 2
    ensures state == 1 ==> r.playing
    ensures state == 2 ==> !r.playing
    ensures r.send.None? ==> r.playing == playing
    ensures r.send.Some? ==> r.send.value == (if r.playing then Play else Pause)
  {
    if state == 1 then Reaction(true, Some(Play))
    else if state == 2 then Reaction(false, Some(Pause))
    else Reaction(playing, None)
  }

  /** A run of player-state events from an initial flag: the final flag and
      the envelopes sent, in order. */
  function Replay(states: seq<int>, playing: bool): (bool, seq<Envelope>) {
    if states == [] then (playing, [])
    else
      var r := OnStateChange(states[0], playing);
      var rest := Replay(states[1..], r.playing);
      (rest.0, (if r.send.Some? then [r.send.value] else []) + rest.1)
  }

  /** After any run of player-state events, the controller's `playing` flag
      agrees with the last envelope it announced (`play` exactly when it is
      playing), every announcement is a `play` or a `pause`, and with no
      announcement the flag is as it started. */
  lemma {:induction false} PlayingAgreesWithLastSent(states: seq<int>, playing: bool)
    ensures var (p, sent) := Replay(states, playing);
            && (forall k :: 0 <= k < |sent| ==> sent[k] == Play || sent[k] == Pause)
            && (sent == [] ==> p == playing)
            && (sent != [] ==> (p <==> sent[|sent| - 1] == Play))
    decreases |states|
  {
    if states != [] {
      var r := OnStateChange(states[0], playing);
      PlayingAgreesWithLastSent(states[1..], r.playing);
      var rest := Replay(states[1..], r.playing);
      var head := if r.send.Some? then [r.send.value] else [];
      assert Replay(states, playing) == (rest.0, head + rest.1);
      if rest.1 != [] {
        assert (head + rest.1)[|head + rest.1| - 1] == rest.1[|rest.1| - 1];
      }
    }
  }
}
