/** The fingerprint HAL's notification path: decoding a HAL message into the
    immutable four-int record a `CallbackHandler` carries, queueing it on the
    service's looper, and delivering it to the listener's `notify(int, int, int, int)`.
    The looper is modelled sequentially as a FIFO of records. */
module FingerprintNotify {
  import opened Wrappers
  import opened Ints

  /** Message type codes of the HAL (`fingerprint_msg_type_t`). */
  const FINGERPRINT_ERROR: int32 := -1
  const FINGERPRINT_ACQUIRED: int32 := 1
  const FINGERPRINT_PROCESSED: int32 := 2
  const FINGERPRINT_TEMPLATE_ENROLLING: int32 := 3
  const FINGERPRINT_TEMPLATE_REMOVED: int32 := 4

  predicate IsKnownType(t: int32) {
    t == FINGERPRINT_ERROR || t == FINGERPRINT_ACQUIRED || t == FINGERPRINT_PROCESSED
    || t == FINGERPRINT_TEMPLATE_ENROLLING || t == FINGERPRINT_TEMPLATE_REMOVED
  }

  /** A fingerprint template: group id and finger id. */
  datatype FingerId = FingerId(gid: uint32, fid: uint32)

  /** A HAL message: its type tag selects the meaningful member of the payload
      union. The error and acquisition codes are C enums (`int`); finger ids and
      the remaining-sample counter are `uint32_t`. */
  datatype HalMsg =
    | Error(error: int32)
    | Acquired(acquiredInfo: int32)
    | Processed(finger: FingerId)
    | TemplateEnrolling(finger: FingerId, samplesRemaining: uint32)
    | TemplateRemoved(finger: FingerId)
    | Unrecognised(code: int32)
  {
    /** The message's `type` field. */
    function MsgType(): int32 {
      match this
      case Error(_) => FINGERPRINT_ERROR
      case Acquired(_) => FINGERPRINT_ACQUIRED
      case Processed(_) => FINGERPRINT_PROCESSED
      case TemplateEnrolling(_, _) => FINGERPRINT_TEMPLATE_ENROLLING
      case TemplateRemoved(_) => FINGERPRINT_TEMPLATE_REMOVED
      case Unrecognised(c) => c
    }

    /** `Unrecognised` stands only for type codes outside the five handled ones. */
    predicate Valid() {
      Unrecognised? ==> !IsKnownType(code)
    }
  }

  /** A message the HAL can send: `Unrecognised` carries only the type codes
      the callback's `switch` has no case for. */
  type Msg = m: HalMsg | m.Valid() witness Error(0)

  /** The record a `CallbackHandler` holds: type and three C `int` arguments. */
  datatype Event = Event(msgType: int32, arg1: int32, arg2: int32, arg3: int32)

  /** What the callback does with a message: drop it, or post one record. */
  datatype Decoded = Drop | Post(event: Event)

  /** The three `uint32_t` locals after the `switch` of `hal_notify_callback`. */
  function Payload(m: HalMsg): (uint32, uint32, uint32)
    requires !m.Unrecognised?
  {
    match m
    case Error(e) => (ToUint32(e), 0, 0)
    case Acquired(a) => (ToUint32(a), 0, 0)
    case Processed(f) => (f.fid, f.gid, 0)
    case TemplateEnrolling(f, s) => (f.fid, f.gid, s)
    case TemplateRemoved(f) => (f.fid, f.gid, 0)
  }

  /** The decoding step of `hal_notify_callback`. The `uint32_t` locals are
      handed to the record's `int` fields, a two's-complement reinterpretation. */
  function Decode(m: Msg): (d: Decoded)
    ensures d.Drop? <==> m.Unrecognised?
    ensures d.Drop? <==> !IsKnownType(m.MsgType())
    ensures d.Post? ==> d.event.msgType == m.MsgType()
    ensures m.Error? ==> d == Post(Event(FINGERPRINT_ERROR, m.error, 0, 0))
    ensures m.Acquired? ==> d == Post(Event(FINGERPRINT_ACQUIRED, m.acquiredInfo, 0, 0))
    ensures m.Processed? ==>
      d == Post(Event(FINGERPRINT_PROCESSED, ToInt32(m.finger.fid), ToInt32(m.finger.gid), 0))
    ensures m.TemplateEnrolling? ==>
      d == Post(Event(FINGERPRINT_TEMPLATE_ENROLLING, ToInt32(m.finger.fid), ToInt32(m.finger.gid),
                      ToInt32(m.samplesRemaining)))
    ensures m.TemplateRemoved? ==>
      d == Post(Event(FINGERPRINT_TEMPLATE_REMOVED, ToInt32(m.finger.fid), ToInt32(m.finger.gid), 0))
  {
    if m.Unrecognised? then Drop
    else
      var (arg1, arg2, arg3) := Payload(m);
      Post(Event(m.MsgType(), ToInt32(arg1), ToInt32(arg2), ToInt32(arg3)))
  }

  /** The record a recognised message would produce: known type, and the
      arguments its kind does not use are zero. */
  predicate WellShaped(e: Event) {
    && IsKnownType(e.msgType)
    && (e.msgType != FINGERPRINT_TEMPLATE_ENROLLING ==> e.arg3 == 0)
    && (e.msgType == FINGERPRINT_ERROR || e.msgType == FINGERPRINT_ACQUIRED ==> e.arg2 == 0)
  }

  /** What a listener can reconstruct from a record: the message it came from. */
  function Recover(e: Event): (m: Option<Msg>)
    ensures m.Some? ==> Decode(m.value) == Post(e)
    ensures m.None? <==> !WellShaped(e)
  {
    if !WellShaped(e) then None
    else if e.msgType == FINGERPRINT_ERROR then
      Int32ThroughUint32(e.arg1);
      Some(Error(e.arg1))
    else if e.msgType == FINGERPRINT_ACQUIRED then
      Int32ThroughUint32(e.arg1);
      Some(Acquired(e.arg1))
    else
      var finger := FingerId(ToUint32(e.arg2), ToUint32(e.arg1));
      Int32ThroughUint32(e.arg1);
      Int32ThroughUint32(e.arg2);
      if e.msgType == FINGERPRINT_PROCESSED then Some(Processed(finger))
      else if e.msgType == FINGERPRINT_TEMPLATE_ENROLLING then
        Int32ThroughUint32(e.arg3);
        Some(TemplateEnrolling(finger, ToUint32(e.arg3)))
      else Some(TemplateRemoved(finger))
  }

  /** Decoding loses nothing: every recognised message is recovered from its record. */
  lemma RecoverDecode(m: Msg)
    requires !m.Unrecognised?
    ensures Decode(m).Post? && Recover(Decode(m).event) == Some(m)
  {
  }

  /** Distinct recognised messages give distinct records. */
  lemma DecodeInjective(m1: Msg, m2: Msg)
    requires !m1.Unrecognised? && !m2.Unrecognised?
    requires Decode(m1) == Decode(m2)
    ensures m1 == m2
  {
  }

  // ---------------------------------------------------------------------------
  // The relay: the looper's message queue and its dispatch to the listener.

  /** Records waiting on the looper, oldest first. */
  type Queue = seq<Event>

  /** One invocation of the listener's `notify(type, arg1, arg2, arg3)`. */
  datatype ListenerCall = Notify(msgType: int32, arg1: int32, arg2: int32, arg3: int32)

  /** `CallbackHandler.handleMessage`: the record's four fields, unchanged. */
  function HandleMessage(e: Event): ListenerCall {
    Notify(e.msgType, e.arg1, e.arg2, e.arg3)
  }

  /** `hal_notify_callback` as a whole: decode, and post at most one record. */
  function HalNotifyCallback(q: Queue, m: Msg): (q': Queue)
    ensures m.Unrecognised? ==> q' == q
    ensures !m.Unrecognised? ==> |q'| == |q| + 1 && q'[..|q|] == q && Decode(m) == Post(q'[|q|])
  {
    match Decode(m)
    case Drop => q
    case Post(e) => q + [e]
  }

  /** One turn of the looper: take the oldest record and hand it to the listener. */
  function Dispatch(q: Queue): (r: Option<(ListenerCall, Queue)>)
    ensures r.None? <==> q == []
    ensures r.Some? ==> q == [q[0]] + r.value.1
    ensures r.Some? ==>
      && r.value.0.msgType == q[0].msgType
      && r.value.0.arg1 == q[0].arg1 && r.value.0.arg2 == q[0].arg2 && r.value.0.arg3 == q[0].arg3
  {
    if q == [] then None else Some((HandleMessage(q[0]), q[1..]))
  }

  /** The calls that delivering every queued record, oldest first, makes. */
  function Calls(q: Queue): (cs: seq<ListenerCall>)
    ensures |cs| == |q|
    ensures forall i :: 0 <= i < |q| ==> cs[i] == HandleMessage(q[i])
  {
    if q == [] then [] else [HandleMessage(q[0])] + Calls(q[1..])
  }

  /** What happens to the relay: a HAL callback on some foreign thread, or one
      turn of the service's looper. */
  datatype RelayAction = Callback(msg: Msg) | LooperTurn

  /** The relay: records still queued and listener calls already made. */
  datatype Relay = Relay(queue: Queue, delivered: seq<ListenerCall>)

  const InitialRelay: Relay := Relay([], [])

  function Step(s: Relay, a: RelayAction): Relay {
    match a
    case Callback(m) => s.(queue := HalNotifyCallback(s.queue, m))
    case LooperTurn =>
      match Dispatch(s.queue)
      case None => s
      case Some((call, rest)) => Relay(rest, s.delivered + [call])
  }

  function Run(s: Relay, trace: seq<RelayAction>): Relay
    decreases |trace|
  {
    if trace == [] then s else Run(Step(s, trace[0]), trace[1..])
  }

  /** The listener calls the recognised callbacks of a trace call for, in order. */
  function Expected(trace: seq<RelayAction>): seq<ListenerCall>
    decreases |trace|
  {
    if trace == [] then []
    else
      var now := match trace[0]
        case Callback(m) => (if m.Unrecognised? then [] else [HandleMessage(Decode(m).event)])
        case LooperTurn => [];
      now + Expected(trace[1..])
  }

  /** Delivered calls followed by the calls still queued: the relay's whole output. */
  function Output(s: Relay): seq<ListenerCall> {
    s.delivered + Calls(s.queue)
  }

  /** One step extends the relay's output by exactly what that step calls for. */
  lemma StepOutput(s: Relay, a: RelayAction)
    ensures Output(Step(s, a)) == Output(s) + Expected([a])
  {
  }

  /** Every recognised callback is delivered exactly once, in callback order,
      and nothing else is: the relay's output only ever grows by what the
      trace calls for, whatever the interleaving of callbacks and looper turns. */
  lemma {:induction false} RunOutput(s: Relay, trace: seq<RelayAction>)
    ensures Output(Run(s, trace)) == Output(s) + Expected(trace)
    decreases |trace|
  {
    if trace != [] {
      StepOutput(s, trace[0]);
      RunOutput(Step(s, trace[0]), trace[1..]);
      assert Expected(trace) == Expected([trace[0]]) + Expected(trace[1..]);
    }
  }

  /** The looper running until its queue is empty: every pending record is
      delivered, in queue order, after the calls already made. */
  method LooperDrain(s: Relay) returns (t: Relay)
    ensures t.queue == []
    ensures t.delivered == s.delivered + Calls(s.queue)
  {
    t := s;
    while t.queue != []
      invariant Output(t) == Output(s)
      decreases |t.queue|
    {
      StepOutput(t, LooperTurn);
      t := Step(t, LooperTurn);
    }
  }

  /** Delivered calls are always a prefix of the expected ones; once the queue
      is empty they are all of them. */
  lemma DeliveredIsPrefix(trace: seq<RelayAction>)
    ensures var s := Run(InitialRelay, trace);
            && s.delivered <= Expected(trace)
            && (s.queue == [] ==> s.delivered == Expected(trace))
  {
    var s := Run(InitialRelay, trace);
    RunOutput(InitialRelay, trace);
    assert Output(InitialRelay) == [];
    assert Expected(trace) == s.delivered + Calls(s.queue);
  }

  /** Unrecognised messages reach nobody: they leave the relay unchanged. */
  lemma UnrecognisedDropped(s: Relay, m: Msg)
    requires m.Unrecognised?
    ensures Step(s, Callback(m)) == s
  {
  }
}
