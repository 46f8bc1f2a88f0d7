/** The message layer under the command functions: a bounded first-in first-out queue of
    events beside a stream of responses.  The ring in EventRing.dfy refines it. */
module EventQueue {
  import opened Bytes
  import opened Mesh

  datatype Packet = Packet(header: seq<Byte>, payload: seq<Byte>)

  /** What one call of gecko_wait_message makes of the input, and the input after it. */
  datatype Heard = Heard(event: Option<Packet>, response: Option<Packet>, rest: seq<Byte>)

  /** The first byte is one a packet may start with. */
  predicate Synced(b: Byte) {
    b / 8 % 16 == 4
  }

  /** The input has all the bytes one call reads; reads are taken to succeed. */
  predicate HasMessage(s: seq<Byte>) {
    && |s| >= 1
    && (Synced(s[0]) ==>
          |s| >= 4 && (HeaderLength(s[0], s[1]) <= MAX_PAYLOAD ==> |s| >= 4 + HeaderLength(s[0], s[1])))
  }

  function Hear(s: seq<Byte>): (h: Heard)
    requires HasMessage(s)
    ensures |h.rest| < |s|
    ensures h.event.None? || h.response.None?
  {
    if !Synced(s[0]) then Heard(None, None, s[1..])
    else
      var n := HeaderLength(s[0], s[1]);
      if n > MAX_PAYLOAD then Heard(None, None, s[4..])
      else
        var p := Packet(s[..4], s[4..4 + n]);
        if s[0] / 128 == 1 then Heard(Some(p), None, s[4 + n..]) else Heard(None, Some(p), s[4 + n..])
  }

  /** Whole messages, and bytes to be skipped, to the end. */
  predicate Complete(s: seq<Byte>)
    decreases |s|
  {
    s == [] || (HasMessage(s) && Complete(Hear(s).rest))
  }

  /** A response comes before the input ends. */
  predicate HasResponse(s: seq<Byte>)
    decreases |s|
  {
    HasMessage(s) && (Hear(s).response.Some? || HasResponse(Hear(s).rest))
  }

  /** An event is dropped when length - 1 are queued. */
  function Enqueue(q: seq<Packet>, event: Option<Packet>, length: nat): seq<Packet> {
    if event.Some? && |q| + 1 < length then q + [event.value] else q
  }

  /** What gecko_get_event returns: the oldest event, a response that came unasked, or nothing. */
  datatype Got = Event(p: Packet) | Response(p: Packet) | Nothing

  datatype State = State(q: seq<Packet>, input: seq<Byte>)

  datatype After = After(got: Got, s: State)

  /** gecko_get_event without blocking. */
  function Get(s: State, length: nat): After
    requires Complete(s.input)
    decreases |s.input|
  {
    if s.q != [] then After(Event(s.q[0]), s.(q := s.q[1..]))
    else if s.input == [] then After(Nothing, s)
    else
      var h := Hear(s.input);
      if h.response.Some? then After(Response(h.response.value), s.(input := h.rest))
      else Get(State(Enqueue(s.q, h.event, length), h.rest), length)
  }

  /** gecko_wait_response: events that come before the response are queued. */
  function Await(s: State, length: nat): After
    requires HasResponse(s.input)
    decreases |s.input|
  {
    var h := Hear(s.input);
    if h.response.Some? then After(Response(h.response.value), s.(input := h.rest))
    else Await(State(Enqueue(s.q, h.event, length), h.rest), length)
  }

  /* Over whole runs */

  /** The application takes an event or sends a command and awaits its response; input
      comes in meanwhile. */
  datatype Op = Take | Command | Arrive(bytes: seq<Byte>)

  predicate CanDo(s: State, op: Op) {
    match op
    case Take => Complete(s.input)
    case Command => HasResponse(s.input)
    case Arrive(_) => true
  }

  function Do(s: State, op: Op, length: nat): After
    requires CanDo(s, op)
  {
    match op
    case Take => Get(s, length)
    case Command => Await(s, length)
    case Arrive(bytes) => After(Nothing, s.(input := s.input + bytes))
  }

  ghost predicate Runs(s: State, ops: seq<Op>, length: nat)
    decreases |ops|
  {
    ops == [] || (CanDo(s, ops[0]) && Runs(Do(s, ops[0], length).s, ops[1..], length))
  }

  ghost function End(s: State, ops: seq<Op>, length: nat): State
    requires Runs(s, ops, length)
    decreases |ops|
  {
    if ops == [] then s else End(Do(s, ops[0], length).s, ops[1..], length)
  }

  /** The events the application was given, in order. */
  ghost function Taken(s: State, ops: seq<Op>, length: nat): seq<Packet>
    requires Runs(s, ops, length)
    decreases |ops|
  {
    if ops == [] then []
    else
      var a := Do(s, ops[0], length);
      (if ops[0].Take? && a.got.Event? then [a.got.p] else []) + Taken(a.s, ops[1..], length)
  }

  /** The events heard by one call, those dropped for want of room marked. */
  datatype Seen = Seen(p: Packet, dropped: bool)

  function Sees(s: State, event: Option<Packet>, length: nat): seq<Seen> {
    if event.Some? then [Seen(event.value, |s.q| + 1 >= length)] else []
  }

  function SeenByGet(s: State, length: nat): seq<Seen>
    requires Complete(s.input)
    decreases |s.input|
  {
    if s.q != [] || s.input == [] then []
    else
      var h := Hear(s.input);
      if h.response.Some? then []
      else Sees(s, h.event, length) + SeenByGet(State(Enqueue(s.q, h.event, length), h.rest), length)
  }

  function SeenByAwait(s: State, length: nat): seq<Seen>
    requires HasResponse(s.input)
    decreases |s.input|
  {
    var h := Hear(s.input);
    if h.response.Some? then []
    else Sees(s, h.event, length) + SeenByAwait(State(Enqueue(s.q, h.event, length), h.rest), length)
  }

  function SeenByOp(s: State, op: Op, length: nat): seq<Seen>
    requires CanDo(s, op)
  {
    match op
    case Take => SeenByGet(s, length)
    case Command => SeenByAwait(s, length)
    case Arrive(_) => []
  }

  ghost function SeenBy(s: State, ops: seq<Op>, length: nat): seq<Seen>
    requires Runs(s, ops, length)
    decreases |ops|
  {
    if ops == [] then []
    else SeenByOp(s, ops[0], length) + SeenBy(Do(s, ops[0], length).s, ops[1..], length)
  }

  function Kept(seen: seq<Seen>): seq<Packet> {
    if seen == [] then []
    else (if seen[0].dropped then [] else [seen[0].p]) + Kept(seen[1..])
  }

  lemma {:induction false} KeptConcat(a: seq<Seen>, b: seq<Seen>)
    ensures Kept(a + b) == Kept(a) + Kept(b)
  {
    if a == [] {
      assert a + b == b;
    } else {
      assert (a + b)[0] == a[0] && (a + b)[1..] == a[1..] + b;
      KeptConcat(a[1..], b);
    }
  }

  lemma EnqueueKeeps(s: State, event: Option<Packet>, length: nat)
    ensures Enqueue(s.q, event, length) == s.q + Kept(Sees(s, event, length))
  {
  }

  lemma {:induction false} AwaitKeeps(s: State, length: nat)
    requires HasResponse(s.input)
    ensures Await(s, length).s.q == s.q + Kept(SeenByAwait(s, length))
    decreases |s.input|
  {
    var h := Hear(s.input);
    if h.response.None? {
      var s' := State(Enqueue(s.q, h.event, length), h.rest);
      AwaitKeeps(s', length);
      EnqueueKeeps(s, h.event, length);
      KeptConcat(Sees(s, h.event, length), SeenByAwait(s', length));
    }
  }

  function TakenBy(got: Got): seq<Packet> {
    if got.Event? then [got.p] else []
  }

  lemma {:induction false} GetKeeps(s: State, length: nat)
    requires Complete(s.input)
    ensures TakenBy(Get(s, length).got) + Get(s, length).s.q == s.q + Kept(SeenByGet(s, length))
    decreases |s.input|
  {
    if s.q == [] && s.input != [] {
      var h := Hear(s.input);
      if h.response.None? {
        var s' := State(Enqueue(s.q, h.event, length), h.rest);
        GetKeeps(s', length);
        EnqueueKeeps(s, h.event, length);
        KeptConcat(Sees(s, h.event, length), SeenByGet(s', length));
      }
    }
  }

  lemma OpKeeps(s: State, op: Op, length: nat)
    requires CanDo(s, op)
    ensures var a := Do(s, op, length);
            (if op.Take? then TakenBy(a.got) else []) + a.s.q == s.q + Kept(SeenByOp(s, op, length))
  {
    match op {
      case Take => GetKeeps(s, length);
      case Command => AwaitKeeps(s, length);
      case Arrive(_) =>
    }
  }

  lemma Joins<T>(t: seq<T>, a: seq<T>, q: seq<T>, k: seq<T>, t': seq<T>, e: seq<T>, k': seq<T>)
    requires t + a == q + k && t' + e == a + k'
    ensures t + t' + e == q + (k + k')
  {
    assert t + t' + e == t + (t' + e) == t + (a + k') == (t + a) + k' == (q + k) + k';
  }

  lemma JoinsInputs<T>(i: seq<T>, x: seq<T>, seen: seq<T>, i': seq<T>, y: seq<T>, seen': seq<T>, e: seq<T>)
    requires i + x == seen + i' && i' + y == seen' + e
    ensures i + (x + y) == seen + seen' + e
  {
    assert i + (x + y) == (i + x) + y == seen + (i' + y) == seen + (seen' + e) == seen + seen' + e;
  }

  /** Events come out in the order of arrival, each once, and none is missing but those
      that came while length - 1 were queued; what was not taken yet is in the queue. */
  lemma {:induction false} FirstInFirstOut(s: State, ops: seq<Op>, length: nat)
    requires Runs(s, ops, length)
    ensures Taken(s, ops, length) + End(s, ops, length).q == s.q + Kept(SeenBy(s, ops, length))
    decreases |ops|
  {
    if ops != [] {
      var a := Do(s, ops[0], length);
      var t := if ops[0].Take? then TakenBy(a.got) else [];
      hide Do, SeenByOp, Kept;
      OpKeeps(s, ops[0], length);
      FirstInFirstOut(a.s, ops[1..], length);
      KeptConcat(SeenByOp(s, ops[0], length), SeenBy(a.s, ops[1..], length));
      assert Taken(s, ops, length) == t + Taken(a.s, ops[1..], length);
      Joins(t, a.s.q, s.q, Kept(SeenByOp(s, ops[0], length)), Taken(a.s, ops[1..], length),
            End(a.s, ops[1..], length).q, Kept(SeenBy(a.s, ops[1..], length)));
    }
  }

  /** The queue never holds more than length - 1 events. */
  lemma {:induction false} QueueStaysBounded(s: State, ops: seq<Op>, length: nat)
    requires Runs(s, ops, length) && |s.q| < length
    ensures |End(s, ops, length).q| < length
    decreases |ops|
  {
    if ops != [] {
      match ops[0] {
        case Take => GetBounded(s, length);
        case Command => AwaitBounded(s, length);
        case Arrive(_) =>
      }
      QueueStaysBounded(Do(s, ops[0], length).s, ops[1..], length);
    }
  }

  lemma {:induction false} GetBounded(s: State, length: nat)
    requires Complete(s.input) && |s.q| < length
    ensures |Get(s, length).s.q| < length
    decreases |s.input|
  {
    if s.q == [] && s.input != [] && Hear(s.input).response.None? {
      GetBounded(State(Enqueue(s.q, Hear(s.input).event, length), Hear(s.input).rest), length);
    }
  }

  lemma {:induction false} AwaitBounded(s: State, length: nat)
    requires HasResponse(s.input) && |s.q| < length
    ensures |Await(s, length).s.q| < length
    decreases |s.input|
  {
    if Hear(s.input).response.None? {
      AwaitBounded(State(Enqueue(s.q, Hear(s.input).event, length), Hear(s.input).rest), length);
    }
  }

  /* No event of the input is overlooked */

  /** The events of an input, in order. */
  function Events(s: seq<Byte>): seq<Packet>
    requires Complete(s)
    decreases |s|
  {
    if s == [] then []
    else (if Hear(s).event.Some? then [Hear(s).event.value] else []) + Events(Hear(s).rest)
  }

  function Packets(seen: seq<Seen>): seq<Packet> {
    seq(|seen|, i requires 0 <= i < |seen| => seen[i].p)
  }

  lemma PacketsConcat(a: seq<Seen>, b: seq<Seen>)
    ensures Packets(a + b) == Packets(a) + Packets(b)
  {
  }

  lemma SeenPackets(s: State, event: Option<Packet>, length: nat)
    ensures Packets([]) == []
    ensures Packets(Sees(s, event, length)) == if event.Some? then [event.value] else []
  {
  }

  lemma {:induction false} GetSeesAll(s: State, length: nat)
    requires Complete(s.input)
    ensures Complete(Get(s, length).s.input)
    ensures Events(s.input) == Packets(SeenByGet(s, length)) + Events(Get(s, length).s.input)
    decreases |s.input|
  {
    hide Hear, Enqueue, Packets, Sees;
    SeenPackets(s, None, length);
    if s.q == [] && s.input != [] && Hear(s.input).response.None? {
      var h := Hear(s.input);
      var s' := State(Enqueue(s.q, h.event, length), h.rest);
      SeenPackets(s, h.event, length);
      GetSeesAll(s', length);
      PacketsConcat(Sees(s, h.event, length), SeenByGet(s', length));
    }
  }

  lemma {:induction false} AwaitSeesAll(s: State, length: nat)
    requires Complete(s.input) && HasResponse(s.input)
    ensures Complete(Await(s, length).s.input)
    ensures Events(s.input) == Packets(SeenByAwait(s, length)) + Events(Await(s, length).s.input)
    decreases |s.input|
  {
    hide Hear, Enqueue, Packets, Sees;
    SeenPackets(s, None, length);
    var h := Hear(s.input);
    if h.response.None? {
      var s' := State(Enqueue(s.q, h.event, length), h.rest);
      SeenPackets(s, h.event, length);
      AwaitSeesAll(s', length);
      PacketsConcat(Sees(s, h.event, length), SeenByAwait(s', length));
    }
  }

  lemma {:induction false} ArriveKeepsEvents(a: seq<Byte>, b: seq<Byte>)
    requires Complete(a) && Complete(b)
    ensures Complete(a + b) && Events(a + b) == Events(a) + Events(b)
    decreases |a|
  {
    hide Hear, HasMessage;
    if a == [] {
      assert a + b == b;
    } else {
      HearPrefix(a, b);
      var h := Hear(a);
      ArriveKeepsEvents(h.rest, b);
      var first := if h.event.Some? then [h.event.value] else [];
      var ab, tail := a + b, h.rest + b;
      assert ab != [] && Hear(ab) == h.(rest := tail);
      assert Events(ab) == first + Events(tail);
      hide Events;
      assert first + (Events(h.rest) + Events(b)) == first + Events(h.rest) + Events(b);
    }
  }

  lemma HearPrefix(a: seq<Byte>, b: seq<Byte>)
    requires HasMessage(a)
    ensures HasMessage(a + b)
    ensures Hear(a + b) == Hear(a).(rest := Hear(a).rest + b)
  {
    assert (a + b)[0] == a[0];
    if Synced(a[0]) {
      assert (a + b)[1] == a[1];
      var n := HeaderLength(a[0], a[1]);
      if n <= MAX_PAYLOAD {
        assert (a + b)[..4] == a[..4] && (a + b)[4..4 + n] == a[4..4 + n] && (a + b)[4 + n..] == a[4 + n..] + b;
      } else {
        assert (a + b)[4..] == a[4..] + b;
      }
    } else {
      assert (a + b)[1..] == a[1..] + b;
    }
  }

  ghost predicate WholeArrivals(ops: seq<Op>) {
    forall i :: 0 <= i < |ops| && ops[i].Arrive? ==> Complete(ops[i].bytes)
  }

  function EventsArriving(op: Op): seq<Packet>
    requires op.Arrive? ==> Complete(op.bytes)
  {
    if op.Arrive? then Events(op.bytes) else []
  }

  ghost function AllArriving(ops: seq<Op>): seq<Packet>
    requires WholeArrivals(ops)
  {
    if ops == [] then []
    else
      assert forall i :: 0 <= i < |ops[1..]| ==> ops[1..][i] == ops[i + 1];
      EventsArriving(ops[0]) + AllArriving(ops[1..])
  }

  lemma OpSeesAll(s: State, op: Op, length: nat)
    requires CanDo(s, op) && Complete(s.input) && (op.Arrive? ==> Complete(op.bytes))
    ensures Complete(Do(s, op, length).s.input)
    ensures Events(s.input) + EventsArriving(op) == Packets(SeenByOp(s, op, length)) + Events(Do(s, op, length).s.input)
  {
    match op {
      case Take => GetSeesAll(s, length);
      case Command => AwaitSeesAll(s, length);
      case Arrive(bytes) =>
        ArriveKeepsEvents(s.input, bytes);
        assert Packets([]) == [];
    }
  }

  /** Every event that was in the input or came in is seen, in its order, or still to be read. */
  lemma {:induction false} EveryEventIsSeen(s: State, ops: seq<Op>, length: nat)
    requires Runs(s, ops, length) && Complete(s.input) && WholeArrivals(ops)
    ensures Complete(End(s, ops, length).input)
    ensures Events(s.input) + AllArriving(ops) == Packets(SeenBy(s, ops, length)) + Events(End(s, ops, length).input)
    decreases |ops|
  {
    hide Do, Packets, SeenByOp, Events;
    SeenPackets(s, None, length);
    if ops != [] {
      var a := Do(s, ops[0], length);
      var more := ops[1..];
      assert forall i :: 0 <= i < |more| ==> more[i] == ops[i + 1];
      OpSeesAll(s, ops[0], length);
      EveryEventIsSeen(a.s, more, length);
      var seen := SeenByOp(s, ops[0], length);
      PacketsConcat(seen, SeenBy(a.s, more, length));
      JoinsInputs(Events(s.input), EventsArriving(ops[0]), Packets(seen), Events(a.s.input), AllArriving(more),
                  Packets(SeenBy(a.s, more, length)), Events(End(a.s, more, length).input));
    }
  }

  /* Messages on the wire */

  /** A message as the device sends it: an event or a response. */
  datatype Message = Message(event: bool, p: Packet)

  /** Its first byte carries the device type 0x20, and the bit 0x80 for an event; its header gives
      the length of its payload, which is not too long. */
  predicate ValidMessage(m: Message) {
    && |m.p.header| == 4 && m.p.header[0] / 8 * 8 == (if m.event then 0xA0 else 0x20)
    && HeaderLength(m.p.header[0], m.p.header[1]) == |m.p.payload| <= 256
  }

  ghost predicate ValidMessages(ms: seq<Message>) {
    forall i :: 0 <= i < |ms| ==> ValidMessage(ms[i])
  }

  /** The bytes of messages sent one after the other. */
  function Wire(ms: seq<Message>): seq<Byte> {
    if ms == [] then [] else ms[0].p.header + ms[0].p.payload + Wire(ms[1..])
  }

  /** What one call makes of any input: a first byte of another device type is skipped, a header
      with a length of more than 256 is, and else the message is an event or a response. */
  lemma HearExactly(s: seq<Byte>)
    requires s != []
    ensures s[0] / 8 * 8 !in {0x20, 0xA0} ==> HasMessage(s) && Hear(s) == Heard(None, None, s[1..])
    ensures s[0] / 8 * 8 in {0x20, 0xA0} && |s| < 4 ==> !HasMessage(s)
    ensures s[0] / 8 * 8 in {0x20, 0xA0} && |s| >= 4 ==>
              var n := HeaderLength(s[0], s[1]);
              if n > 256 then HasMessage(s) && Hear(s) == Heard(None, None, s[4..])
              else if |s| < 4 + n then !HasMessage(s)
              else
                var p := Packet(s[..4], s[4..4 + n]);
                HasMessage(s) && Hear(s) ==
                  if s[0] >= 0x80 then Heard(Some(p), None, s[4 + n..]) else Heard(None, Some(p), s[4 + n..])
  {
  }

  lemma HearWire(m: Message, rest: seq<Byte>)
    requires ValidMessage(m)
    ensures var s := m.p.header + m.p.payload + rest;
            HasMessage(s) && Hear(s) == if m.event then Heard(Some(m.p), None, rest) else Heard(None, Some(m.p), rest)
  {
    var s := m.p.header + m.p.payload + rest;
    var n := |m.p.payload|;
    assert s[0] == m.p.header[0] && s[1] == m.p.header[1];
    assert s[..4] == m.p.header && s[4..4 + n] == m.p.payload && s[4 + n..] == rest;
    assert m.event <==> s[0] / 128 == 1;
    hide HeaderLength;
  }

  function EventsOf(ms: seq<Message>): seq<Packet> {
    if ms == [] then [] else (if ms[0].event then [ms[0].p] else []) + EventsOf(ms[1..])
  }

  /** The events of the input are those sent. */
  lemma {:induction false} WireEvents(ms: seq<Message>)
    requires ValidMessages(ms)
    ensures Complete(Wire(ms)) && Events(Wire(ms)) == EventsOf(ms)
  {
    if ms != [] {
      HearWire(ms[0], Wire(ms[1..]));
      WireEvents(ms[1..]);
      hide Hear, HasMessage, ValidMessage;
    }
  }

  /** gecko_get_event gives the oldest event queued, and with none queued the next message of the
      input, whichever it is. */
  lemma GetOnWire(q: seq<Packet>, ms: seq<Message>, length: nat)
    requires ValidMessages(ms) && length > 1
    ensures Complete(Wire(ms))
    ensures Get(State(q, Wire(ms)), length) ==
              if q != [] then After(Event(q[0]), State(q[1..], Wire(ms)))
              else if ms == [] then After(Nothing, State([], []))
              else
                After(if ms[0].event then Event(ms[0].p) else Response(ms[0].p), State([], Wire(ms[1..])))
  {
    WireEvents(ms);
    if ms != [] {
      WireEvents(ms[1..]);
      HearWire(ms[0], Wire(ms[1..]));
      hide Hear, HasMessage, ValidMessage, Complete, Events;
      assert q == [] && ms[0].event ==>
               Get(State(q, Wire(ms)), length) == Get(State([ms[0].p], Wire(ms[1..])), length);
    }
  }

  function Least(a: nat, b: nat): nat {
    if a <= b then a else b
  }

  /** gecko_wait_response gives the first response of the input.  Of the events before it, all of
      them, those are queued that the queue has room for: it holds length - 1. */
  lemma {:induction false} AwaitOnWire(q: seq<Packet>, ms: seq<Message>, i: nat, length: nat)
    requires ValidMessages(ms) && |q| < length
    requires i < |ms| && !ms[i].event && forall j :: 0 <= j < i ==> ms[j].event
    ensures HasResponse(Wire(ms))
    ensures Await(State(q, Wire(ms)), length)
         == After(Response(ms[i].p), State(q + EventsOf(ms[..Least(i, length - 1 - |q|)]), Wire(ms[i + 1..])))
    decreases i
  {
    HearWire(ms[0], Wire(ms[1..]));
    hide Hear, HasMessage, ValidMessage;
    if i > 0 {
      QueuedOnWire(q, ms, i, length);
      hide EventsOf, Enqueue;
      AwaitOnWire(Enqueue(q, Some(ms[0].p), length), ms[1..], i - 1, length);
      assert ms[1..][i..] == ms[i + 1..];
    } else {
      assert ms[..0] == [];
    }
  }

  lemma QueuedOnWire(q: seq<Packet>, ms: seq<Message>, i: nat, length: nat)
    requires |q| < length && 0 < i < |ms| && ms[0].event
    ensures var q' := Enqueue(q, Some(ms[0].p), length);
            && |q'| < length
            && q' + EventsOf(ms[1..][..Least(i - 1, length - 1 - |q'|)])
            == q + EventsOf(ms[..Least(i, length - 1 - |q|)])
  {
    var k := Least(i, length - 1 - |q|);
    if k > 0 {
      assert ms[..k][1..] == ms[1..][..k - 1] && ms[..k][0] == ms[0];
    } else {
      assert ms[..k] == [] && ms[1..][..0] == [];
    }
  }
}
