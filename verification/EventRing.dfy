/** The ring of event packets in place, whose packets the application reads where they lie. */
module EventRing {
  import opened Bytes
  import opened Mesh
  import opened EventQueue

  /** Where the packet returned lies: in the ring, in the response buffer, or nowhere. */
  datatype Place = InRing(i: nat) | InResponse | Nowhere

  class Ring {
    /** gecko_queue, of any length, with its read and write indices. */
    const queue: array<Packet>
    var r: nat
    var w: nat
    var rspMsg: Packet
    /** The bytes the device has sent and nobody has read. */
    var input: seq<Byte>

    ghost predicate Valid()
      reads this
    {
      r < queue.Length && w < queue.Length
    }

    ghost function Contents(): seq<Packet>
      requires Valid()
      reads this, queue
    {
      if r <= w then queue[r..w] else queue[r..] + queue[..w]
    }

    ghost function View(): State
      requires Valid()
      reads this, queue
    {
      State(Contents(), input)
    }

    /** The slot of the event returned last. */
    ghost function Held(): nat
      requires Valid()
      reads this
    {
      if r == 0 then queue.Length - 1 else r - 1
    }

    constructor (length: nat)
      requires length > 0
      ensures Valid() && fresh(queue) && queue.Length == length && View() == State([], [])
    {
      var none := Packet([], []);
      queue := new Packet[length](_ => none);
      r := 0;
      w := 0;
      rspMsg := none;
      input := [];
    }

    method Input(n: nat) returns (bytes: seq<Byte>)
      requires n <= |input|
      modifies this`input
      ensures bytes == old(input[..n]) && input == old(input[n..])
    {
      bytes := input[..n];
      input := input[n..];
    }

    /** Writes an event into the next free slot. */
    method Store(p: Packet)
      requires Valid() && (w + 1) % queue.Length != r
      modifies this`w, queue
      ensures Valid() && Contents() == old(Contents()) + [p]
      ensures queue[Held()] == old(queue[Held()])
    {
      ghost var q := Contents();
      NextIndex(w);
      assert w != Held();
      queue[w] := p;
      w := (w + 1) % queue.Length;
      if w == 0 {
        assert queue[r..] == q + [p];
      } else {
        assert Contents() == q + [p];
      }
    }

    /** Takes the slot of the oldest event. */
    method Fetch() returns (i: nat)
      requires Valid() && w != r
      modifies this`r
      ensures Valid() && i == Held() && old(Contents()) == [queue[i]] + Contents()
    {
      i := r;
      NextIndex(r);
      r := (r + 1) % queue.Length;
    }

    lemma NextIndex(i: nat)
      requires i < queue.Length
      ensures (i + 1) % queue.Length == if i + 1 < queue.Length then i + 1 else 0
    {
    }

    /** The ring is full exactly when all but one of its slots hold an event. */
    lemma FullExactly()
      requires Valid()
      ensures (w + 1) % queue.Length == r <==> |Contents()| + 1 >= queue.Length
    {
    }

    /** An event that was read goes into the ring unless it is full. */
    method StoreEvent(p: Packet)
      requires Valid()
      modifies this`w, queue
      ensures Valid() && Contents() == Enqueue(old(Contents()), Some(p), queue.Length)
      ensures queue[Held()] == old(queue[Held()])
    {
      FullExactly();
      if (w + 1) % queue.Length != r {
        Store(p);
      }
    }

    /** gecko_wait_message: whether a response was read. */
    method WaitMessage() returns (response: bool)
      requires Valid() && HasMessage(input)
      modifies this`w, this`rspMsg, this`input, queue
      ensures Valid()
      ensures var h := Hear(old(input));
              && View() == State(Enqueue(old(Contents()), h.event, queue.Length), h.rest)
              && response == h.response.Some?
              && rspMsg == (if response then h.response.value else old(rspMsg))
      ensures queue[Held()] == old(queue[Held()])
    {
      ghost var s := input;
      response := false;
      var header := Input(1);
      if !Synced(header[0]) {
        return;
      }
      var more := Input(3);
      assert s[1..][..3] == s[1..4] && s[1..][3..] == s[4..];
      header := header + more;
      assert header == s[..4];
      HeardParts(s);
      hide Hear, HasMessage;
      var length := HeaderLength(header[0], header[1]);
      if length > MAX_PAYLOAD {
        return;
      }
      var payload := Input(length);
      var p := Packet(header, payload);
      assert input == Hear(s).rest;
      if header[0] / 128 == 1 {
        StoreEvent(p);
      } else {
        rspMsg := p;
        response := true;
      }
    }

    /** What the parts of a message that was read say of it. */
    static lemma HeardParts(s: seq<Byte>)
      requires HasMessage(s) && Synced(s[0])
      ensures |s| >= 4
      ensures var n := HeaderLength(s[0], s[1]);
              if n > MAX_PAYLOAD then Hear(s) == Heard(None, None, s[4..])
              else
                && n <= |s[4..]| && Hear(s).rest == s[4..][n..]
                && var p := Packet(s[..4], s[4..][..n]);
                   if s[0] / 128 == 1 then Hear(s).event == Some(p) && Hear(s).response == None
                   else Hear(s).event == None && Hear(s).response == Some(p)
    {
      var n := HeaderLength(s[0], s[1]);
      if n <= MAX_PAYLOAD {
        assert s[4..][..n] == s[4..4 + n] && s[4..][n..] == s[4 + n..];
      }
    }

    /** gecko_get_event without blocking; the event returned lies in the held slot. */
    method GetEvent() returns (place: Place)
      requires Valid() && Complete(input)
      modifies this, queue
      ensures Valid()
      ensures var a := Get(old(View()), queue.Length);
              && View() == a.s
              && match a.got
                 case Event(p) => place == InRing(Held()) && queue[Held()] == p
                 case Response(p) => place == InResponse && rspMsg == p
                 case Nothing => place == Nowhere
    {
      ghost var goal := Get(View(), queue.Length);
      while true
        invariant Valid() && Complete(input)
        invariant Get(View(), queue.Length) == goal
        decreases |input|
      {
        if w != r {
          var i := Fetch();
          return InRing(i);
        }
        if input == [] {
          return Nowhere;
        }
        var response := WaitMessage();
        if response {
          return InResponse;
        }
      }
    }

    /** gecko_wait_response, as gecko_handle_command calls it after sending. */
    method WaitResponse()
      requires Valid() && HasResponse(input)
      modifies this`w, this`rspMsg, this`input, queue
      ensures Valid()
      ensures var a := Await(old(View()), queue.Length);
              View() == a.s && a.got == Response(rspMsg)
      ensures queue[Held()] == old(queue[Held()])
    {
      ghost var goal := Await(View(), queue.Length);
      while true
        invariant Valid() && HasResponse(input)
        invariant Await(View(), queue.Length) == goal
        invariant queue[Held()] == old(queue[Held()])
        decreases |input|
      {
        var response := WaitMessage();
        if response {
          return;
        }
      }
    }

    /** A handler sends any number of commands while input comes in; the event it was given
        stays as it is until the next one is taken. */
    method Handler(ops: seq<Op>)
      requires Valid() && Runs(View(), ops, queue.Length)
      requires forall i :: 0 <= i < |ops| ==> !ops[i].Take?
      modifies this`w, this`rspMsg, this`input, queue
      ensures Valid() && View() == End(old(View()), ops, queue.Length)
      ensures queue[Held()] == old(queue[Held()])
    {
      var i := 0;
      ghost var goal := End(View(), ops, queue.Length);
      while i < |ops|
        invariant 0 <= i <= |ops| && Valid()
        invariant Runs(View(), ops[i..], queue.Length) && End(View(), ops[i..], queue.Length) == goal
        invariant queue[Held()] == old(queue[Held()])
      {
        assert ops[i..][0] == ops[i] && ops[i..][1..] == ops[i + 1..];
        match ops[i] {
          case Command => WaitResponse();
          case Arrive(bytes) => input := input + bytes;
        }
        i := i + 1;
      }
    }
  }
}
