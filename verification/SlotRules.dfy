/** What the callbacks and the passes leave alone: rules that hold of every slot, in whatever
    mode it is. */
module SlotRules {
  import opened Bits
  import opened Odometer
  import opened Mesh
  import opened Slot
  import D = Doubles

  /** An error is recorded under the bit of the slot's state, in one of the two maps and next to
      the bits it holds; flags and guard timer are cleared, and nothing else changes. */
  lemma FailRecords(c: Cache, call: bool, to: int, i: nat)
    ensures var d := Fail(c, call, to);
            && Bit(d.bgcall, i) == (Bit(c.bgcall, i) || (call && i == c.state))
            && Bit(d.bgevt, i) == (Bit(c.bgevt, i) || (!call && i == c.state))
            && !d.armed && !d.wait && !d.oom && !d.ever && d.next == to
            && d == c.(armed := false, wait := false, oom := false, ever := false, next := to,
                       bgcall := d.bgcall, bgevt := d.bgevt)
  {
    SetBitBits(c.bgcall, c.state, i);
    SetBitBits(c.bgevt, c.state, i);
  }

  /** The error word of a node is both maps together, but for bits a 31-bit field does not hold. */
  lemma ErrWordExactly(c: Cache, i: nat)
    requires i < 31
    ensures Bit(ErrWord(c), i) == (Bit(c.bgcall, i) || Bit(c.bgevt, i))
    ensures ErrWord(c) < 0x8000_0000
  {
    var u := Or(c.bgevt, c.bgcall);
    OrBits(c.bgevt, c.bgcall, i);
    ThirtyOneTwos();
    LowBits(u, 31, i);
  }

  lemma ThirtyOneTwos()
    ensures Pow2(31) == 0x8000_0000
  {
    assert Pow2(8) == 0x100;
    assert Pow2(16) == 0x1_0000;
    assert Pow2(24) == 0x100_0000;
  }

  lemma {:induction false} LowBits(u: nat, n: nat, i: nat)
    requires i < n
    ensures Bit(u % Pow2(n), i) == Bit(u, i)
    decreases n
  {
    HalfOfRest(u, Pow2(n - 1));
    if i > 0 {
      LowBits(u / 2, n - 1, i - 1);
    }
  }

  lemma HalfOfRest(u: nat, p: nat)
    requires p > 0
    ensures u % (2 * p) % 2 == u % 2 && u % (2 * p) / 2 == u / 2 % p
  {
    var q, r := u / (2 * p), u % (2 * p);
    assert u == 2 * (p * q) + r;
    assert u / 2 == q * p + r / 2 && 0 <= r / 2 < p;
    D.DivUnique(u / 2, p, q, r / 2);
  }

  /** A slot that awaits a response, with its guard timer running and no resend pending, is
      passed over; and so is one without a response due, a resend pending or a state to enter. */
  lemma PassedOver(c: Cache, n: Node, keys: seq<AppKey>, timeUp: bool, ans: Answer)
    requires !(c.armed && timeUp) && !c.oom && (c.wait || c.state == c.next)
    ensures Pass(c, n, keys, timeUp, ans) == PassOut(c, n, None, Kept, true)
  {
  }

  /** A terminal event nobody awaits changes nothing, but for a resend that retries are left for. */
  lemma UnawaitedIgnored(c: Cache, n: Node, keys: seq<AppKey>, which: nat, st: Status, ans: Answer)
    requires Works(c.state) && !c.wait && !c.ever
    ensures Handle(c, n, keys, which, st, ans) == Out(c, n, Suc, None, true)
  {
  }

  /** Going on from iterators that stand at no item is an index outside its array; from an item the
      slot goes on to the next, or to the state behind when there is none. */
  lemma GoesOnFromItems(c: Cache, n: Node, keys: seq<AppKey>, ans: Answer)
    requires Iterates(c.state)
    ensures var sh, p := ShapeOf(c.state, n, keys, c.dcd), PosOf(c.state, c.it);
            var o := Advance(c, n, keys, ans);
            && (!On(sh, p) ==> !o.ok)
            && (WellShaped(sh) && On(sh, p) && (forall q :: On(sh, q) ==> !Less(p, q)) ==>
                  o == Out(c.(it := ORIGIN, next := TO_NEXT), n, Suc, None, true))
  {
    var sh, p := ShapeOf(c.state, n, keys, c.dcd), PosOf(c.state, c.it);
    if On(sh, p) && WellShaped(sh) {
      TurnIsSuccessor(sh, p);
    }
    hide ShapeOf, CommandFor, On, Turn, WellShaped;
  }

  /** A page changes the composition data of a slot that awaits it and disarms guard timers of
      slots that wait, and does nothing else. */
  lemma PageStoredExactly(c: Cache, dcd: seq<Element>)
    ensures OnPage(c, dcd).dcd == if c.wait && c.state == GET_DCD then dcd else c.dcd
    ensures OnPage(c, dcd).armed == (c.armed && !(c.wait && (GET_DCD <= c.state <= SET_CONFIG || c.state == RM)))
    ensures OnPage(c, dcd) == c.(dcd := OnPage(c, dcd).dcd, armed := OnPage(c, dcd).armed)
  {
  }

  /** A command found goes out: accepted, the slot waits under the handle with its guard timer
      running; out of memory, the resend is pending; refused, the error of the call is recorded.
      The answer is the only thing that decides. */
  lemma SendExactly(s: int, c: Cache, n: Node, keys: seq<AppKey>, ans: Answer)
    requires CommandFor(s, c.it, c.dcd, n, keys).Cmd?
    ensures var o := Send(s, c, n, keys, ans);
            && o.ok && o.n == n && CommandFor(s, c.it, c.dcd, n, keys) == Cmd(o.cmd.value)
            && match ans
               case Accepted(h) => o.ret == Suc && o.c == c.(wait := true, handle := h, armed := true)
               case OutOfMemory => o.ret == Oom && o.c == c.(oom := true)
               case Refused => o.ret == Bgapi && o.c == Fail(c, true, if s == RM then RM_END else END)
  {
  }

  /** A resend that is accepted takes one retry after a timeout, takes the pending resend off after
      out-of-memory, and leaves the guard timer off after it has expired. */
  lemma ResendExactly(c: Cache, n: Node, keys: seq<AppKey>, reason: Reason, handle: nat)
    requires CommandFor(c.state, c.it, c.dcd, n, keys).Cmd?
    requires reason.OnTimeout? ==> c.ever && c.remaining > 0
    requires reason.OnOom? ==> c.oom
    ensures var o := Retry(c, n, keys, reason, Accepted(handle));
            && o.ok && o.n == n && o.ret == Suc && CommandFor(c.state, c.it, c.dcd, n, keys) == Cmd(o.cmd.value)
            && match reason
               case OnTimeout =>
                 o.c == c.(wait := true, handle := handle, armed := true, remaining := c.remaining - 1)
               case OnOom => o.c == c.(wait := true, handle := handle, armed := true, oom := false)
               case OnGuardTimer => o.c == c.(wait := true, handle := handle, armed := false)
  {
  }

  /** A state is entered when a node has something for it: an address to get its composition data
      or to reset it, keys to add and to bind, a publication under a key it is bound to, addresses
      to subscribe to, and features that differ. */
  predicate Needed(s: int, n: Node) {
    || ((s == GET_DCD || s == RM) && n.cfg.addr != 0)
    || ((s == ADD_APPKEY || s == BIND) && |n.cfg.bindings| > 0)
    || (s == SET_PUB && n.cfg.pub.Some? && n.cfg.pub.value.aki in n.cfg.bindings)
    || (s == ADD_SUB && |n.cfg.sublist| > 0)
    || (s == SET_CONFIG && n.cfg.target != n.current)
  }

  /** Entering from state s on ends at state t: the first that is needed, or the end. */
  ghost predicate EndsAt(t: int, o: Out, s: int, c: Cache, n: Node, ans: Answer) {
    && s <= t <= RM_END && (forall u :: s <= u < t ==> !Needed(u, n) && u != END)
    && if t == END || t == RM_END then o.c == c.(state := t, next := t) && o.cmd.None?
       else
         && Needed(t, n)
         && if o.cmd.Some? && ans.Refused? then o.c.state == END else o.c.state == t == o.c.next
  }

  /** The states are entered in the order of their numbers, and the next one is the first from s
      on that is needed, or the end; a refused command leads to the end as well. */
  lemma {:induction false} EntersFirstNeeded(s: int, c: Cache, n: Node, keys: seq<AppKey>, ans: Answer)
    requires GET_DCD <= s <= RM_END
    ensures exists t :: EndsAt(t, Enter(s, c, n, keys, ans), s, c, n, ans)
    decreases RM_END - s
  {
    var o := Enter(s, c, n, keys, ans);
    NeededExactly(s, n);
    hide CommandFor, Guard, Needed;
    if s != END && s != RM_END && !Guard(s, n) {
      EntersFirstNeeded(s + 1, c, n, keys, ans);
      assert o == Enter(s + 1, c, n, keys, ans);
      var t :| EndsAt(t, o, s + 1, c, n, ans);
      hide Enter;
      assert EndsAt(t, o, s, c, n, ans);
    } else {
      assert EndsAt(s, o, s, c, n, ans);
    }
  }

  lemma NeededExactly(s: int, n: Node)
    ensures GET_DCD <= s <= SET_CONFIG || s == RM ==> (Guard(s, n) <==> Needed(s, n))
    ensures Needed(s, n) ==> GET_DCD <= s <= SET_CONFIG || s == RM
  {
    if n.cfg.target == n.current {
      forall i: nat
        ensures !Bit(Diff(n), i)
      {
        XorBits(n.cfg.target, n.current, i);
      }
      if Diff(n) != 0 {
        var i := SomeBit(Diff(n));
      }
    } else if Diff(n) == 0 {
      forall i: nat
        ensures Bit(n.cfg.target, i) == Bit(n.current, i)
      {
        XorBits(n.cfg.target, n.current, i);
        ZeroHasNoBits(i);
      }
      SameBits(n.cfg.target, n.current);
    }
  }
}
