/** No slot gets stuck and no ASSERT fires: every step keeps a session sound. */
module SessionSound {
  import opened Bits
  import opened Odometer
  import opened Mesh
  import opened Slot
  import opened Session

  /* The resume point after Get DCD */

  lemma Pow2Values()
    ensures Pow2(0) == 1 && Pow2(1) == 2 && Pow2(2) == 4 && Pow2(3) == 8 && Pow2(4) == 16 && Pow2(5) == 32
    ensures Pow2(6) == 64 && Pow2(7) == 128 && Pow2(8) == 256 && Pow2(9) == 512
  {
  }

  lemma {:induction false} HighestBitIs(err: nat, s: int, none: int)
    requires ADD_APPKEY - 1 <= s <= SET_CONFIG
    ensures var h := HighestBit(err, s, none);
            if forall i: nat :: ADD_APPKEY <= i <= s ==> !Bit(err, i) then h == none
            else ADD_APPKEY <= h <= s && Bit(err, h) && forall i: nat :: h < i <= s ==> !Bit(err, i)
    decreases s
  {
    if s >= ADD_APPKEY && !Bit(err, s) {
      HighestBitIs(err, s - 1, none);
    }
  }

  /** With one error bit recorded, Get DCD continues with the state of that bit when it
      is a configuration state, and with Add Appkey otherwise. */
  lemma ResumeAtTheBit(err: nat, b: nat)
    requires err == Pow2(b) && b <= RM
    ensures AfterDcd(err, GET_DCD) == if ADD_APPKEY <= b <= SET_CONFIG then b else TO_NEXT
  {
    Pow2Values();
    HighestBitIs(err, SET_CONFIG, GET_DCD);
    Pow2Bits(b, b);
    forall i: nat
      ensures Bit(err, i) == (i == b)
    {
      Pow2Bits(b, i);
    }
  }

  /** For any error word at all, Get DCD finds no state to continue with exactly for the
      words 5, 6 and 7: the slot then waits for nothing and moves nowhere. */
  lemma DcdStuckExactly(err: nat)
    ensures AfterDcd(err, GET_DCD) == GET_DCD <==> 5 <= err <= 7
  {
  }

  lemma OneBitResumes(err: nat)
    requires OneErrorBit(err)
    ensures AfterDcd(err, GET_DCD) == TO_NEXT || ADD_APPKEY <= AfterDcd(err, GET_DCD) <= SET_CONFIG
  {
    if err != 0 {
      var b: nat :| 1 <= b <= RM && err == Pow2(b);
      ResumeAtTheBit(err, b);
    }
  }

  /* The items of a state */

  /** Every visited position of a state has a command, and the origin is one. */
  lemma ItemsExist(s: int, n: Node, comp: seq<Element>, keys: seq<AppKey>)
    requires Iterates(s) && Guard(s, n) && WellConfigured(n, comp, keys)
    ensures WellShaped(ShapeOf(s, n, keys, comp))
    ensures forall p :: On(ShapeOf(s, n, keys, comp), p) ==> ItemAt(s, p, n, keys, comp).Cmd?
  {
  }

  lemma ReadyAtOrigin(s: int, dcd: seq<Element>, n: Node, comp: seq<Element>, keys: seq<AppKey>)
    requires Works(s) && Guard(s, n) && WellConfigured(n, comp, keys)
    requires Iterates(s) ==> dcd == comp
    ensures Ready(s, ORIGIN, dcd, n, keys)
  {
  }

  /* The steps */

  /** What a callback leaves when it sends for a slot in its state. */
  predicate Posted(o: Out, keys: seq<AppKey>, comp: seq<Element>, ans: Answer) {
    && o.ok && o.cmd.Some?
    && (ans.Refused? ==> Faulted(o.c))
    && (!ans.Refused? ==>
          Active(o.c, o.n, keys, comp) && CommandFor(o.c.state, o.c.it, o.c.dcd, o.n, keys) == Cmd(o.cmd.value))
    && (o.c.wait <==> ans.Accepted?)
    && (o.ret == Suc <==> ans.Accepted?)
  }

  /** An active slot between its terminal event and the next command. */
  predicate Poised(c: Cache, n: Node, keys: seq<AppKey>, comp: seq<Element>) {
    !c.wait && !c.oom && !c.armed && Active(c.(oom := true), n, keys, comp)
  }

  lemma SendPosts(c: Cache, n: Node, keys: seq<AppKey>, comp: seq<Element>, ans: Answer)
    requires Poised(c, n, keys, comp)
    ensures Posted(Send(c.state, c, n, keys, ans), keys, comp, ans)
    ensures Send(c.state, c, n, keys, ans).n == n
  {
    hide CommandFor, Guard;
    SetBitOfZero(c.state);
  }

  /** The resend a timeout asks for. */
  lemma TimeoutRetrySound(c: Cache, n: Node, keys: seq<AppKey>, comp: seq<Element>, ans: Answer)
    requires Poised(c, n, keys, comp) && c.ever && c.remaining > 0
    ensures Posted(Retry(c, n, keys, OnTimeout, ans), keys, comp, ans)
    ensures Retry(c, n, keys, OnTimeout, ans).n == n
  {
    hide CommandFor, Guard;
    SetBitOfZero(c.state);
  }

  /** The deferred resend after out-of-memory. */
  lemma OomRetrySound(c: Cache, n: Node, keys: seq<AppKey>, comp: seq<Element>, ans: Answer)
    requires Active(c, n, keys, comp) && c.oom
    ensures Posted(Retry(c, n, keys, OnOom, ans), keys, comp, ans)
    ensures Retry(c, n, keys, OnOom, ans).n == n
  {
    hide CommandFor, Guard;
    SetBitOfZero(c.state);
  }

  /** The resend of an expired guard timer, when it is not answered out-of-memory. */
  lemma GuardRetrySound(c: Cache, n: Node, keys: seq<AppKey>, comp: seq<Element>, ans: Answer)
    requires Active(c, n, keys, comp) && c.armed && !ans.OutOfMemory?
    ensures Posted(Retry(c, n, keys, OnGuardTimer, ans), keys, comp, ans)
    ensures Retry(c, n, keys, OnGuardTimer, ans).n == n
  {
    hide CommandFor, Guard;
    SetBitOfZero(c.state);
  }

  /** Where entering states from s on leads: to a state at work, or to an end state
      that recorded success or the bit of the state left. */
  predicate Entered(o: Out, s: int, c: Cache, n: Node, keys: seq<AppKey>, comp: seq<Element>, ans: Answer)
  {
    && o.ok
    && (o.cmd.Some? ==> (Ended(o.c) <==> ans.Refused?))
    && if Ended(o.c) then EndedWell(o, c, n) else StartedWork(o, s, n, keys, comp, ans)
  }

  predicate EndedWell(o: Out, c: Cache, n: Node)
  {
    if Failed(o.c) then o.n == n.(err := Pow2(c.state))
    else o.cmd.None? && o.n == n.(err := 0, done := o.c.state == END)
  }

  predicate StartedWork(o: Out, s: int, n: Node, keys: seq<AppKey>, comp: seq<Element>, ans: Answer) {
    && o.n == n && s <= o.c.state
    && Active(o.c, n, keys, comp)
    && o.cmd.Some? && CommandFor(o.c.state, o.c.it, o.c.dcd, n, keys) == Cmd(o.cmd.value)
    && (o.c.wait <==> ans.Accepted?)
  }

  lemma {:induction false} EnterSound(s: int, c: Cache, n: Node, keys: seq<AppKey>, comp: seq<Element>, ans: Answer)
    requires GET_DCD <= s <= RM_END && PROVISIONED <= c.state <= RM
    requires c.node.Some? && NoFlags(c) && !Failed(c) && c.it == ORIGIN
    requires ADD_APPKEY <= s <= SET_CONFIG ==> c.dcd == comp
    requires WellConfigured(n, comp, keys)
    ensures Entered(Enter(s, c, n, keys, ans), s, c, n, keys, comp, ans)
    decreases RM_END - s
  {
    if s != END && s != RM_END {
      if Guard(s, n) {
        ReadyAtOrigin(s, c.dcd, n, comp, keys);
        SetBitOfZero(c.state);
        if ans.Refused? {
          ErrWordIs(c, Fail(c, true, FailTo(s)), true);
        }
      } else {
        EnterSound(s + 1, c, n, keys, comp, ans);
      }
    }
  }

  lemma ErrWordIs(c: Cache, f: Cache, call: bool)
    requires 0 <= c.state <= RM && f.bgcall + f.bgevt == Pow2(c.state) && (if call then f.bgevt == 0 else f.bgcall == 0)
    ensures Failed(f) && ErrWord(f) == Pow2(c.state)
  {
    OrZero(f.bgcall);
    OrZero(f.bgevt);
    Pow2Grows(c.state, RM);
    assert Pow2(RM) == 512;
  }

  /** A slot whose state failed goes to its end state, which records the bit of the state. */
  lemma FaultedEnds(c: Cache, n: Node, keys: seq<AppKey>, ans: Answer)
    requires Faulted(c)
    ensures var o := ToNextState(c, n, keys, ans);
            o.ok && o.cmd.None? && Ended(o.c) && Failed(o.c) && o.n == n.(err := Pow2(c.state))
  {
    ErrWordIs(c, c, c.bgevt == 0);
  }

  lemma OverMoves(c: Cache, n: Node, keys: seq<AppKey>, comp: seq<Element>, ans: Answer)
    requires Over(c, comp) || Fresh(c)
    requires WellConfigured(n, comp, keys)
    ensures Movable(c)
    ensures Entered(ToNextState(c, n, keys, ans), if c.next == TO_NEXT then c.state + 1 else c.next,
                    c, n, keys, comp, ans)
  {
    EnterSound(if c.next == TO_NEXT then c.state + 1 else c.next, c, n, keys, comp, ans);
  }

  /** What a pass leaves: a released slot with the error bit of some state or none, or
      a slot in use; a command was sent exactly as the device records it. */
  ghost predicate Passed(o: PassOut, c: Cache, n: Node, keys: seq<AppKey>, comp: seq<Element>, timeUp: bool,
                         ans: Answer) {
    && o.ok
    && (GuardFires(c, timeUp) ==> o.cmd.Some?)
    && (c.wait && !GuardFires(c, timeUp) ==> o.cmd.None? && o.release.Kept?)
    && o.n.cfg == n.cfg && o.n.current == n.current && OneErrorBit(o.n.err)
    && (o.release == Freed(true) ==> o.n == n.(err := Pow2(c.state)))
    && (o.release == Freed(false) ==> o.n.err == 0)
    && if o.release.Freed? then o.c == EMPTY && (o.cmd.Some? ==> ans.Refused?)
       else InUse(o.c, o.n, keys, comp) && o.n == n && AwaitsWhatWasSent(o, c, keys, ans)
  }

  predicate AwaitsWhatWasSent(o: PassOut, c: Cache, keys: seq<AppKey>, ans: Answer) {
    if o.cmd.None? then o.c == c
    else
      && (o.c.wait <==> ans.Accepted?)
      && (o.c.wait ==> CommandFor(o.c.state, o.c.it, o.c.dcd, o.n, keys) == Cmd(o.cmd.value))
  }

  lemma EntryPasses(c: Cache, n: Node, keys: seq<AppKey>, comp: seq<Element>, timeUp: bool, ans: Answer)
    requires Over(c, comp) || Fresh(c)
    requires WellConfigured(n, comp, keys) && OneErrorBit(n.err)
    ensures Passed(Pass(c, n, keys, timeUp, ans), c, n, keys, comp, timeUp, ans)
  {
    hide CommandFor, Guard, WellConfigured, ToNextState;
    OverMoves(c, n, keys, comp, ans);
    assert OneErrorBit(Pow2(c.state));
  }

  lemma FaultPasses(c: Cache, n: Node, keys: seq<AppKey>, comp: seq<Element>, timeUp: bool, ans: Answer)
    requires Faulted(c) && OneErrorBit(n.err)
    ensures Passed(Pass(c, n, keys, timeUp, ans), c, n, keys, comp, timeUp, ans)
  {
    FaultedEnds(c, n, keys, ans);
  }

  lemma ActivePasses(c: Cache, n: Node, keys: seq<AppKey>, comp: seq<Element>, timeUp: bool, ans: Answer)
    requires Active(c, n, keys, comp) && OneErrorBit(n.err)
    requires !(GuardFires(c, timeUp) && ans.OutOfMemory?)
    ensures Passed(Pass(c, n, keys, timeUp, ans), c, n, keys, comp, timeUp, ans)
  {
    hide CommandFor, Guard, Retry;
    if GuardFires(c, timeUp) {
      GuardRetrySound(c, n, keys, comp, ans);
      if ans.Refused? {
        FaultedEnds(Retry(c, n, keys, OnGuardTimer, ans).c, n, keys, ans);
      }
    } else if c.oom {
      OomRetrySound(c, n, keys, comp, ans);
      if ans.Refused? {
        FaultedEnds(Retry(c, n, keys, OnOom, ans).c, n, keys, ans);
      }
    }
  }

  lemma PassSound(s: Session, keys: seq<AppKey>, timeUp: bool, ans: Answer)
    requires Sound(s, keys) && s.c.node.Some?
    requires !(GuardFires(s.c, timeUp) && ans.OutOfMemory?)
    ensures Passed(Pass(s.c, s.n, keys, timeUp, ans), s.c, s.n, keys, s.w.comp, timeUp, ans)
  {
    if Active(s.c, s.n, keys, s.w.comp) {
      ActivePasses(s.c, s.n, keys, s.w.comp, timeUp, ans);
    } else if Faulted(s.c) {
      FaultPasses(s.c, s.n, keys, s.w.comp, timeUp, ans);
    } else {
      EntryPasses(s.c, s.n, keys, s.w.comp, timeUp, ans);
    }
  }

  /** What the terminal event leaves: the slot in use, the node's record untouched but for
      a feature bit, and a command sent exactly as the device records it. */
  ghost predicate Replied(o: Out, n: Node, keys: seq<AppKey>, comp: seq<Element>, ans: Answer) {
    && o.ok
    && o.n == n.(current := o.n.current) && WellConfigured(o.n, comp, keys)
    && (Active(o.c, o.n, keys, comp) || Over(o.c, comp) || Faulted(o.c))
    && (o.c.wait <==> o.cmd.Some? && ans.Accepted?)
    && (!o.c.wait && o.c.ever ==> o.ret != Suc)
    && (o.c.wait ==> CommandFor(o.c.state, o.c.it, o.c.dcd, o.n, keys) == Cmd(o.cmd.value))
  }

  /** The iterators turn to a position with a command, or come to rest at zero. */
  lemma TurnReady(s: int, it: Pos, n: Node, comp: seq<Element>, keys: seq<AppKey>)
    requires Iterates(s) && Guard(s, n) && WellConfigured(n, comp, keys)
    requires On(ShapeOf(s, n, keys, comp), PosOf(s, it))
    ensures var t := Turn(ShapeOf(s, n, keys, comp), PosOf(s, it));
            if t.done then ItOf(s, t.pos) == ORIGIN
            else Ready(s, ItOf(s, t.pos), comp, n, keys) && PosOf(s, ItOf(s, t.pos)) == t.pos
  {
  }

  lemma AdvanceSound(c: Cache, n: Node, keys: seq<AppKey>, comp: seq<Element>, ans: Answer)
    requires Poised(c, n, keys, comp) && Iterates(c.state) && WellConfigured(n, comp, keys)
    requires c.ever ==> !Turn(ShapeOf(c.state, n, keys, comp), PosOf(c.state, c.it)).done
    ensures var o := Advance(c, n, keys, ans);
            Replied(o, n, keys, comp, ans) && o.n == n && (Over(o.c, comp) || o.cmd.Some?)
  {
    hide Send, Guard, ShapeOf, WellConfigured, Turn;
    TurnReady(c.state, c.it, n, comp, keys);
    var t := Turn(ShapeOf(c.state, n, keys, comp), PosOf(c.state, c.it));
    if !t.done {
      SendPosts(c.(it := ItOf(c.state, t.pos)), n, keys, comp, ans);
    }
  }

  lemma FeatureSetSound(n: Node, keys: seq<AppKey>, comp: seq<Element>, which: nat)
    requires WellConfigured(n, comp, keys) && Bit(Diff(n), which)
    ensures WellConfigured(FeatureSet(n, which), comp, keys)
    ensures Diff(FeatureSet(n, which)) != 0 ==> Ready(SET_CONFIG, ORIGIN, comp, FeatureSet(n, which), keys)
  {
    var n' := FeatureSet(n, which);
    FeatureSetClears(n, which);
    forall b: nat | Bit(Diff(n'), b)
      ensures Settable(b) && FeatureArgs(n'.cfg, b).Some?
    {
      ClrBitBits(Diff(n), which, b);
      assert Bit(Diff(n), b);
    }
    if Diff(n') != 0 {
      assert NextFeature(n').Cmd?;
    }
  }

  lemma FeatureSound(c: Cache, n: Node, keys: seq<AppKey>, comp: seq<Element>, which: nat, ans: Answer)
    requires Poised(c, n, keys, comp) && c.state == SET_CONFIG && !c.ever && WellConfigured(n, comp, keys)
    requires Bit(Diff(n), which)
    ensures Replied(OnSuccess(c, n, keys, which, ans), n, keys, comp, ans)
  {
    hide WellConfigured, CommandFor, Bit;
    var n' := FeatureSet(n, which);
    FeatureSetSound(n, keys, comp, which);
    if Diff(n') != 0 {
      SendPosts(c, n', keys, comp, ans);
      hide Send;
    }
  }

  lemma SuccessSound(c: Cache, n: Node, keys: seq<AppKey>, comp: seq<Element>, which: nat, ans: Answer)
    requires Poised(c, n, keys, comp) && !c.ever && WellConfigured(n, comp, keys) && OneErrorBit(n.err)
    requires c.state == GET_DCD ==> c.dcd == comp
    requires c.state == SET_CONFIG ==> Bit(Diff(n), which)
    ensures Replied(OnSuccess(c, n, keys, which, ans), n, keys, comp, ans)
  {
    if c.state == GET_DCD {
      OneBitResumes(n.err);
    } else if c.state == SET_CONFIG {
      FeatureSound(c, n, keys, comp, which, ans);
    } else if c.state != RM {
      AdvanceSound(c, n, keys, comp, ans);
    }
  }

  /** The slot right after its terminal event was taken in. */
  function Heard(c: Cache): Cache {
    c.(armed := false, wait := false)
  }

  /** A timeout report is followed by a resend while retries are left, and by the end otherwise. */
  lemma TimeoutSound(c: Cache, n: Node, keys: seq<AppKey>, comp: seq<Element>, which: nat, ans: Answer)
    requires Active(c, n, keys, comp) && c.wait && WellConfigured(n, comp, keys)
    ensures Replied(Handle(c, n, keys, which, Timeout, ans), n, keys, comp, ans)
  {
    hide CommandFor, Guard, WellConfigured;
    var r := OnTimeoutReport(Heard(c));
    if c.ever && c.remaining == 0 {
      SetBitOfZero(c.state);
    } else {
      TimeoutRetrySound(r, n, keys, comp, ans);
      hide Retry;
    }
  }

  /** The last model without room, reported after a retry: the work is over, and yet the
      timeout resend is made from the first position of the state. */
  lemma StrandedForm(c: Cache, n: Node, keys: seq<AppKey>, comp: seq<Element>, which: nat, ans: Answer)
    requires Active(c, n, keys, comp) && c.wait && c.state == ADD_SUB && c.ever && WellConfigured(n, comp, keys)
    requires TurnModel(ShapeOf(ADD_SUB, n, keys, comp), c.it).done
    ensures Handle(c, n, keys, which, InsufficientResources, ans)
         == Retry(Heard(c).(it := ORIGIN, next := TO_NEXT), n, keys, OnTimeout, ans)
    ensures Ready(ADD_SUB, ORIGIN, comp, n, keys)
  {
  }

  /** The model without room is passed over like an acknowledged one. */
  lemma NoRoomForm(c: Cache, n: Node, keys: seq<AppKey>, comp: seq<Element>, which: nat, ans: Answer)
    requires Active(c, n, keys, comp) && c.wait && c.state == ADD_SUB && WellConfigured(n, comp, keys)
    requires c.ever ==> !TurnModel(ShapeOf(ADD_SUB, n, keys, comp), c.it).done
    ensures var o := Advance(Heard(c).(it := c.it.(k := |n.cfg.sublist| - 1)), n, keys, ans);
            Handle(c, n, keys, which, InsufficientResources, ans) == o && Replied(o, n, keys, comp, ans)
  {
    hide CommandFor, Guard, WellConfigured, Advance;
    SkippedIsPoised(c, n, keys, comp);
    AdvanceSound(Heard(c).(it := c.it.(k := |n.cfg.sublist| - 1)), n, keys, comp, ans);
  }

  lemma StrandedRefused(c: Cache, n: Node, keys: seq<AppKey>, comp: seq<Element>)
    requires Active(c, n, keys, comp) && c.wait && c.state == ADD_SUB && c.ever && WellConfigured(n, comp, keys)
    requires Ready(ADD_SUB, ORIGIN, comp, n, keys)
    ensures Replied(Retry(Heard(c).(it := ORIGIN, next := TO_NEXT), n, keys, OnTimeout, Refused), n, keys, comp,
            Refused)
  {
  }

  lemma NoRoomSound(c: Cache, n: Node, keys: seq<AppKey>, comp: seq<Element>, which: nat, ans: Answer)
    requires Active(c, n, keys, comp) && c.wait && c.state == ADD_SUB && WellConfigured(n, comp, keys)
    requires c.ever && !ans.Refused? ==> !TurnModel(ShapeOf(ADD_SUB, n, keys, comp), c.it).done
    ensures Replied(Handle(c, n, keys, which, InsufficientResources, ans), n, keys, comp, ans)
  {
    var last := TurnModel(ShapeOf(ADD_SUB, n, keys, comp), c.it).done;
    hide CommandFor, Guard, WellConfigured, Advance, TurnModel, Handle, Retry, Replied, Ready;
    if c.ever && last {
      StrandedForm(c, n, keys, comp, which, ans);
      StrandedRefused(c, n, keys, comp);
    } else {
      NoRoomForm(c, n, keys, comp, which, ans);
    }
  }

  lemma SkippedIsPoised(c: Cache, n: Node, keys: seq<AppKey>, comp: seq<Element>)
    requires Active(c, n, keys, comp) && c.wait && c.state == ADD_SUB && WellConfigured(n, comp, keys)
    ensures var c1 := Heard(c).(it := c.it.(k := |n.cfg.sublist| - 1));
            Poised(c1, n, keys, comp)
            && Turn(ShapeOf(ADD_SUB, n, keys, comp), c1.it) == TurnModel(ShapeOf(ADD_SUB, n, keys, comp), c.it)
  {
  }

  lemma SuccessHandled(c: Cache, n: Node, keys: seq<AppKey>, comp: seq<Element>, which: nat, st: Status, ans: Answer)
    requires Active(c, n, keys, comp) && c.wait && WellConfigured(n, comp, keys) && OneErrorBit(n.err)
    requires st == Success || (st == NotInitialized && c.state == SET_PUB)
    requires c.state == GET_DCD && st == Success ==> c.dcd == comp
    requires c.state == SET_CONFIG ==> Bit(Diff(n), which)
    ensures Replied(Handle(c, n, keys, which, st, ans), n, keys, comp, ans)
  {
    hide CommandFor, Guard, WellConfigured, OnSuccess;
    SuccessSound(Heard(c).(ever := false, remaining := 0), n, keys, comp, which, ans);
  }

  lemma ErrorHandled(c: Cache, n: Node, keys: seq<AppKey>, comp: seq<Element>, which: nat, st: Status, ans: Answer)
    requires Active(c, n, keys, comp) && c.wait && WellConfigured(n, comp, keys)
    requires st != Success && st != Timeout
    requires st == NotInitialized ==> c.state != SET_PUB
    requires st == InsufficientResources ==> c.state != ADD_SUB
    ensures Replied(Handle(c, n, keys, which, st, ans), n, keys, comp, ans)
  {
    SetBitOfZero(c.state);
  }

  lemma ReplySound(c: Cache, n: Node, keys: seq<AppKey>, comp: seq<Element>, which: nat, st: Status, ans: Answer)
    requires Active(c, n, keys, comp) && c.wait && WellConfigured(n, comp, keys) && OneErrorBit(n.err)
    requires c.state == GET_DCD && st == Success ==> c.dcd == comp
    requires c.state == SET_CONFIG ==> Bit(Diff(n), which)
    requires st == InsufficientResources && c.state == ADD_SUB && c.ever && !ans.Refused? ==>
               !TurnModel(ShapeOf(ADD_SUB, n, keys, comp), c.it).done
    ensures Replied(Handle(c, n, keys, which, st, ans), n, keys, comp, ans)
  {
    hide Handle, WellConfigured;
    if st == Success || (st == NotInitialized && c.state == SET_PUB) {
      SuccessHandled(c, n, keys, comp, which, st, ans);
    } else if st == Timeout {
      TimeoutSound(c, n, keys, comp, which, ans);
    } else if st == InsufficientResources && c.state == ADD_SUB {
      NoRoomSound(c, n, keys, comp, which, ans);
    } else {
      ErrorHandled(c, n, keys, comp, which, st, ans);
    }
  }

  /* The invariant over all runs */

  /** A session that waits is active, and the command due is the one at its iterators. */
  lemma Awaiting(s: Session, keys: seq<AppKey>)
    requires Sound(s, keys) && s.w.out.Some?
    ensures Active(s.c, s.n, keys, s.w.comp) && s.c.wait
    ensures s.w.out == Some(GetDcd) <==> s.c.state == GET_DCD
    ensures s.c.state == SET_CONFIG ==> s.w.out.value.Feature? && Bit(Diff(s.n), s.w.out.value.which)
  {
  }

  lemma RepliedIsSound(s: Session, o: Out, w: World, ans: Answer, keys: seq<AppKey>)
    requires Replied(o, s.n, keys, s.w.comp, ans) && OneErrorBit(s.n.err)
    requires w.comp == s.w.comp && w.out.None?
    ensures Sound(Session(o.c, o.n, Deliver(w, o.cmd, ans)), keys)
  {
  }

  lemma ReplyStepSound(s: Session, st: Status, effect: bool, ans: Answer, keys: seq<AppKey>)
    requires Sound(s, keys) && Legal(s, Reply(st, effect, ans)) && Benign(s, Reply(st, effect, ans), keys)
    ensures Works(s.c.state)
    ensures Step(s, Reply(st, effect, ans), keys).ok
    ensures Sound(Step(s, Reply(st, effect, ans), keys).s, keys)
  {
    Awaiting(s, keys);
    var cmd := s.w.out.value;
    var w := Settle(s.w, effect || st == Success);
    ReplySound(s.c, s.n, keys, s.w.comp, WhichOf(cmd), st, ans);
    hide Sound, Replied, Handle;
    RepliedIsSound(s, Handle(s.c, s.n, keys, WhichOf(cmd), st, ans), w.(log := w.log + [Got(cmd, st)]), ans, keys);
  }

  lemma PassStepSound(s: Session, timeUp: bool, ans: Answer, effect: bool, keys: seq<AppKey>)
    requires Sound(s, keys) && s.c.node.Some?
    requires Benign(s, EnginePass(timeUp, ans, effect), keys)
    ensures Step(s, EnginePass(timeUp, ans, effect), keys).ok
    ensures Sound(Step(s, EnginePass(timeUp, ans, effect), keys).s, keys)
  {
    hide CommandFor, Guard, Pass, OneErrorBit;
    PassSound(s, keys, timeUp, ans);
    var o := Pass(s.c, s.n, keys, timeUp, ans);
    assert Diff(o.n) == Diff(s.n);
    assert WellConfigured(o.n, s.w.comp, keys);
    hide WellConfigured;
  }

  /** Every step the NCP and a device may take keeps a session sound, and on no step
      does an ASSERT fire or an index leave its array. */
  lemma StepSound(s: Session, act: Act, keys: seq<AppKey>)
    requires Sound(s, keys) && Legal(s, act) && Benign(s, act, keys)
    ensures act.Reply? ==> Works(s.c.state)
    ensures Step(s, act, keys).ok
    ensures Sound(Step(s, act, keys).s, keys)
  {
    match act {
      case Load(id, removing) =>
      case EnginePass(timeUp, ans, effect) => PassStepSound(s, timeUp, ans, effect, keys);
      case Page => Awaiting(s, keys);
      case Reply(st, effect, ans) => ReplyStepSound(s, st, effect, ans, keys);
    }
  }
}
