/** Every step of a session keeps its place good: commands are sent in order, and what a
    run and the runs after it have completed stays complete. */
module SessionProgress {
  import opened Bits
  import opened Odometer
  import opened Mesh
  import opened Slot
  import opened Session
  import opened SessionSound
  import opened Progress

  predicate ConfigRun(c: Cache) {
    c != EMPTY && c.state < END
  }

  /** The invariant of the configuration: the log is in order, and unless the device was
      reset the place is good, the features are set, and a node marked done is complete. */
  ghost predicate Progressing(s: Session, keys: seq<AppKey>) {
    && Ordered(s.w.log)
    && (ConfigRun(s.c) ==> !s.w.dev.wiped && !s.n.done)
    && (!s.w.dev.wiped ==>
          && Good(PlaceOf(s.c, s.n), s.n, keys, s.w)
          && FeaturesSet(s.n, s.w)
          && (s.n.done ==> CompleteBelow(END, s.n, keys, s.w)))
  }

  /** Places look at the configuration and the feature bits of a node only. */
  lemma SameNode(pl: Place, n: Node, n': Node, keys: seq<AppKey>, w: World)
    requires n'.cfg == n.cfg && n'.current == n.current
    requires Good(pl, n, keys, w)
    ensures Good(pl, n', keys, w)
  {
    assert n' == n.(err := n'.err, done := n'.done);
    forall s, p | Iterates(s) && On(ShapeOf(s, n, keys, w.comp), p) && ItemDone(s, p, n, keys, w)
      ensures On(ShapeOf(s, n', keys, w.comp), p) && ItemDone(s, p, n', keys, w)
    {
      SameItems(s, p, n, n', keys, w.comp);
    }
    forall s | Iterates(s)
      ensures ShapeOf(s, n', keys, w.comp) == ShapeOf(s, n, keys, w.comp)
    {
      SameItems(s, ORIGIN, n, n', keys, w.comp);
    }
    forall t | ADD_APPKEY <= t <= SET_CONFIG && Complete(t, n, keys, w)
      ensures Complete(t, n', keys, w)
    {
    }
  }

  lemma SameItems(s: int, p: Pos, n: Node, n': Node, keys: seq<AppKey>, comp: seq<Element>)
    requires n'.cfg == n.cfg && Iterates(s)
    ensures ShapeOf(s, n', keys, comp) == ShapeOf(s, n, keys, comp)
    ensures ItemAt(s, p, n', keys, comp) == ItemAt(s, p, n, keys, comp)
  {
  }

  /** A failure under the bit of state b leaves a node whose next run leaves nothing out. */
  lemma FailurePlace(b: nat, n: Node, keys: seq<AppKey>, w: World)
    requires b <= RM && (b <= SET_CONFIG ==> Good(Before(b), n, keys, w))
    ensures Good(PlaceOf(EMPTY, n.(err := Pow2(b))), n.(err := Pow2(b)), keys, w)
  {
    ResumeAtTheBit(Pow2(b), b);
    assert FirstState(Pow2(b)) <= ADD_APPKEY || FirstState(Pow2(b)) == b;
    assert Good(Before(FirstState(Pow2(b))), n, keys, w);
    SameNode(Before(FirstState(Pow2(b))), n, n.(err := Pow2(b)), keys, w);
  }

  /* An engine pass */

  /** Entering states from s on: states passed over are complete, the first command of the
      state entered is justified, and the end is reached with nothing left out. */
  lemma {:induction false} EnterProgress(s: int, c: Cache, n: Node, keys: seq<AppKey>, w: World, ans: Answer)
    requires ADD_APPKEY <= s <= END && GET_DCD <= c.state <= SET_CONFIG
    requires c.node.Some? && NoFlags(c) && !Failed(c) && c.it == ORIGIN && c.dcd == w.comp
    requires WellConfigured(n, w.comp, keys) && Good(Before(s), n, keys, w)
    ensures var o := Enter(s, c, n, keys, ans);
            && (o.cmd.Some? ==> Justified(w.log, Sent(o.cmd.value)))
            && (!Ended(o.c) ==> Good(PlaceOf(o.c, n), n, keys, w))
            && (Ended(o.c) ==> o.c.state == END && (!Failed(o.c) ==> CompleteBelow(END, n, keys, w)))
    decreases RM_END - s
  {
    EnterSound(s, c, n, keys, w.comp, ans);
    if s < END {
      GoodEnters(s, n, keys, w);
      if !Guard(s, n) {
        EnterProgress(s + 1, c, n, keys, w, ans);
      } else {
        hide WellConfigured, Good, CompleteBelow, Guard;
        EnterHere(s, c, n, keys, w, ans);
      }
    }
  }

  lemma EnterHere(s: int, c: Cache, n: Node, keys: seq<AppKey>, w: World, ans: Answer)
    requires ADD_APPKEY <= s < END && GET_DCD <= c.state <= SET_CONFIG
    requires c.node.Some? && NoFlags(c) && !Failed(c) && c.it == ORIGIN && c.dcd == w.comp
    requires WellConfigured(n, w.comp, keys) && Guard(s, n) && Good(Before(s), n, keys, w)
    requires Iterates(s) ==> Good(At(s, ORIGIN), n, keys, w)
    ensures var o := Enter(s, c, n, keys, ans);
            && (o.cmd.Some? ==> Justified(w.log, Sent(o.cmd.value)))
            && (!Ended(o.c) ==> Good(PlaceOf(o.c, n), n, keys, w))
            && (Ended(o.c) ==> o.c.state == END && Failed(o.c))
  {
    ReadyAtOrigin(s, c.dcd, n, w.comp, keys);
    SetBitOfZero(c.state);
    if Iterates(s) {
      SendsJustified(s, PosOf(s, ORIGIN), n, keys, w, CommandFor(s, ORIGIN, c.dcd, n, keys).cmd);
    }
    hide CommandFor, WellConfigured, Good, Guard, Justified;
    assert Pow2(c.state) > 0;
  }

  /** The command at a position is the one of its place. */
  lemma PlaceIsCommand(s: Session, keys: seq<AppKey>)
    requires Sound(s, keys) && s.w.out.Some? && ConfigRun(s.c)
    ensures s.c.state == GET_DCD ==> s.w.out == Some(GetDcd) && PlaceOf(s.c, s.n) == Before(FirstState(s.n.err))
    ensures s.c.state == SET_CONFIG ==> s.w.out.value.Feature? && PlaceOf(s.c, s.n) == Before(SET_CONFIG)
    ensures Iterates(s.c.state) ==>
              && PlaceOf(s.c, s.n) == At(s.c.state, PosOf(s.c.state, s.c.it))
              && ItemAt(s.c.state, PosOf(s.c.state, s.c.it), s.n, keys, s.w.comp) == Cmd(s.w.out.value)
  {
  }

  /** Features on the device are no part of a place. */
  lemma FeatureKeepsPlace(pl: Place, n: Node, keys: seq<AppKey>, w: World, which: nat, args: seq<int>)
    requires Good(pl, n, keys, w)
    ensures Good(pl, n, keys, w.(dev := Apply(w.dev, Feature(which, args))))
  {
    var w' := w.(dev := Apply(w.dev, Feature(which, args)));
    forall s, p | Iterates(s) && On(ShapeOf(s, n, keys, w.comp), p) && ItemDone(s, p, n, keys, w)
      ensures ItemDone(s, p, n, keys, w')
    {
    }
    forall t | ADD_APPKEY <= t <= SET_CONFIG && Complete(t, n, keys, w)
      ensures Complete(t, n, keys, w')
    {
    }
  }

  /** The device as the command due leaves it, whether or not it was carried out. */
  lemma SettleProgress(s: Session, effect: bool, keys: seq<AppKey>)
    requires Sound(s, keys) && Progressing(s, keys) && ConfigRun(s.c)
    ensures var w := Settle(s.w, effect);
            !w.dev.wiped && Good(PlaceOf(s.c, s.n), s.n, keys, w) && FeaturesSet(s.n, w)
  {
    var w := Settle(s.w, effect);
    if effect && s.w.out.Some? {
      PlaceIsCommand(s, keys);
      Awaiting(s, keys);
      var w0 := s.w.(dev := w.dev);
      if Iterates(s.c.state) {
        GoodApplies(s.c.state, PosOf(s.c.state, s.c.it), s.n, keys, s.w, s.w.out.value);
      } else if s.c.state == SET_CONFIG {
        FeatureKeepsPlace(PlaceOf(s.c, s.n), s.n, keys, s.w, s.w.out.value.which, s.w.out.value.args);
      }
      GoodGrows(PlaceOf(s.c, s.n), s.n, keys, w0, w);
    } else {
      GoodGrows(PlaceOf(s.c, s.n), s.n, keys, s.w, w);
    }
  }

  /** What a step leaves, once the command it may send is entered in the log. */
  lemma DeliverProgress(c: Cache, n: Node, w: World, cmd: Option<Command>, ans: Answer, keys: seq<AppKey>)
    requires Progressing(Session(c, n, w), keys)
    requires cmd.Some? ==> Justified(w.log, Sent(cmd.value))
    ensures Progressing(Session(c, n, Deliver(w, cmd, ans)), keys)
  {
    if cmd.Some? {
      OrderedGrows(w.log, Sent(cmd.value));
      if !w.dev.wiped {
        GoodGrows(PlaceOf(c, n), n, keys, w, Deliver(w, cmd, ans));
        if n.done {
          GoodGrows(Before(END), n, keys, w, Deliver(w, cmd, ans));
        }
      }
    }
  }

  /** A pass releases a slot under the bit of its state, or with success from the end state. */
  lemma ReleaseProgress(c: Cache, n: Node, n': Node, w: World, keys: seq<AppKey>)
    requires ConfigRun(c) && c.state <= RM
    requires Ordered(w.log) && !w.dev.wiped && FeaturesSet(n, w)
    requires
      || (n' == n.(err := Pow2(c.state)) && Good(Before(c.state), n, keys, w) && !n.done)
      || (n' == n.(err := 0, done := true) && CompleteBelow(END, n, keys, w))
    ensures Progressing(Session(EMPTY, n', w), keys)
  {
    assert FeaturesSet(n', w);
    if n' == n.(err := Pow2(c.state)) {
      FailurePlace(c.state, n, keys, w);
    } else {
      SameNode(Before(END), n, n', keys, w);
      assert FirstState(0) == ADD_APPKEY;
    }
  }

  /** Places of a slot that sends again or fails under its state. */
  lemma ResendPlace(c: Cache, o: Out, n: Node, keys: seq<AppKey>, w: World)
    requires Active(c, n, keys, w.comp) && ConfigRun(c) && Good(PlaceOf(c, n), n, keys, w)
    requires o.c.state == c.state && o.c.node == c.node
             && ((o.c.next == c.next && o.c.it == c.it && !Failed(o.c)) || Faulted(o.c))
    ensures Good(PlaceOf(o.c, n), n, keys, w)
    ensures Good(Before(c.state), n, keys, w)
  {
  }

  lemma CommandJustified(c: Cache, n: Node, keys: seq<AppKey>, w: World, cmd: Command)
    requires Active(c, n, keys, w.comp) && Good(PlaceOf(c, n), n, keys, w) && WellConfigured(n, w.comp, keys)
    requires CommandFor(c.state, c.it, c.dcd, n, keys) == Cmd(cmd)
    ensures Justified(w.log, Sent(cmd))
  {
    if Iterates(c.state) {
      SendsJustified(c.state, PosOf(c.state, c.it), n, keys, w, cmd);
    }
  }

  /** The pass over an active slot of a configuration run. */
  lemma ActiveProgress(c: Cache, n: Node, w: World, timeUp: bool, ans: Answer, keys: seq<AppKey>)
    requires Active(c, n, keys, w.comp) && ConfigRun(c) && !n.done
    requires WellConfigured(n, w.comp, keys) && Ordered(w.log) && !w.dev.wiped
    requires Good(PlaceOf(c, n), n, keys, w) && FeaturesSet(n, w)
    requires !(GuardFires(c, timeUp) && ans.OutOfMemory?)
    ensures var o := Pass(c, n, keys, timeUp, ans);
            && (o.cmd.Some? ==> Justified(w.log, Sent(o.cmd.value)))
            && Progressing(Session(o.c, o.n, w), keys)
  {
    hide CommandFor, WellConfigured, Good, Guard, Justified, FeaturesSet, Retry;
    if GuardFires(c, timeUp) || c.oom {
      var reason := if GuardFires(c, timeUp) then OnGuardTimer else OnOom;
      var r := Retry(c, n, keys, reason, ans);
      RetryForm(c, n, keys, w.comp, reason, ans);
      ResendPlace(c, r, n, keys, w);
      CommandJustified(c, n, keys, w, r.cmd.value);
      if ans.Refused? {
        FaultedEnds(r.c, n, keys, ans);
        ReleaseProgress(c, n, n.(err := Pow2(c.state)), w, keys);
      }
    }
  }

  /** A resend leaves the position alone and sends the command at it. */
  lemma RetryForm(c: Cache, n: Node, keys: seq<AppKey>, comp: seq<Element>, reason: Reason, ans: Answer)
    requires Active(c, n, keys, comp)
    requires reason == OnOom ==> c.oom
    requires reason == OnGuardTimer ==> c.armed && !ans.OutOfMemory?
    requires reason != OnTimeout
    ensures var r := Retry(c, n, keys, reason, ans);
            && r.ok && r.n == n && r.cmd.Some? && CommandFor(c.state, c.it, c.dcd, n, keys) == Cmd(r.cmd.value)
            && r.c.state == c.state && r.c.node == c.node
            && (if ans.Refused? then Faulted(r.c)
                else r.c.next == c.next && r.c.it == c.it && !Failed(r.c) && (r.c.wait || r.c.oom))
  {
    hide CommandFor, Guard;
    SetBitOfZero(c.state);
  }

  /** A pass over a slot without flags only enters the next state. */
  lemma PassEnters(c: Cache, n: Node, timeUp: bool, ans: Answer, keys: seq<AppKey>)
    requires NoFlags(c) && c.next != c.state && Movable(c)
    ensures var o := ToNextState(c, n, keys, ans);
            Pass(c, n, keys, timeUp, ans) ==
            if o.ok && Ended(o.c) then PassOut(EMPTY, o.n, o.cmd, Freed(Failed(o.c)), true)
                else PassOut(o.c, o.n, o.cmd, Kept, o.ok)
  {
  }

  /** The pass over a slot whose state is over. */
  lemma OverProgress(c: Cache, n: Node, w: World, timeUp: bool, ans: Answer, keys: seq<AppKey>)
    requires Over(c, w.comp) && ConfigRun(c) && !n.done && OneErrorBit(n.err)
    requires WellConfigured(n, w.comp, keys) && Ordered(w.log) && !w.dev.wiped
    requires Good(PlaceOf(c, n), n, keys, w) && FeaturesSet(n, w)
    ensures var o := Pass(c, n, keys, timeUp, ans);
            && (o.cmd.Some? ==> Justified(w.log, Sent(o.cmd.value)))
            && Progressing(Session(o.c, o.n, w), keys)
  {
    var s := if c.next == TO_NEXT then c.state + 1 else c.next;
    assert PlaceOf(c, n) == Before(s);
    assert Good(Before(c.state), n, keys, w);
    EnterProgress(s, c, n, keys, w, ans);
    EnterSound(s, c, n, keys, w.comp, ans);
    PassEnters(c, n, timeUp, ans, keys);
    hide WellConfigured, Good, Guard, Justified, FeaturesSet, Enter, CompleteBelow, Active, Ordered, OneErrorBit, Pass;
    var o := Enter(s, c, n, keys, ans);
    if Ended(o.c) {
      ReleaseProgress(c, n, o.n, w, keys);
    }
  }

  /** The first pass over a node just loaded sends Get DCD. */
  lemma FreshProgress(c: Cache, n: Node, w: World, timeUp: bool, ans: Answer, keys: seq<AppKey>)
    requires c.node.Some? && c == LoadSlot(c.node.value, false) && !n.done
    requires WellConfigured(n, w.comp, keys) && Ordered(w.log) && !w.dev.wiped
    requires Good(PlaceOf(c, n), n, keys, w) && FeaturesSet(n, w)
    ensures var o := Pass(c, n, keys, timeUp, ans);
            && (o.cmd.Some? ==> Justified(w.log, Sent(o.cmd.value)))
            && Progressing(Session(o.c, o.n, w), keys)
  {
    assert n.cfg.addr != 0;
    assert Good(Before(PROVISIONED), n, keys, w);
    hide WellConfigured, Good, FeaturesSet, Ordered;
    SetBitOfZero(PROVISIONED);
    var o := Pass(c, n, keys, timeUp, ans);
    if ans.Refused? {
      ErrWordIs(c, Fail(c, true, END), true);
      ReleaseProgress(c, n, o.n, w, keys);
    } else {
      assert PlaceOf(o.c, o.n) == PlaceOf(c, n);
    }
  }

  /** What a pass over a node being removed may do. */
  predicate RemovalForm(o: PassOut, n: Node) {
    && (o.cmd.Some? ==> o.cmd.value == Reset)
    && if o.release.Freed? then
      && o.c == EMPTY
      && (o.n == n.(err := Pow2(END)) || o.n == n.(err := Pow2(RM)) || o.n == n.(err := 0, done := false))
    else o.n == n && o.c.state >= END
  }

  lemma RemovalStarts(c: Cache, n: Node, timeUp: bool, ans: Answer, keys: seq<AppKey>)
    requires c.node.Some? && c == LoadSlot(c.node.value, true) && n.cfg.addr != 0
    ensures RemovalForm(Pass(c, n, keys, timeUp, ans), n)
  {
    SetBitOfZero(END);
    if ans.Refused? {
      ErrWordIs(c, Fail(c, true, RM_END), true);
    }
  }

  lemma RemovalResends(c: Cache, n: Node, comp: seq<Element>, timeUp: bool, ans: Answer, keys: seq<AppKey>)
    requires Active(c, n, keys, comp) && c.state == RM
    requires !(GuardFires(c, timeUp) && ans.OutOfMemory?)
    ensures RemovalForm(Pass(c, n, keys, timeUp, ans), n)
  {
    hide Retry, CommandFor, Guard;
    if GuardFires(c, timeUp) || c.oom {
      var reason := if GuardFires(c, timeUp) then OnGuardTimer else OnOom;
      RetryForm(c, n, keys, comp, reason, ans);
      assert CommandFor(RM, c.it, c.dcd, n, keys) == Cmd(Reset) by {
        RemovalCommand(c, n, keys);
      }
      if ans.Refused? {
        FaultedEnds(Retry(c, n, keys, reason, ans).c, n, keys, ans);
      }
    }
  }

  lemma RemovalCommand(c: Cache, n: Node, keys: seq<AppKey>)
    ensures CommandFor(RM, c.it, c.dcd, n, keys) == Cmd(Reset)
  {
  }

  lemma RemovalPasses(c: Cache, n: Node, comp: seq<Element>, timeUp: bool, ans: Answer, keys: seq<AppKey>)
    requires InUse(c, n, keys, comp) && c.state >= END && n.cfg.addr != 0
    requires !(GuardFires(c, timeUp) && ans.OutOfMemory?)
    ensures RemovalForm(Pass(c, n, keys, timeUp, ans), n)
  {
    if Faulted(c) {
      FaultedEnds(c, n, keys, ans);
      hide ToNextState;
    } else if Active(c, n, keys, comp) {
      hide Pass;
      RemovalResends(c, n, comp, timeUp, ans, keys);
    } else if c.state == END {
      hide Pass;
      RemovalStarts(c, n, timeUp, ans, keys);
    }
  }

  /** The pass over a node being removed claims nothing more about the device. */
  lemma RemovalProgress(c: Cache, n: Node, o: PassOut, w: World, keys: seq<AppKey>)
    requires Progressing(Session(c, n, w), keys) && c.state >= END
    requires RemovalForm(o, n)
    ensures Progressing(Session(o.c, o.n, w), keys)
  {
    if o.release.Freed? && !w.dev.wiped {
      ResumeAtTheBit(Pow2(END), END);
      ResumeAtTheBit(Pow2(RM), RM);
      assert FirstState(o.n.err) == ADD_APPKEY;
      assert Good(Before(ADD_APPKEY), o.n, keys, w);
      if o.n.done {
        SameNode(Before(END), n, o.n, keys, w);
      }
    }
  }

  lemma FaultProgress(c: Cache, n: Node, w: World, timeUp: bool, ans: Answer, keys: seq<AppKey>)
    requires Faulted(c) && ConfigRun(c) && !n.done
    requires Ordered(w.log) && !w.dev.wiped
    requires Good(PlaceOf(c, n), n, keys, w) && FeaturesSet(n, w)
    ensures Pass(c, n, keys, timeUp, ans).cmd.None?
    ensures Progressing(Session(Pass(c, n, keys, timeUp, ans).c, Pass(c, n, keys, timeUp, ans).n, w), keys)
  {
    FaultedEnds(c, n, keys, ans);
    hide ToNextState;
    assert Failed(c) && PlaceOf(c, n) == Before(c.state);
    ReleaseProgress(c, n, n.(err := Pow2(c.state)), w, keys);
  }

  /** The pass over any slot of a configuration run. */
  lemma ConfigPassProgress(c: Cache, n: Node, w: World, timeUp: bool, ans: Answer, keys: seq<AppKey>)
    requires InUse(c, n, keys, w.comp) && ConfigRun(c) && !n.done && OneErrorBit(n.err)
    requires WellConfigured(n, w.comp, keys) && Ordered(w.log) && !w.dev.wiped
    requires Good(PlaceOf(c, n), n, keys, w) && FeaturesSet(n, w)
    requires !(GuardFires(c, timeUp) && ans.OutOfMemory?)
    ensures var o := Pass(c, n, keys, timeUp, ans);
            && (o.cmd.Some? ==> Justified(w.log, Sent(o.cmd.value)))
            && Progressing(Session(o.c, o.n, w), keys)
  {
    hide Pass, WellConfigured, Good, FeaturesSet, OneErrorBit, Ordered, Progressing;
    if Faulted(c) {
      FaultProgress(c, n, w, timeUp, ans, keys);
    } else if Active(c, n, keys, w.comp) {
      ActiveProgress(c, n, w, timeUp, ans, keys);
    } else if Over(c, w.comp) {
      OverProgress(c, n, w, timeUp, ans, keys);
    } else {
      FreshProgress(c, n, w, timeUp, ans, keys);
    }
  }

  lemma SettledRemoval(s: Session, effect: bool, keys: seq<AppKey>)
    requires Sound(s, keys) && Progressing(s, keys) && s.c.state >= END
    ensures Progressing(s.(w := Settle(s.w, effect)), keys)
  {
    var w := Settle(s.w, effect);
    if !w.dev.wiped {
      if s.w.out.Some? {
        Awaiting(s, keys);
        assert w.dev == s.w.dev;
      }
      GoodGrows(PlaceOf(s.c, s.n), s.n, keys, s.w, w);
      if s.n.done {
        GoodGrows(Before(END), s.n, keys, s.w, w);
      }
    }
  }

  lemma PassStepProgress(s: Session, timeUp: bool, ans: Answer, effect: bool, keys: seq<AppKey>)
    requires Sound(s, keys) && Progressing(s, keys) && s.c.node.Some?
    requires !(GuardFires(s.c, timeUp) && ans.OutOfMemory?)
    ensures Progressing(Step(s, EnginePass(timeUp, ans, effect), keys).s, keys)
  {
    var w := if GuardFires(s.c, timeUp) then Settle(s.w, effect) else s.w;
    var o := Pass(s.c, s.n, keys, timeUp, ans);
    if ConfigRun(s.c) {
      SettleProgress(s, effect, keys);
      ConfigPassProgress(s.c, s.n, w, timeUp, ans, keys);
    } else {
      SettledRemoval(s, effect, keys);
      RemovalPasses(s.c, s.n, s.w.comp, timeUp, ans, keys);
      RemovalProgress(s.c, s.n, o, w, keys);
    }
    hide Pass, Progressing;
    DeliverProgress(o.c, o.n, w, o.cmd, ans, keys);
  }

  /* The terminal event of a command */

  /** What a callback leaves for the places: the command it sent is justified and its place good. */
  ghost predicate Placed(o: Out, keys: seq<AppKey>, w: World) {
    && (o.cmd.Some? ==> Justified(w.log, Sent(o.cmd.value)))
    && Good(PlaceOf(o.c, o.n), o.n, keys, w)
    && o.c != EMPTY && o.c.state < END
  }

  /** The iterators turned: the place follows them, or the command failed under its state. */
  lemma AdvancePlaced(c: Cache, n: Node, keys: seq<AppKey>, w: World, ans: Answer)
    requires Poised(c, n, keys, w.comp) && Iterates(c.state) && WellConfigured(n, w.comp, keys)
    requires var t := Turn(ShapeOf(c.state, n, keys, w.comp), PosOf(c.state, c.it));
             Good(if t.done then Before(c.state + 1) else At(c.state, t.pos), n, keys, w)
    ensures Placed(Advance(c, n, keys, ans), keys, w)
  {
    hide Send, Guard, ShapeOf, WellConfigured, Turn, ItemsBefore, Justified;
    TurnReady(c.state, c.it, n, w.comp, keys);
    var t := Turn(ShapeOf(c.state, n, keys, w.comp), PosOf(c.state, c.it));
    if !t.done {
      var c' := c.(it := ItOf(c.state, t.pos));
      SendPosts(c', n, keys, w.comp, ans);
      SendForm(c', n, keys, ans);
      SendsJustified(c.state, t.pos, n, keys, w, CommandFor(c.state, c'.it, c.dcd, n, keys).cmd);
    }
  }

  lemma SendForm(c: Cache, n: Node, keys: seq<AppKey>, ans: Answer)
    requires CommandFor(c.state, c.it, c.dcd, n, keys).Cmd?
    ensures var o := Send(c.state, c, n, keys, ans);
            o.cmd == Some(CommandFor(c.state, c.it, c.dcd, n, keys).cmd) && o.c.state == c.state && o.c.it == c.it
                && o.c.node == c.node
            && (ans.Refused? ==> o.c.next == FailTo(c.state)) && (!ans.Refused? ==> o.c.next == c.next)
            && o.n == n
  {
  }

  /** An acknowledged item moves the place on. */
  lemma AckPlaced(c: Cache, n: Node, keys: seq<AppKey>, w: World, cmd: Command, st: Status, ans: Answer)
    requires Poised(c, n, keys, w.comp) && Iterates(c.state) && WellConfigured(n, w.comp, keys)
    requires Good(At(c.state, PosOf(c.state, c.it)), n, keys, w)
    requires CommandFor(c.state, c.it, c.dcd, n, keys) == Cmd(cmd)
    requires Got(cmd, st) in w.log
    requires (st == Success && InEffect(w.dev, cmd)) || (st == NotInitialized && c.state == SET_PUB)
    requires c.state == ADD_SUB ==>
               NoRoom(w, KeyAt(w.comp, c.it)) || Subs(w.dev, KeyAt(w.comp, c.it)) == SetOf(n.cfg.sublist[..c.it.k + 1])
    ensures Placed(Advance(c, n, keys, ans), keys, w)
  {
    var p := PosOf(c.state, c.it);
    ItemsExist(c.state, n, w.comp, keys);
    if c.state == ADD_SUB {
      SubscriptionAdvances(p, n, keys, w);
    } else {
      assert ItemAt(c.state, p, n, keys, w.comp) == Cmd(cmd);
      assert ItemDone(c.state, p, n, keys, w);
      GoodAdvances(c.state, p, n, keys, w);
    }
    hide Good, Poised, WellConfigured, CommandFor, Advance, Placed, ItemDone, WellShaped;
    AdvancePlaced(c, n, keys, w, ans);
  }

  /** A callback that leaves the position alone, or fails, keeps the place. */
  lemma StayPlaced(c: Cache, o: Out, n: Node, keys: seq<AppKey>, w: World)
    requires Active(c, n, keys, w.comp) && ConfigRun(c) && Good(PlaceOf(c, n), n, keys, w)
             && WellConfigured(n, w.comp, keys)
    requires o.n == n && o.c.state == c.state && o.c.node == c.node
    requires (o.c.next == c.next && o.c.it == c.it && !Failed(o.c)) || Faulted(o.c)
    requires o.cmd.Some? ==> CommandFor(c.state, c.it, c.dcd, n, keys) == Cmd(o.cmd.value)
    ensures Placed(o, keys, w)
  {
    ResendPlace(c, o, n, keys, w);
    if o.cmd.Some? {
      CommandJustified(c, n, keys, w, o.cmd.value);
    }
  }

  lemma TimeoutForm(c: Cache, n: Node, keys: seq<AppKey>, comp: seq<Element>, which: nat, ans: Answer)
    requires Active(c, n, keys, comp) && c.wait && c.state < END
    ensures var o := Handle(c, n, keys, which, Timeout, ans);
            && o.n == n && o.c.state == c.state && o.c.node == c.node
            && ((o.c.next == c.next && o.c.it == c.it && !Failed(o.c)) || Faulted(o.c))
            && (o.cmd.Some? ==> CommandFor(c.state, c.it, c.dcd, n, keys) == Cmd(o.cmd.value))
  {
    hide CommandFor, Guard;
    SetBitOfZero(c.state);
  }

  /** A timeout resends the same command or fails; an error report fails. */
  lemma TimeoutPlaced(c: Cache, n: Node, keys: seq<AppKey>, w: World, which: nat, ans: Answer)
    requires Active(c, n, keys, w.comp) && c.wait && ConfigRun(c) && Good(PlaceOf(c, n), n, keys, w)
             && WellConfigured(n, w.comp, keys)
    ensures Placed(Handle(c, n, keys, which, Timeout, ans), keys, w)
  {
    TimeoutForm(c, n, keys, w.comp, which, ans);
    hide Handle, Good, WellConfigured, Active, Placed;
    StayPlaced(c, Handle(c, n, keys, which, Timeout, ans), n, keys, w);
  }

  lemma ErrorPlaced(c: Cache, n: Node, keys: seq<AppKey>, w: World, which: nat, st: Status, ans: Answer)
    requires Active(c, n, keys, w.comp) && c.wait && ConfigRun(c) && Good(PlaceOf(c, n), n, keys, w)
             && WellConfigured(n, w.comp, keys)
    requires st != Success && st != Timeout
    requires st == NotInitialized ==> c.state != SET_PUB
    requires st == InsufficientResources ==> c.state != ADD_SUB
    ensures Placed(Handle(c, n, keys, which, st, ans), keys, w)
  {
    SetBitOfZero(c.state);
    assert Handle(c, n, keys, which, st, ans) == Out(Fail(Heard(c), false, END), n, Suc, None, true);
    hide Handle, Good, WellConfigured;
    StayPlaced(c, Out(Fail(Heard(c), false, END), n, Suc, None, true), n, keys, w);
  }

  lemma DcdPlaced(c: Cache, n: Node, keys: seq<AppKey>, w: World, which: nat, ans: Answer)
    requires Active(c, n, keys, w.comp) && c.wait && c.state == GET_DCD && OneErrorBit(n.err)
    requires Good(Before(FirstState(n.err)), n, keys, w)
    ensures Placed(Handle(c, n, keys, which, Success, ans), keys, w)
  {
  }

  /** The iterating states without subscriptions. */
  lemma SuccessPlaced(c: Cache, n: Node, keys: seq<AppKey>, w: World, which: nat, cmd: Command, st: Status, ans: Answer)
    requires Active(c, n, keys, w.comp) && c.wait && Iterates(c.state) && WellConfigured(n, w.comp, keys)
    requires Good(At(c.state, PosOf(c.state, c.it)), n, keys, w)
    requires CommandFor(c.state, c.it, c.dcd, n, keys) == Cmd(cmd) && Got(cmd, st) in w.log
    requires (st == Success && InEffect(w.dev, cmd)) || (st == NotInitialized && c.state == SET_PUB)
    requires c.state == ADD_SUB ==>
               NoRoom(w, KeyAt(w.comp, c.it)) || Subs(w.dev, KeyAt(w.comp, c.it)) == SetOf(n.cfg.sublist[..c.it.k + 1])
    ensures Placed(Handle(c, n, keys, which, st, ans), keys, w)
  {
    var d := Heard(c).(ever := false, remaining := 0);
    hide Good, WellConfigured, CommandFor, Placed, Guard, Advance, ShapeOf, KeyAt, NoRoom;
    assert Poised(d, n, keys, w.comp);
    AckPlaced(d, n, keys, w, cmd, st, ans);
    AdvanceSound(d, n, keys, w.comp, ans);
    assert Handle(c, n, keys, which, st, ans) == Advance(d, n, keys, ans);
  }

  /** "Insufficient resources" excuses the model and turns to the next one. */
  lemma NoRoomTurns(c: Cache, n: Node, keys: seq<AppKey>, w: World, cmd: Command)
    requires Active(c, n, keys, w.comp) && c.wait && c.state == ADD_SUB && WellConfigured(n, w.comp, keys)
    requires Good(At(ADD_SUB, c.it), n, keys, w)
    requires CommandFor(c.state, c.it, c.dcd, n, keys) == Cmd(cmd) && Got(cmd, InsufficientResources) in w.log
    ensures var it := c.it.(k := |n.cfg.sublist| - 1);
            && On(ShapeOf(ADD_SUB, n, keys, w.comp), it)
            && var t := Turn(ShapeOf(ADD_SUB, n, keys, w.comp), it);
               Good(if t.done then Before(SET_CONFIG) else At(ADD_SUB, t.pos), n, keys, w)
  {
    var it := c.it.(k := |n.cfg.sublist| - 1);
    var k := KeyAt(w.comp, c.it);
    assert cmd == SetSub(k.0, k.1, n.cfg.sublist[c.it.k]) || cmd == AddSub(k.0, k.1, n.cfg.sublist[c.it.k]);
    assert NoRoom(w, k);
    NoRoomSkips(c.it, n, keys, w);
    ItemsExist(ADD_SUB, n, w.comp, keys);
    SubscriptionAdvances(it, n, keys, w);
  }

  lemma NoRoomPlaced(c: Cache, n: Node, keys: seq<AppKey>, w: World, which: nat, cmd: Command, ans: Answer)
    requires Active(c, n, keys, w.comp) && c.wait && c.state == ADD_SUB && WellConfigured(n, w.comp, keys)
    requires Good(At(ADD_SUB, c.it), n, keys, w)
    requires CommandFor(c.state, c.it, c.dcd, n, keys) == Cmd(cmd) && Got(cmd, InsufficientResources) in w.log
    requires c.ever ==> !TurnModel(ShapeOf(ADD_SUB, n, keys, w.comp), c.it).done
    ensures Placed(Handle(c, n, keys, which, InsufficientResources, ans), keys, w)
  {
    hide Good, WellConfigured, CommandFor, Placed, Guard, Advance, ShapeOf;
    var d := Heard(c).(it := c.it.(k := |n.cfg.sublist| - 1));
    NoRoomTurns(c, n, keys, w, cmd);
    SkippedIsPoised(c, n, keys, w.comp);
    AdvancePlaced(d, n, keys, w, ans);
    AdvanceSound(d, n, keys, w.comp, ans);
    assert Handle(c, n, keys, which, InsufficientResources, ans) == Advance(d, n, keys, ans);
  }

  /** The resend of a stranded retry, when refused, fails under its state. */
  lemma StrandedPlaced(c: Cache, n: Node, keys: seq<AppKey>, w: World, which: nat, ans: Answer)
    requires Active(c, n, keys, w.comp) && c.wait && c.state == ADD_SUB && c.ever && WellConfigured(n, w.comp, keys)
    requires Good(Before(ADD_SUB), n, keys, w) && ans.Refused?
    requires TurnModel(ShapeOf(ADD_SUB, n, keys, w.comp), c.it).done
    ensures Placed(Handle(c, n, keys, which, InsufficientResources, ans), keys, w)
  {
    StrandedForm(c, n, keys, w.comp, which, ans);
    StrandedCommand(n, keys, w.comp);
    SetBitOfZero(c.state);
    hide Handle, Good, WellConfigured, CommandFor, TurnModel;
  }

  lemma StrandedCommand(n: Node, keys: seq<AppKey>, comp: seq<Element>)
    requires Ready(ADD_SUB, ORIGIN, comp, n, keys)
    ensures CommandFor(ADD_SUB, ORIGIN, comp, n, keys).cmd.SetSub?
  {
  }

  /** Up to Set Config a place does not look at the feature bits. */
  lemma FeatureNode(n: Node, n': Node, keys: seq<AppKey>, w: World)
    requires n'.cfg == n.cfg && Good(Before(SET_CONFIG), n, keys, w)
    ensures Good(Before(SET_CONFIG), n', keys, w)
  {
    SameNode(Before(SET_CONFIG), n, n'.(current := n.current), keys, w);
    var m := n'.(current := n.current);
    forall s, p | Iterates(s) && On(ShapeOf(s, m, keys, w.comp), p) && ItemDone(s, p, m, keys, w)
      ensures On(ShapeOf(s, n', keys, w.comp), p) && ItemDone(s, p, n', keys, w)
    {
      SameItems(s, p, m, n', keys, w.comp);
    }
    forall s | Iterates(s)
      ensures ShapeOf(s, n', keys, w.comp) == ShapeOf(s, m, keys, w.comp)
    {
      SameItems(s, ORIGIN, m, n', keys, w.comp);
    }
    forall t | ADD_APPKEY <= t < SET_CONFIG && Complete(t, m, keys, w)
      ensures Complete(t, n', keys, w)
    {
      assert Iterates(t) && Guard(t, n') == Guard(t, m);
    }
  }

  lemma FeatureStepPlaced(d: Cache, n: Node, keys: seq<AppKey>, w: World, which: nat, ans: Answer)
    requires Poised(d, n, keys, w.comp) && d.state == SET_CONFIG && WellConfigured(n, w.comp, keys)
    requires Good(Before(SET_CONFIG), n, keys, w) && Bit(Diff(n), which)
    ensures var o := OnSuccess(d, n, keys, which, ans);
            Placed(o, keys, w) && o.n == FeatureSet(n, which)
  {
    var n' := FeatureSet(n, which);
    FeatureNode(n, n', keys, w);
    FeatureSetSound(n, keys, w.comp, which);
    if Diff(n') != 0 {
      SendForm(d, n', keys, ans);
      SendPosts(d, n', keys, w.comp, ans);
    } else {
      assert Good(Before(END), n', keys, w);
    }
    hide WellConfigured, CommandFor, Good, Bit, FeatureSet, Send;
  }

  lemma FeaturePlaced(c: Cache, n: Node, keys: seq<AppKey>, w: World, which: nat, ans: Answer)
    requires Active(c, n, keys, w.comp) && c.wait && c.state == SET_CONFIG && WellConfigured(n, w.comp, keys)
    requires Good(Before(SET_CONFIG), n, keys, w) && Bit(Diff(n), which)
    ensures var o := Handle(c, n, keys, which, Success, ans);
            Placed(o, keys, w) && o.n == FeatureSet(n, which)
  {
    hide WellConfigured, CommandFor, Good, Bit, FeatureSet, OnSuccess, Placed, Guard;
    var d := Heard(c).(ever := false, remaining := 0);
    assert Poised(d, n, keys, w.comp);
    FeatureStepPlaced(d, n, keys, w, which, ans);
    FeatureSound(d, n, keys, w.comp, which, ans);
    assert Handle(c, n, keys, which, Success, ans) == OnSuccess(d, n, keys, which, ans);
  }

  /** Whatever a command of a configuration run is answered, the place stays good. */
  lemma ReplyPlaced(c: Cache, n: Node, keys: seq<AppKey>, w: World, cmd: Command, st: Status, ans: Answer)
    requires Active(c, n, keys, w.comp) && c.wait && ConfigRun(c) && OneErrorBit(n.err)
             && WellConfigured(n, w.comp, keys)
    requires Good(PlaceOf(c, n), n, keys, w)
    requires CommandFor(c.state, c.it, c.dcd, n, keys) == Cmd(cmd) && Got(cmd, st) in w.log
    requires st == Success ==> InEffect(w.dev, cmd)
    requires st == Success && c.state == ADD_SUB ==>
               NoRoom(w, KeyAt(w.comp, c.it)) || Subs(w.dev, KeyAt(w.comp, c.it)) == SetOf(n.cfg.sublist[..c.it.k + 1])
    requires c.ever && !ans.Refused? && st == InsufficientResources && c.state == ADD_SUB ==>
               !TurnModel(ShapeOf(ADD_SUB, n, keys, w.comp), c.it).done
    ensures Placed(Handle(c, n, keys, WhichOf(cmd), st, ans), keys, w)
  {
    if Iterates(c.state) && (st == Success || (st == NotInitialized && c.state == SET_PUB)) {
      SuccessPlaced(c, n, keys, w, WhichOf(cmd), cmd, st, ans);
    } else if st == InsufficientResources && c.state == ADD_SUB && c.ever
              && TurnModel(ShapeOf(ADD_SUB, n, keys, w.comp), c.it).done {
      StrandedPlaced(c, n, keys, w, WhichOf(cmd), ans);
    } else if st == InsufficientResources && c.state == ADD_SUB {
      NoRoomPlaced(c, n, keys, w, WhichOf(cmd), cmd, ans);
    } else if st == Timeout {
      TimeoutPlaced(c, n, keys, w, WhichOf(cmd), ans);
    } else if st == Success && c.state == GET_DCD {
      DcdPlaced(c, n, keys, w, WhichOf(cmd), ans);
    } else if st == Success {
      FeaturePlaced(c, n, keys, w, WhichOf(cmd), ans);
    } else {
      ErrorPlaced(c, n, keys, w, WhichOf(cmd), st, ans);
    }
    hide Handle;
  }

  /** The feature command due is the one of the lowest differing bit. */
  lemma FeatureCommand(s: Session, keys: seq<AppKey>)
    requires Sound(s, keys) && s.w.out.Some? && s.c.state == SET_CONFIG
    ensures var cmd := s.w.out.value;
            cmd.Feature? && Bit(Diff(s.n), cmd.which) && FeatureArgs(s.n.cfg, cmd.which) == Some(cmd.args)
  {
  }

  lemma FeaturesKept(s: Session, st: Status, effect: bool, n': Node, keys: seq<AppKey>)
    requires Sound(s, keys) && FeaturesSet(s.n, s.w) && s.w.out.Some?
    requires n' == if st == Success && s.c.state == SET_CONFIG then FeatureSet(s.n, WhichOf(s.w.out.value)) else s.n
    requires s.c.state < END
    ensures FeaturesSet(n', Settle(s.w, effect || st == Success))
  {
    var w := Settle(s.w, effect || st == Success);
    var cmd := s.w.out.value;
    if s.c.state == SET_CONFIG {
      FeatureCommand(s, keys);
      FeatureSetClears(s.n, cmd.which);
      hide Sound;
      forall b: nat | b in w.due && !Bit(Diff(n'), b)
        ensures b in w.dev.feats && Some(w.dev.feats[b]) == FeatureArgs(n'.cfg, b)
      {
        if b != cmd.which {
          ClrBitBits(Diff(s.n), cmd.which, b);
        }
      }
    } else {
      Awaiting(s, keys);
    }
  }

  /** The world of a reply: the command settled, its event in the log. */
  function Answered(w: World, st: Status, effect: bool): World
    requires w.out.Some?
  {
    var v := Settle(w, effect || st == Success);
    v.(log := v.log + [Got(w.out.value, st)])
  }

  /** The event of a configuration run, before the callback looks at it. */
  lemma AnsweredProgress(s: Session, st: Status, effect: bool, keys: seq<AppKey>)
    requires Sound(s, keys) && Progressing(s, keys) && ConfigRun(s.c) && s.w.out.Some?
    ensures var w := Answered(s.w, st, effect);
            && !w.dev.wiped && Ordered(w.log) && Good(PlaceOf(s.c, s.n), s.n, keys, w)
            && Got(s.w.out.value, st) in w.log && (st == Success ==> InEffect(w.dev, s.w.out.value))
            && (st == Success && s.c.state == ADD_SUB ==>
                  && On(ShapeOf(ADD_SUB, s.n, keys, w.comp), s.c.it)
                  && (NoRoom(w, KeyAt(w.comp, s.c.it))
                     || Subs(w.dev, KeyAt(w.comp, s.c.it)) == SetOf(s.n.cfg.sublist[..s.c.it.k + 1])))
  {
    PlaceIsCommand(s, keys);
    var cmd := s.w.out.value;
    var v := Settle(s.w, effect || st == Success);
    var w := Answered(s.w, st, effect);
    SettleProgress(s, effect || st == Success, keys);
    GoodGrows(PlaceOf(s.c, s.n), s.n, keys, v, w);
    OrderedGrows(s.w.log, Got(cmd, st));
    if st == Success && s.c.state == ADD_SUB {
      SubscriptionApplies(s.c.it, s.n, keys, s.w, cmd);
      assert NoRoom(s.w, KeyAt(w.comp, s.c.it)) ==> NoRoom(w, KeyAt(w.comp, s.c.it));
    }
  }

  lemma ConfigReplyProgress(s: Session, st: Status, effect: bool, ans: Answer, keys: seq<AppKey>)
    requires Sound(s, keys) && Progressing(s, keys) && ConfigRun(s.c)
    requires Legal(s, Reply(st, effect, ans)) && Benign(s, Reply(st, effect, ans), keys)
    ensures Works(s.c.state)
    ensures var o := Handle(s.c, s.n, keys, WhichOf(s.w.out.value), st, ans);
            && (o.cmd.Some? ==> Justified(Answered(s.w, st, effect).log, Sent(o.cmd.value)))
            && Progressing(Session(o.c, o.n, Answered(s.w, st, effect)), keys)
  {
    Awaiting(s, keys);
    AnsweredProgress(s, st, effect, keys);
    hide Good, Settle, Ordered, CommandFor, WellConfigured, ShapeOf, KeyAt, NoRoom;
    ReplyPlaced(s.c, s.n, keys, Answered(s.w, st, effect), s.w.out.value, st, ans);
    FeaturesKept(s, st, effect, Handle(s.c, s.n, keys, WhichOf(s.w.out.value), st, ans).n, keys);
    hide Handle, Answered, FeaturesSet;
  }

  /** The event of a node being removed, before the callback looks at it. */
  lemma AnsweredRemoval(s: Session, st: Status, effect: bool, keys: seq<AppKey>)
    requires Sound(s, keys) && Progressing(s, keys) && s.c.state >= END && s.w.out.Some?
    ensures Progressing(s.(w := Answered(s.w, st, effect)), keys)
  {
    SettledRemoval(s, effect || st == Success, keys);
    var v := Settle(s.w, effect || st == Success);
    var w := Answered(s.w, st, effect);
    hide Sound, Settle;
    OrderedGrows(s.w.log, Got(s.w.out.value, st));
    if !w.dev.wiped {
      GoodGrows(PlaceOf(s.c, s.n), s.n, keys, v, w);
      if s.n.done {
        GoodGrows(Before(END), s.n, keys, v, w);
      }
    }
  }

  lemma RemovalReplyProgress(s: Session, st: Status, effect: bool, ans: Answer, keys: seq<AppKey>)
    requires Sound(s, keys) && Progressing(s, keys) && s.c.state >= END
    requires Legal(s, Reply(st, effect, ans))
    ensures Works(s.c.state)
    ensures var o := Handle(s.c, s.n, keys, WhichOf(s.w.out.value), st, ans);
            && (o.cmd.Some? ==> o.cmd.value == Reset)
            && Progressing(Session(o.c, o.n, Answered(s.w, st, effect)), keys)
  {
    Awaiting(s, keys);
    AnsweredRemoval(s, st, effect, keys);
    RemovalReply(s.c, s.n, keys, WhichOf(s.w.out.value), st, ans);
    hide Handle, CompleteBelow, Answered, Sound, Ordered, FeaturesSet;
  }

  lemma RemovalReply(c: Cache, n: Node, keys: seq<AppKey>, which: nat, st: Status, ans: Answer)
    requires c.state == RM
    ensures var o := Handle(c, n, keys, which, st, ans);
            o.cmd.Some? ==> o.cmd.value == Reset
  {
  }

  lemma ReplyStepProgress(s: Session, st: Status, effect: bool, ans: Answer, keys: seq<AppKey>)
    requires Sound(s, keys) && Progressing(s, keys)
    requires Legal(s, Reply(st, effect, ans)) && Benign(s, Reply(st, effect, ans), keys)
    ensures Works(s.c.state)
    ensures Progressing(Step(s, Reply(st, effect, ans), keys).s, keys)
  {
    if ConfigRun(s.c) {
      ConfigReplyProgress(s, st, effect, ans, keys);
    } else {
      Awaiting(s, keys);
      RemovalReplyProgress(s, st, effect, ans, keys);
    }
    hide Handle, Progressing;
    var o := Handle(s.c, s.n, keys, WhichOf(s.w.out.value), st, ans);
    DeliverProgress(o.c, o.n, Answered(s.w, st, effect), o.cmd, ans, keys);
  }

  lemma LoadProgress(s: Session, id: nat, removing: bool, keys: seq<AppKey>)
    requires Progressing(s, keys) && Legal(s, Load(id, removing))
    ensures Progressing(Step(s, Load(id, removing), keys).s, keys)
  {
  }

  lemma PageProgress(s: Session, keys: seq<AppKey>)
    requires Sound(s, keys) && Progressing(s, keys) && Legal(s, Page)
    ensures Progressing(Step(s, Page, keys).s, keys)
  {
  }

  /** Every step keeps commands in order and completed work complete. */
  lemma StepProgress(s: Session, act: Act, keys: seq<AppKey>)
    requires Sound(s, keys) && Progressing(s, keys)
    requires Legal(s, act) && Benign(s, act, keys)
    ensures act.Reply? ==> Works(s.c.state)
    ensures Progressing(Step(s, act, keys).s, keys)
  {
    hide Progressing, Sound;
    match act {
      case Load(id, removing) => LoadProgress(s, id, removing, keys);
      case EnginePass(timeUp, ans, effect) => PassStepProgress(s, timeUp, ans, effect, keys);
      case Page => PageProgress(s, keys);
      case Reply(st, effect, ans) => ReplyStepProgress(s, st, effect, ans, keys);
    }
  }
}
