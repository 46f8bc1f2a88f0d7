/** A node leaves its slot after finitely many answered commands: a count of the
    answers a slot may still use up, which every terminal event lowers. */
module Termination {
  import opened Bits
  import opened Odometer
  import opened Mesh
  import opened Slot
  import opened Session
  import opened SessionSound
  import opened SessionRuns

  /** Work items left in state s, the one at the iterators included. */
  function ItemsLeft(s: int, it: Pos, dcd: seq<Element>, n: Node, keys: seq<AppKey>): nat {
    if Iterates(s) then
      var sh := ShapeOf(s, n, keys, dcd);
      if On(sh, PosOf(s, it)) then Left(sh, PosOf(s, it)) else 0
    else if s == SET_CONFIG then PopCount(Diff(n))
    else 1
  }

  /** A work item takes at most one answer more than its retries. */
  function Cost(s: int, items: nat): (r: nat)
    ensures items > 0 ==> r == Cost(s, items - 1) + RetryLimit(s) + 1
  {
    if s == RM then 4 * items else 6 * items
  }

  /** The answers the states from s to the end of the run take at most. */
  function Work(s: int, n: Node, keys: seq<AppKey>, comp: seq<Element>): nat
    requires GET_DCD <= s <= RM_END
    decreases RM_END - s
  {
    if s == END || s == RM_END then 0
    else (if Guard(s, n) then Cost(s, ItemsLeft(s, ORIGIN, comp, n, keys)) else 0) + Work(s + 1, n, keys, comp)
  }

  function RetriesLeft(c: Cache): nat {
    if c.ever then c.remaining else RetryLimit(c.state)
  }

  /** The answers the state of an active slot takes at most. */
  function StateBudget(c: Cache, n: Node, keys: seq<AppKey>): nat {
    var items := ItemsLeft(c.state, c.it, c.dcd, n, keys);
    if items == 0 then 0 else Cost(c.state, items - 1) + RetriesLeft(c) + 1
  }

  /** The answers the slot takes at most before it is released. */
  function Budget(c: Cache, n: Node, keys: seq<AppKey>, comp: seq<Element>): nat {
    if c.node.None? || Failed(c) || !(PROVISIONED <= c.state <= RM) then 0
    else if c.wait || c.oom then StateBudget(c, n, keys) + Work(c.state + 1, n, keys, comp)
    else if c.next == TO_NEXT then Work(c.state + 1, n, keys, comp)
    else if GET_DCD <= c.next <= RM_END then Work(c.next, n, keys, comp)
    else 0
  }

  lemma ActiveHasItem(c: Cache, n: Node, keys: seq<AppKey>, comp: seq<Element>)
    requires Active(c, n, keys, comp)
    ensures ItemsLeft(c.state, c.it, c.dcd, n, keys) > 0
    ensures Budget(c, n, keys, comp) == StateBudget(c, n, keys) + Work(c.state + 1, n, keys, comp)
  {
    ActiveItems(c, n, keys, comp);
    hide ItemsLeft, Work, StateBudget, Ready, Guard;
  }

  lemma ActiveItems(c: Cache, n: Node, keys: seq<AppKey>, comp: seq<Element>)
    requires Active(c, n, keys, comp)
    ensures ItemsLeft(c.state, c.it, c.dcd, n, keys) > 0
  {
    hide ShapeOf, KeyId, FeatureArgs, Turn;
    if c.state == SET_CONFIG {
      var b := SomeBit(Diff(n));
      ClrBitSmaller(Diff(n), b);
    }
  }

  lemma {:induction false} WorkShrinks(s: int, t: int, n: Node, keys: seq<AppKey>, comp: seq<Element>)
    requires GET_DCD <= s <= t <= RM_END && (s <= END ==> t <= END)
    ensures Work(t, n, keys, comp) <= Work(s, n, keys, comp)
    decreases t - s
  {
  }

  /** A state is entered with its iterators at zero and no retry granted. */
  lemma {:induction false} EntersFresh(s: int, c: Cache, n: Node, keys: seq<AppKey>, ans: Answer)
    requires GET_DCD <= s <= RM_END
    ensures var o := Enter(s, c, n, keys, ans);
            !Ended(o.c) ==>
              && o.c.it == c.it && o.c.dcd == c.dcd && o.c.ever == c.ever
              && Guard(o.c.state, n) && (s <= END ==> o.c.state <= END)
    decreases RM_END - s
  {
    hide CommandFor, Guard;
    if s != END && s != RM_END && !Guard(s, n) {
      EntersFresh(s + 1, c, n, keys, ans);
    }
  }

  /** Starting a state takes nothing from what the states from it on may use up. */
  lemma StartSpends(c: Cache, n: Node, keys: seq<AppKey>, comp: seq<Element>)
    requires Active(c, n, keys, comp) && Guard(c.state, n) && !c.ever && c.it == ORIGIN
    ensures Budget(c, n, keys, comp) == Work(c.state, n, keys, comp)
  {
    ActiveHasItem(c, n, keys, comp);
    assert ItemsLeft(c.state, ORIGIN, c.dcd, n, keys) == ItemsLeft(c.state, ORIGIN, comp, n, keys) by {
      hide ShapeOf, Guard, Ready;
    }
    hide ItemsLeft, Guard, Ready, Budget;
  }

  lemma EnterSpends(s: int, c: Cache, n: Node, keys: seq<AppKey>, comp: seq<Element>, ans: Answer)
    requires GET_DCD <= s <= RM_END && PROVISIONED <= c.state <= RM
    requires c.node.Some? && NoFlags(c) && !Failed(c) && c.it == ORIGIN
    requires ADD_APPKEY <= s <= SET_CONFIG ==> c.dcd == comp
    requires WellConfigured(n, comp, keys)
    ensures var o := Enter(s, c, n, keys, ans);
            !Ended(o.c) ==> Budget(o.c, o.n, keys, comp) <= Work(s, n, keys, comp)
  {
    EnterSound(s, c, n, keys, comp, ans);
    EntersFresh(s, c, n, keys, ans);
    var o := Enter(s, c, n, keys, ans);
    if !Ended(o.c) {
      assert Active(o.c, n, keys, comp) && o.n == n && s <= o.c.state;
      hide Enter, Entered, Active, Guard, WellConfigured, Budget, Work;
      StartSpends(o.c, n, keys, comp);
      WorkShrinks(s, o.c.state, n, keys, comp);
    }
  }

  /* An engine pass */

  lemma OverSpends(c: Cache, n: Node, keys: seq<AppKey>, comp: seq<Element>, timeUp: bool, ans: Answer)
    requires Over(c, comp) || Fresh(c)
    requires WellConfigured(n, comp, keys) && OneErrorBit(n.err)
    ensures var o := Pass(c, n, keys, timeUp, ans);
            && Budget(o.c, o.n, keys, comp) <= Budget(c, n, keys, comp)
            && (o.release.Freed? || (o.cmd.Some? && (o.c.wait <==> ans.Accepted?) && !ans.Refused?))
  {
    hide Work, StateBudget, CommandFor, Guard, Ready, Budget;
    var s := if c.next == TO_NEXT then c.state + 1 else c.next;
    OverBudget(c, n, keys, comp);
    OverMoves(c, n, keys, comp, ans);
    EnterSpends(s, c, n, keys, comp, ans);
    var o := Pass(c, n, keys, timeUp, ans);
    assert o.release.Kept? ==> o.c == Enter(s, c, n, keys, ans).c && o.n == Enter(s, c, n, keys, ans).n;
    assert o.release.Freed? ==> o.c == EMPTY;
    EmptyBudget(o.n, keys, comp);
    hide WellConfigured, Enter;
  }

  lemma OverBudget(c: Cache, n: Node, keys: seq<AppKey>, comp: seq<Element>)
    requires Over(c, comp) || Fresh(c)
    ensures Budget(c, n, keys, comp) == Work(if c.next == TO_NEXT then c.state + 1 else c.next, n, keys, comp)
  {
    hide Work, StateBudget;
  }

  lemma EmptyBudget(n: Node, keys: seq<AppKey>, comp: seq<Element>)
    ensures Budget(EMPTY, n, keys, comp) == 0
  {
  }

  /** The slot as a resend leaves it when it is not refused. */
  predicate SameItem(c: Cache, c': Cache) {
    && c'.state == c.state && c'.it == c.it && c'.dcd == c.dcd && c'.node == c.node
    && c'.ever == c.ever && c'.remaining == c.remaining && !Failed(c') && (c'.wait || c'.oom)
  }

  lemma SameItemSpends(c: Cache, c': Cache, n: Node, keys: seq<AppKey>, comp: seq<Element>)
    requires SameItem(c, c') && (c.wait || c.oom) && !Failed(c)
    ensures Budget(c', n, keys, comp) == Budget(c, n, keys, comp)
  {
    hide ItemsLeft, Work;
  }

  lemma ResendKeeps(c: Cache, n: Node, keys: seq<AppKey>, reason: Reason, comp: seq<Element>, ans: Answer)
    requires Active(c, n, keys, comp) && !reason.OnTimeout? && !ans.Refused?
    ensures SameItem(c, Retry(c, n, keys, reason, ans).c)
  {
  }

  lemma ActiveSpends(c: Cache, n: Node, keys: seq<AppKey>, comp: seq<Element>, timeUp: bool, ans: Answer)
    requires Active(c, n, keys, comp) && OneErrorBit(n.err)
    requires !(GuardFires(c, timeUp) && ans.OutOfMemory?)
    ensures var o := Pass(c, n, keys, timeUp, ans);
            && Budget(o.c, o.n, keys, comp) <= Budget(c, n, keys, comp)
            && (!c.wait && !ans.OutOfMemory? ==> o.release.Freed? || (o.c.wait && ans.Accepted?))
  {
    ActivePasses(c, n, keys, comp, timeUp, ans);
    if !ans.Refused? {
      ResendKeeps(c, n, keys, OnOom, comp, ans);
      ResendKeeps(c, n, keys, OnGuardTimer, comp, ans);
      hide Retry, CommandFor, Guard, Ready, Passed;
      assert SameItem(c, Pass(c, n, keys, timeUp, ans).c) && Pass(c, n, keys, timeUp, ans).n == n;
      hide Pass;
      SameItemSpends(c, Pass(c, n, keys, timeUp, ans).c, n, keys, comp);
    } else {
      RefusedResendFrees(c, n, keys, comp, timeUp);
      hide Pass, CommandFor, Guard, Ready;
    }
  }

  lemma RefusedResendFrees(c: Cache, n: Node, keys: seq<AppKey>, comp: seq<Element>, timeUp: bool)
    requires Active(c, n, keys, comp)
    ensures var o := Pass(c, n, keys, timeUp, Refused);
            if GuardFires(c, timeUp) || c.oom then o.release.Freed? && o.c == EMPTY else o.c == c && o.n == n
  {
    hide CommandFor, Guard, Ready;
    if GuardFires(c, timeUp) {
      GuardRetrySound(c, n, keys, comp, Refused);
      FaultedEnds(Retry(c, n, keys, OnGuardTimer, Refused).c, n, keys, Refused);
    } else if c.oom {
      OomRetrySound(c, n, keys, comp, Refused);
      FaultedEnds(Retry(c, n, keys, OnOom, Refused).c, n, keys, Refused);
    }
    hide Retry;
  }

  /** A pass uses up nothing; and answered anything but out-of-memory it leaves no slot
      idle: the slot was released or awaits a response. */
  lemma PassSpends(s: Session, keys: seq<AppKey>, timeUp: bool, ans: Answer)
    requires Sound(s, keys) && s.c.node.Some?
    requires !(GuardFires(s.c, timeUp) && ans.OutOfMemory?)
    ensures var o := Pass(s.c, s.n, keys, timeUp, ans);
            && Budget(o.c, o.n, keys, s.w.comp) <= Budget(s.c, s.n, keys, s.w.comp)
            && (!s.c.wait && !ans.OutOfMemory? ==> o.release.Freed? || o.c.wait)
  {
    if Active(s.c, s.n, keys, s.w.comp) {
      ActiveSpends(s.c, s.n, keys, s.w.comp, timeUp, ans);
    } else if Faulted(s.c) {
      FaultedEnds(s.c, s.n, keys, ans);
    } else {
      OverSpends(s.c, s.n, keys, s.w.comp, timeUp, ans);
    }
  }

  /* A terminal event */

  /** Sending the item at the iterators keeps within the budget of that item. */
  lemma SendSpends(c: Cache, n: Node, keys: seq<AppKey>, comp: seq<Element>, ans: Answer)
    requires Poised(c, n, keys, comp)
    ensures var o := Send(c.state, c, n, keys, ans);
            Budget(o.c, o.n, keys, comp) <= StateBudget(c, n, keys) + Work(c.state + 1, n, keys, comp)
  {
    SendPosts(c, n, keys, comp, ans);
    hide CommandFor, Guard, Ready, ItemsLeft, Work;
  }

  /** Between its answer and its next command a slot still has its item, which was paid for. */
  lemma PoisedBudget(c: Cache, n: Node, keys: seq<AppKey>, comp: seq<Element>)
    requires Poised(c, n, keys, comp)
    ensures ItemsLeft(c.state, c.it, c.dcd, n, keys) > 0
    ensures StateBudget(c, n, keys) == Cost(c.state, ItemsLeft(c.state, c.it, c.dcd, n, keys) - 1) + RetriesLeft(c) + 1
  {
    ActiveHasItem(c.(oom := true), n, keys, comp);
  }

  /** The item at the iterators is paid for: what is left is the price of the others. */
  predicate ItemPaid(o: Out, c: Cache, n: Node, keys: seq<AppKey>, comp: seq<Element>) {
    var items := ItemsLeft(c.state, c.it, c.dcd, n, keys);
    Works(c.state) && items > 0 && Budget(o.c, o.n, keys, comp)
        <= Cost(c.state, items - 1) + Work(c.state + 1, n, keys, comp)
  }

  lemma AdvanceSpends(c: Cache, n: Node, keys: seq<AppKey>, comp: seq<Element>, ans: Answer)
    requires Poised(c, n, keys, comp) && Iterates(c.state) && WellConfigured(n, comp, keys)
    requires c.ever ==> !Turn(ShapeOf(c.state, n, keys, comp), PosOf(c.state, c.it)).done
    ensures ItemPaid(Advance(c, n, keys, ans), c, n, keys, comp)
  {
    hide Send, Guard, ShapeOf, WellConfigured, Turn, Work, Left;
    var sh := ShapeOf(c.state, n, keys, comp);
    ItemsExist(c.state, n, comp, keys);
    TurnReady(c.state, c.it, n, comp, keys);
    LeftTurns(sh, PosOf(c.state, c.it));
    PoisedBudget(c, n, keys, comp);
    var t := Turn(sh, PosOf(c.state, c.it));
    if !t.done {
      var c' := c.(it := ItOf(c.state, t.pos));
      SendSpends(c', n, keys, comp, ans);
      PoisedBudget(c', n, keys, comp);
      assert ItemsLeft(c.state, c'.it, c.dcd, n, keys) == Left(sh, t.pos);
      assert ItemsLeft(c.state, c.it, c.dcd, n, keys) == 1 + Left(sh, t.pos);
    }
  }

  lemma FeatureSpends(c: Cache, n: Node, keys: seq<AppKey>, comp: seq<Element>, which: nat, ans: Answer)
    requires Poised(c, n, keys, comp) && c.state == SET_CONFIG && !c.ever && WellConfigured(n, comp, keys)
    requires Bit(Diff(n), which)
    ensures ItemPaid(OnSuccess(c, n, keys, which, ans), c, n, keys, comp)
  {
    hide WellConfigured, CommandFor, Bit;
    var n' := FeatureSet(n, which);
    PoisedBudget(c, n, keys, comp);
    FeatureSetClears(n, which);
    FeatureSetSound(n, keys, comp, which);
    if Diff(n') != 0 {
      SendPosts(c, n', keys, comp, ans);
      SendSpends(c, n', keys, comp, ans);
      hide Send, FeatureSet, Diff;
    }
  }

  lemma DcdSpends(c: Cache, n: Node, keys: seq<AppKey>, comp: seq<Element>, which: nat, ans: Answer)
    requires Poised(c, n, keys, comp) && c.state == GET_DCD && OneErrorBit(n.err)
    ensures ItemPaid(OnSuccess(c, n, keys, which, ans), c, n, keys, comp)
  {
    OneBitResumes(n.err);
    PoisedBudget(c, n, keys, comp);
    var next := AfterDcd(n.err, GET_DCD);
    hide Work, OneErrorBit, AfterDcd, Guard, Ready, CommandFor;
    if next != TO_NEXT {
      WorkShrinks(ADD_APPKEY, next, n, keys, comp);
    }
  }

  lemma SuccessSpends(c: Cache, n: Node, keys: seq<AppKey>, comp: seq<Element>, which: nat, ans: Answer)
    requires Poised(c, n, keys, comp) && !c.ever && WellConfigured(n, comp, keys) && OneErrorBit(n.err)
    requires c.state == SET_CONFIG ==> Bit(Diff(n), which)
    ensures ItemPaid(OnSuccess(c, n, keys, which, ans), c, n, keys, comp)
  {
    hide Guard, CommandFor, WellConfigured, Work, Advance, Ready;
    if c.state == GET_DCD {
      DcdSpends(c, n, keys, comp, which, ans);
    } else if c.state == SET_CONFIG {
      FeatureSpends(c, n, keys, comp, which, ans);
    } else if c.state != RM {
      AdvanceSpends(c, n, keys, comp, ans);
    }
  }

  /** The budget depends on the item and the retries alone. */
  lemma PaidSpends(o: Out, c: Cache, c1: Cache, n: Node, keys: seq<AppKey>, comp: seq<Element>)
    requires Active(c, n, keys, comp)
    requires c1.state == c.state && c1.dcd == c.dcd
    requires ItemsLeft(c1.state, c1.it, c1.dcd, n, keys) <= ItemsLeft(c.state, c.it, c.dcd, n, keys)
    requires ItemPaid(o, c1, n, keys, comp)
    ensures Budget(o.c, o.n, keys, comp) < Budget(c, n, keys, comp)
  {
    ActiveHasItem(c, n, keys, comp);
    hide Active, Budget, ItemsLeft, Work;
  }

  lemma SuccessEventSpends(c: Cache, n: Node, keys: seq<AppKey>, comp: seq<Element>, which: nat, st: Status,
                           ans: Answer)
    requires Active(c, n, keys, comp) && c.wait && WellConfigured(n, comp, keys) && OneErrorBit(n.err)
    requires st == Success || (st == NotInitialized && c.state == SET_PUB)
    requires c.state == SET_CONFIG ==> Bit(Diff(n), which)
    ensures var o := Handle(c, n, keys, which, st, ans);
            Budget(o.c, o.n, keys, comp) < Budget(c, n, keys, comp)
  {
    var c1 := Heard(c).(ever := false, remaining := 0);
    hide CommandFor, Guard, WellConfigured, OnSuccess, Work, ItemsLeft, Budget, ItemPaid;
    SuccessSpends(c1, n, keys, comp, which, ans);
    PaidSpends(OnSuccess(c1, n, keys, which, ans), c, c1, n, keys, comp);
    SuccessHandling(c, n, keys, which, st, ans);
    hide Handle, Active, Poised;
  }

  lemma SuccessHandling(c: Cache, n: Node, keys: seq<AppKey>, which: nat, st: Status, ans: Answer)
    requires Works(c.state) && c.wait
    requires st == Success || (st == NotInitialized && c.state == SET_PUB)
    ensures Handle(c, n, keys, which, st, ans)
            == OnSuccess(Heard(c).(ever := false, remaining := 0), n, keys, which, ans)
  {
    hide CommandFor, ShapeOf, On, Turn;
  }

  lemma GivingUpSpends(c: Cache, n: Node, keys: seq<AppKey>, comp: seq<Element>, o: Out)
    requires Active(c, n, keys, comp) && (Faulted(o.c) || (o.c.state == RM && Over(o.c, comp)))
    ensures Budget(o.c, o.n, keys, comp) < Budget(c, n, keys, comp)
  {
    ActiveHasItem(c, n, keys, comp);
    hide ItemsLeft, Ready, Guard;
    assert Pow2(o.c.state) > 0;
  }

  /** The resend of a timeout sends the same item with one retry less. */
  lemma ResendSpends(c: Cache, r: Cache, n: Node, keys: seq<AppKey>, comp: seq<Element>, ans: Answer)
    requires Active(c, n, keys, comp) && c.wait
    requires r == OnTimeoutReport(Heard(c)) && (c.ever ==> c.remaining > 0)
    ensures var o := Retry(r, n, keys, OnTimeout, ans);
            Budget(o.c, o.n, keys, comp) + (if ans.OutOfMemory? then 0 else 1) <= Budget(c, n, keys, comp)
  {
    hide CommandFor, Guard, Work, ItemsLeft, Ready;
    ActiveHasItem(c, n, keys, comp);
    TimeoutRetrySound(r, n, keys, comp, ans);
  }

  /** A timeout takes one retry off the item, unless its resend is answered out-of-memory. */
  lemma TimeoutSpends(c: Cache, n: Node, keys: seq<AppKey>, comp: seq<Element>, which: nat, ans: Answer)
    requires Active(c, n, keys, comp) && c.wait && WellConfigured(n, comp, keys)
    ensures var o := Handle(c, n, keys, which, Timeout, ans);
            Budget(o.c, o.n, keys, comp) + (if ans.OutOfMemory? && o.cmd.Some? then 0 else 1)
                <= Budget(c, n, keys, comp)
  {
    hide CommandFor, Guard, WellConfigured, Work, ItemsLeft, Retry;
    var r := OnTimeoutReport(Heard(c));
    if c.ever && c.remaining == 0 {
      SetBitOfZero(c.state);
      GivingUpSpends(c, n, keys, comp, Handle(c, n, keys, which, Timeout, ans));
    } else {
      TimeoutRetrySound(r, n, keys, comp, ans);
      ResendSpends(c, r, n, keys, comp, ans);
    }
  }

  lemma NoRoomSpends(c: Cache, n: Node, keys: seq<AppKey>, comp: seq<Element>, which: nat, ans: Answer)
    requires Active(c, n, keys, comp) && c.wait && c.state == ADD_SUB && WellConfigured(n, comp, keys)
    requires c.ever ==> !TurnModel(ShapeOf(ADD_SUB, n, keys, comp), c.it).done
    ensures var o := Handle(c, n, keys, which, InsufficientResources, ans);
            Budget(o.c, o.n, keys, comp) < Budget(c, n, keys, comp)
  {
    var c1 := Heard(c).(it := c.it.(k := |n.cfg.sublist| - 1));
    ItemsExist(ADD_SUB, n, comp, keys);
    SkippingInnerTurnsModel(ShapeOf(ADD_SUB, n, keys, comp), c.it);
    SkippedIsPoised(c, n, keys, comp);
    hide CommandFor, Guard, WellConfigured, Advance, Work, Turn, TurnModel, Left, ShapeOf, Budget, ItemPaid;
    NoRoomForm(c, n, keys, comp, which, ans);
    AdvanceSpends(c1, n, keys, comp, ans);
    hide Handle;
    assert ItemsLeft(ADD_SUB, c1.it, c.dcd, n, keys) <= ItemsLeft(ADD_SUB, c.it, c.dcd, n, keys);
    PaidSpends(Advance(c1, n, keys, ans), c, c1, n, keys, comp);
  }

  lemma ReplySpends(c: Cache, n: Node, keys: seq<AppKey>, comp: seq<Element>, which: nat, st: Status, ans: Answer)
    requires Active(c, n, keys, comp) && c.wait && WellConfigured(n, comp, keys) && OneErrorBit(n.err)
    requires c.state == GET_DCD && st == Success ==> c.dcd == comp
    requires c.state == SET_CONFIG ==> Bit(Diff(n), which)
    requires st == InsufficientResources && c.state == ADD_SUB && c.ever && !ans.Refused? ==>
               !TurnModel(ShapeOf(ADD_SUB, n, keys, comp), c.it).done
    ensures var o := Handle(c, n, keys, which, st, ans);
            Budget(o.c, o.n, keys, comp) + (if st == Timeout && ans.OutOfMemory? && o.cmd.Some? then 0 else 1)
                <= Budget(c, n, keys, comp)
  {
    assert c.state == ADD_SUB ==> On(ShapeOf(ADD_SUB, n, keys, comp), c.it);
    hide WellConfigured, Guard, CommandFor, Ready, Work, ItemsLeft, Advance, TurnModel, Budget;
    if st == Success || (st == NotInitialized && c.state == SET_PUB) {
      SuccessEventSpends(c, n, keys, comp, which, st, ans);
    } else if st == Timeout {
      TimeoutSpends(c, n, keys, comp, which, ans);
    } else if st == InsufficientResources && c.state == ADD_SUB {
      if c.ever && TurnModel(ShapeOf(ADD_SUB, n, keys, comp), c.it).done {
        StrandedSpends(c, n, keys, comp, which);
      } else {
        NoRoomSpends(c, n, keys, comp, which, ans);
      }
    } else {
      SetBitOfZero(c.state);
      GivingUpSpends(c, n, keys, comp, Handle(c, n, keys, which, st, ans));
    }
  }

  lemma StrandedSpends(c: Cache, n: Node, keys: seq<AppKey>, comp: seq<Element>, which: nat)
    requires Active(c, n, keys, comp) && c.wait && c.state == ADD_SUB && c.ever && WellConfigured(n, comp, keys)
    requires TurnModel(ShapeOf(ADD_SUB, n, keys, comp), c.it).done
    ensures var o := Handle(c, n, keys, which, InsufficientResources, Refused);
            Budget(o.c, o.n, keys, comp) < Budget(c, n, keys, comp)
  {
    hide CommandFor, Guard, WellConfigured, Work, ItemsLeft, Handle, Turn, TurnModel, Budget;
    StrandedForm(c, n, keys, comp, which, Refused);
    SetBitOfZero(c.state);
    GivingUpSpends(c, n, keys, comp, Handle(c, n, keys, which, InsufficientResources, Refused));
  }

  /* Over whole runs */

  function SessionBudget(s: Session, keys: seq<AppKey>): nat {
    Budget(s.c, s.n, keys, s.w.comp)
  }

  /** A terminal event that lowers the budget: any but a timeout whose resend is answered out-of-memory. */
  predicate Lowers(act: Act) {
    act.Reply? && !(act.st == Timeout && act.ans.OutOfMemory?)
  }

  /** A load grants the work of the states of the run; no other step raises the budget, and a
      terminal event that counts lowers it. */
  lemma StepSpends(s: Session, act: Act, keys: seq<AppKey>)
    requires Sound(s, keys) && Legal(s, act) && Benign(s, act, keys)
    requires act.Reply? ==> Works(s.c.state)
    ensures var t := Step(s, act, keys).s;
            if act.Load? then SessionBudget(t, keys) == Work(if act.removing then RM else GET_DCD, s.n, keys, s.w.comp)
            else SessionBudget(t, keys) + (if Lowers(act) then 1 else 0) <= SessionBudget(s, keys)
  {
    hide Work;
    if !act.Load? {
      hide Budget;
      match act {
        case EnginePass(timeUp, ans, effect) =>
          PassSpends(s, keys, timeUp, ans);
          hide Pass, Sound;
        case Page =>
          Awaiting(s, keys);
          PageSpends(s.c, s.n, keys, s.w.comp);
        case Reply(st, effect, ans) =>
          Awaiting(s, keys);
          ReplySpends(s.c, s.n, keys, s.w.comp, WhichOf(s.w.out.value), st, ans);
          hide Handle, Sound;
      }
    }
  }

  lemma PageSpends(c: Cache, n: Node, keys: seq<AppKey>, comp: seq<Element>)
    requires Active(c, n, keys, comp) && c.state == GET_DCD
    ensures Budget(OnPage(c, comp), n, keys, comp) == Budget(c, n, keys, comp)
  {
  }

  ghost function Lowerings(acts: seq<Act>): nat {
    if acts == [] then 0 else (if Lowers(acts[0]) then 1 else 0) + Lowerings(acts[1..])
  }

  predicate NoLoad(acts: seq<Act>) {
    forall i :: 0 <= i < |acts| ==> !acts[i].Load?
  }

  lemma {:induction false} RunSpends(s: Session, acts: seq<Act>, keys: seq<AppKey>)
    requires Sound(s, keys) && Runs(s, acts, keys) && NoLoad(acts)
    ensures SessionBudget(After(s, acts, keys), keys) + Lowerings(acts) <= SessionBudget(s, keys)
    decreases |acts|
  {
    hide SessionBudget, Sound, Lowers;
    if acts != [] {
      assert !acts[0].Load?;
      StepSound(s, acts[0], keys);
      StepSpends(s, acts[0], keys);
      hide Step, Legal, Benign;
      RunSpends(Step(s, acts[0], keys).s, acts[1..], keys);
    }
  }

  /** A node loaded for configuration takes at most, for every work item of every state
      its run enters, the retry limit plus one terminal events, however losses, errors
      and out-of-memory answers fall; only a timeout whose resend is answered
      out-of-memory is on top of that. */
  lemma AnswersAreBounded(s: Session, id: nat, removing: bool, acts: seq<Act>, keys: seq<AppKey>)
    requires Sound(s, keys) && Legal(s, Load(id, removing))
    requires var t := Step(s, Load(id, removing), keys).s; Runs(t, acts, keys) && NoLoad(acts)
    ensures Lowerings(acts) <= Work(if removing then RM else GET_DCD, s.n, keys, s.w.comp)
  {
    var t := Step(s, Load(id, removing), keys).s;
    StepSound(s, Load(id, removing), keys);
    RunSpends(t, acts, keys);
    hide Work, Sound;
  }

  /** One round of service: a pass not answered out-of-memory and, when the slot is still
      in use, a terminal event that lowers the budget. */
  ghost predicate Served(s: Session, rounds: seq<(Act, Act)>, keys: seq<AppKey>)
    decreases |rounds|
  {
    rounds == [] ||
    (var (pass, reply) := rounds[0];
     && pass.EnginePass? && !pass.ans.OutOfMemory? && Legal(s, pass)
     && var t := Step(s, pass, keys).s;
        if t.c == EMPTY then Served(t, rounds[1..], keys)
        else
          && Lowers(reply) && Legal(t, reply) && Benign(t, reply, keys) && Works(t.c.state)
          && Served(Step(t, reply, keys).s, rounds[1..], keys))
  }

  /** A waiting slot still has an answer to take. */
  lemma WaitingHasBudget(s: Session, keys: seq<AppKey>)
    requires Sound(s, keys) && s.w.out.Some?
    ensures SessionBudget(s, keys) > 0
  {
    Awaiting(s, keys);
    ActiveHasItem(s.c, s.n, keys, s.w.comp);
    hide Sound, Work, ItemsLeft;
  }

  /** Every node leaves its slot: served in rounds it is released after no more rounds
      than its budget and one. */
  lemma {:induction false} NodeLeavesItsSlot(s: Session, rounds: seq<(Act, Act)>, keys: seq<AppKey>)
    requires Sound(s, keys) && Served(s, rounds, keys)
    ensures |rounds| <= SessionBudget(s, keys) + 1
    decreases |rounds|
  {
    if rounds != [] {
      var (pass, reply) := rounds[0];
      hide SessionBudget, Step, Sound;
      assert Benign(s, pass, keys);
      StepSound(s, pass, keys);
      StepSpends(s, pass, keys);
      var t := Step(s, pass, keys).s;
      if t.c == EMPTY {
        NoRoundWhenEmpty(t, rounds[1..], keys);
      } else {
        WaitingHasBudget(t, keys);
        StepSound(t, reply, keys);
        StepSpends(t, reply, keys);
        var t' := Step(t, reply, keys).s;
        NodeLeavesItsSlot(t', rounds[1..], keys);
        hide Legal;
      }
    }
  }

  /** Once as many such events came as the states of the run may take, the node leaves its
      slot: nothing is awaited, and the next pass not answered out-of-memory releases it. */
  lemma SpentNodeLeaves(s: Session, id: nat, removing: bool, acts: seq<Act>, pass: Act, keys: seq<AppKey>)
    requires Sound(s, keys) && Legal(s, Load(id, removing))
    requires var t := Step(s, Load(id, removing), keys).s; Runs(t, acts, keys) && NoLoad(acts)
    requires Lowerings(acts) >= Work(if removing then RM else GET_DCD, s.n, keys, s.w.comp)
    ensures var t := After(Step(s, Load(id, removing), keys).s, acts, keys);
            && t.w.out.None?
            && (pass.EnginePass? && !pass.ans.OutOfMemory? && Legal(t, pass) ==> Step(t, pass, keys).s.c == EMPTY)
  {
    var t0 := Step(s, Load(id, removing), keys).s;
    StepSound(s, Load(id, removing), keys);
    SpentSlotEmpties(t0, acts, pass, keys);
    hide Work, Sound, Legal, Benign;
  }

  /** The same from any point of a run on. */
  lemma SpentSlotEmpties(s: Session, acts: seq<Act>, pass: Act, keys: seq<AppKey>)
    requires Sound(s, keys) && Runs(s, acts, keys) && NoLoad(acts) && Lowerings(acts) >= SessionBudget(s, keys)
    ensures var t := After(s, acts, keys);
            && t.w.out.None?
            && (pass.EnginePass? && !pass.ans.OutOfMemory? && Legal(t, pass) ==> Step(t, pass, keys).s.c == EMPTY)
  {
    RunSpends(s, acts, keys);
    var t := After(s, acts, keys);
    SoundAfter(s, acts, keys);
    hide Sound, SessionBudget, Runs, After, Lowerings, Step;
    if t.w.out.Some? {
      WaitingHasBudget(t, keys);
    }
    if pass.EnginePass? && !pass.ans.OutOfMemory? && Legal(t, pass) {
      StepSpends(t, pass, keys);
      NeverIdle(t, pass, keys);
      var u := Step(t, pass, keys).s;
      if u.w.out.Some? {
        WaitingHasBudget(u, keys);
      }
    }
  }

  lemma {:induction false} SoundAfter(s: Session, acts: seq<Act>, keys: seq<AppKey>)
    requires Sound(s, keys) && Runs(s, acts, keys)
    ensures Sound(After(s, acts, keys), keys)
    ensures After(s, acts, keys).w.comp == s.w.comp && After(s, acts, keys).n.cfg == s.n.cfg
    decreases |acts|
  {
    if acts != [] {
      StepSound(s, acts[0], keys);
      StepConstants(s, acts[0], keys);
      hide Step, Legal, Benign, Sound;
      SoundAfter(Step(s, acts[0], keys).s, acts[1..], keys);
    }
  }

  lemma NoRoundWhenEmpty(s: Session, rounds: seq<(Act, Act)>, keys: seq<AppKey>)
    requires s.c == EMPTY && Served(s, rounds, keys)
    ensures rounds == []
  {
  }

  /** A pass not answered out-of-memory leaves no slot idle: it releases the slot or leaves
      it awaiting a response, so a round is always there to be had. */
  lemma NeverIdle(s: Session, pass: Act, keys: seq<AppKey>)
    requires Sound(s, keys) && pass.EnginePass? && !pass.ans.OutOfMemory? && Legal(s, pass)
    ensures var t := Step(s, pass, keys).s;
            Sound(t, keys) && (t.c == EMPTY || t.w.out.Some?)
  {
    StepSound(s, pass, keys);
    PassSpends(s, keys, pass.timeUp, pass.ans);
    PassSound(s, keys, pass.timeUp, pass.ans);
    hide Pass, Budget, WellConfigured, CommandFor, Guard;
  }
}
