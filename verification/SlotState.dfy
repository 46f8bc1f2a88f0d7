/** One slot of the engine as the program keeps it: a record the callbacks of the states
    update in place.  Each method is proved to do what its function in Slot says. */
module SlotState {
  import opened Bits
  import opened Odometer
  import opened Mesh
  import opened Slot

  /** appkey_by_refid: the first active key with the reference. */
  method AppKeyByRefid(keys: seq<AppKey>, refid: int) returns (id: Option<int>)
    ensures forall x :: id == Some(x) <==>
              exists i :: 0 <= i < |keys| && keys[i].refid == refid && keys[i].id == x
                && forall j :: 0 <= j < i ==> keys[j].refid != refid
    ensures id == KeyId(keys, refid)
  {
    var i := 0;
    while i < |keys|
      invariant 0 <= i <= |keys|
      invariant KeyId(keys[i..], refid) == KeyId(keys, refid)
    {
      if keys[i].refid == refid {
        return Some(keys[i].id);
      }
      assert keys[i..][1..] == keys[i + 1..];
      i := i + 1;
    }
    return None;
  }

  /** The search for the next visited index is determined by what it finds. */
  lemma {:induction false} NextOnIs(s: seq<bool>, i: int, j: int)
    requires 0 <= i < j <= |s| && (j < |s| ==> s[j]) && forall x :: i < x < j ==> !s[x]
    ensures NextOn(s, i) == j
    decreases j - i
  {
  }

  /** The flags byte, and the error maps of err_cache. */
  datatype Flags = Flags(wait: bool, oom: bool, ever: bool)

  datatype ErrCache = ErrCache(bgcall: nat, bgevt: nat)

  const NO_FLAGS := Flags(false, false, false)

  class ConfigCache {
    var node: Option<nat>
    var state: nat
    var next: int
    var armed: bool
    var flags: Flags
    var remaining: nat
    var err: ErrCache
    var dcd: seq<Element>
    var handle: nat
    /** The iterators over elements, models and keys or addresses; Add Appkey counts keys in the first. */
    var it: Pos

    ghost function View(): Cache
      reads this
    {
      Cache(node, state, next, armed, flags.wait, flags.oom, flags.ever, remaining, err.bgcall, err.bgevt, dcd,
          handle, it)
    }

    constructor ()
      ensures View() == EMPTY
    {
      node, state, next, armed, flags := None, PROVISIONED, GET_DCD, false, NO_FLAGS;
      remaining, err, dcd, handle, it := 0, ErrCache(0, 0), [], 0, ORIGIN;
    }

    /** __cache_reset */
    method Reset()
      modifies this
      ensures View() == EMPTY
    {
      node := None;
      armed := false;
      flags := NO_FLAGS;
      remaining := 0;
      err := ErrCache(0, 0);
      dcd := [];
      handle := 0;
      it := ORIGIN;
      state := PROVISIONED;
      next := GET_DCD;
    }

    /* The iterators */

    ghost function At(s: int): Pos
      reads this
    {
      PosOf(s, it)
    }

    /** iter_appkey */
    method IterAppkey(n: Node, keys: seq<AppKey>) returns (done: bool)
      requires On(ShapeOf(ADD_APPKEY, n, keys, dcd), At(ADD_APPKEY)) && it.m == 0 && it.k == 0
      modifies this`it
      ensures Turned(At(ADD_APPKEY), done) == Turn(ShapeOf(ADD_APPKEY, n, keys, dcd), old(At(ADD_APPKEY)))
      ensures it.m == 0 && it.k == 0
    {
      ghost var row, was := KeyRow(n, keys), it.e;
      assert ShapeOf(ADD_APPKEY, n, keys, dcd) == Shape([[true]], row) && |row| == |n.cfg.bindings|;
      assert forall x :: 0 < x < |row| ==> row[x] == Resolvable(keys, n.cfg.bindings[x]);
      hide ShapeOf, KeyRow;
      it := it.(e := it.e + 1);
      while it.e != |n.cfg.bindings|
        invariant was < it.e <= |n.cfg.bindings| && it == Pos(it.e, 0, 0)
        invariant forall x :: was < x < it.e ==> !row[x]
      {
        var id := AppKeyByRefid(keys, n.cfg.bindings[it.e]);
        if id.Some? {
          break;
        }
        it := it.(e := it.e + 1);
      }
      NextOnIs(row, was, it.e);
      done := false;
      if it.e == |n.cfg.bindings| {
        it := it.(e := 0);
        done := true;
      }
    }

    /** iter_bindings */
    method IterBindings(n: Node, keys: seq<AppKey>) returns (done: bool)
      requires On(ShapeOf(BIND, n, keys, dcd), At(BIND))
      modifies this`it
      ensures Turned(At(BIND), done) == Turn(ShapeOf(BIND, n, keys, dcd), old(At(BIND)))
    {
      hide ShapeOf, ModelRow;
      ghost var row, was := KeyRow(n, keys), it.k;
      BindShape(n, keys, dcd, it);
      NextOnIs(ModelRow(BIND, dcd[it.e]), it.m, it.m + 1);
      it := it.(k := it.k + 1);
      while it.k != |n.cfg.bindings|
        invariant was < it.k <= |n.cfg.bindings| && it == old(it).(k := it.k)
        invariant forall x :: was < x < it.k ==> !row[x]
      {
        var id := AppKeyByRefid(keys, n.cfg.bindings[it.k]);
        if id.Some? {
          break;
        }
        it := it.(k := it.k + 1);
      }
      NextOnIs(row, was, it.k);
      done := false;
      if it.k == |n.cfg.bindings| {
        it := it.(k := 0);
        it := it.(m := it.m + 1);
        if it.m == |dcd[it.e].sig| + |dcd[it.e].vendor| {
          it := it.(m := 0);
          it := it.(e := it.e + 1);
          if it.e == |dcd| {
            it := it.(e := 0);
            done := true;
          }
        }
      }
    }

    /** The loop of iter_setpub and iter_addsub over the models of the element: whether one
        more is supported. */
    method NextModel(s: int) returns (increment: bool)
      requires s == SET_PUB || s == ADD_SUB
      requires 0 <= it.e < |dcd| && 0 <= it.m < ModelCount(dcd[it.e])
      modifies this`it
      ensures var j := NextOn(ModelRow(s, old(dcd[it.e])), old(it.m));
              increment == (j < ModelCount(old(dcd[it.e]))) && it == old(it).(m := if increment then j else 0)
    {
      ghost var row, was := ModelRow(s, dcd[it.e]), it.m;
      while true
        invariant it == old(it).(m := it.m) && was <= it.m < ModelCount(dcd[it.e])
        invariant forall x :: was < x <= it.m ==> !row[x]
        decreases ModelCount(dcd[it.e]) - it.m
      {
        it := it.(m := it.m + 1);
        if it.m == |dcd[it.e].sig| + |dcd[it.e].vendor| {
          NextOnIs(row, was, it.m);
          it := it.(m := 0);
          return false;
        }
        var md := if it.m >= |dcd[it.e].sig| then dcd[it.e].vendor[it.m - |dcd[it.e].sig|].mid else dcd[it.e].sig[it.m];
        assert md == ModelAt(dcd[it.e], it.m).mid;
        if (s == SET_PUB && PubSupported(md)) || (s == ADD_SUB && SubSupported(md)) {
          NextOnIs(row, was, it.m);
          return true;
        }
      }
    }

    /** iter_setpub */
    method IterSetpub(n: Node, keys: seq<AppKey>) returns (done: bool)
      requires On(ShapeOf(SET_PUB, n, keys, dcd), At(SET_PUB))
      modifies this`it
      ensures Turned(At(SET_PUB), done) == Turn(ShapeOf(SET_PUB, n, keys, dcd), old(At(SET_PUB)))
    {
      assert ShapeOf(SET_PUB, n, keys, dcd).models[it.e] == ModelRow(SET_PUB, dcd[it.e]);
      done := false;
      var increment := NextModel(SET_PUB);
      if !increment {
        it := it.(e := it.e + 1);
        if it.e == |dcd| {
          it := it.(e := 0);
          done := true;
        }
      }
    }

    /** iter_addsub */
    method IterAddsub(n: Node, keys: seq<AppKey>) returns (done: bool)
      requires On(ShapeOf(ADD_SUB, n, keys, dcd), At(ADD_SUB))
      modifies this`it
      ensures Turned(At(ADD_SUB), done) == Turn(ShapeOf(ADD_SUB, n, keys, dcd), old(At(ADD_SUB)))
    {
      assert ShapeOf(ADD_SUB, n, keys, dcd).models[it.e] == ModelRow(ADD_SUB, dcd[it.e]);
      ghost var inner := ShapeOf(ADD_SUB, n, keys, dcd).inner;
      NextOnIs(inner, it.k, it.k + 1);
      done := false;
      it := it.(k := it.k + 1);
      if it.k == |n.cfg.sublist| {
        it := it.(k := 0);
        var increment := NextModel(ADD_SUB);
        if !increment {
          it := it.(e := it.e + 1);
          if it.e == |dcd| {
            it := it.(e := 0);
            done := true;
          }
        }
      }
    }

    /** The iterator of the state. */
    method Iterate(n: Node, keys: seq<AppKey>) returns (done: bool)
      requires Iterates(state) && On(ShapeOf(state, n, keys, dcd), At(state))
      requires state == ADD_APPKEY ==> it.m == 0 && it.k == 0
      modifies this`it
      ensures Turned(At(state), done) == Turn(ShapeOf(state, n, keys, dcd), old(At(state)))
      ensures state == ADD_APPKEY ==> it.m == 0 && it.k == 0
    {
      if state == ADD_APPKEY {
        done := IterAppkey(n, keys);
      } else if state == BIND {
        done := IterBindings(n, keys);
      } else if state == SET_PUB {
        done := IterSetpub(n, keys);
      } else {
        done := IterAddsub(n, keys);
      }
    }

    /* The callbacks */

    /** err_set_to_end and err_set_to_rm_end */
    method ErrSetTo(call: bool, to: int)
      modifies this`err, this`armed, this`flags, this`next
      ensures View() == Fail(old(View()), call, to)
      ensures forall i: nat ::
                && Bit(err.bgcall, i) == (Bit(old(err.bgcall), i) || (call && i == state))
                && Bit(err.bgevt, i) == (Bit(old(err.bgevt), i) || (!call && i == state))
      ensures flags == NO_FLAGS && !armed && next == to
    {
      forall i: nat
        ensures Bit(SetBit(err.bgcall, state), i) == (i == state || Bit(err.bgcall, i))
        ensures Bit(SetBit(err.bgevt, state), i) == (i == state || Bit(err.bgevt, i))
      {
        SetBitBits(err.bgcall, state, i);
        SetBitBits(err.bgevt, state, i);
      }
      if call {
        err := err.(bgcall := SetBit(err.bgcall, state));
      } else {
        err := err.(bgevt := SetBit(err.bgevt, state));
      }
      armed := false;
      flags := NO_FLAGS;
      next := to;
    }

    /** The send callback of state s. */
    method Transmit(s: int, n: Node, keys: seq<AppKey>, ans: Answer) returns (ret: Asr, cmd: Option<Command>, ok: bool)
      modifies this`flags, this`handle, this`armed, this`err, this`next
      ensures Out(View(), n, ret, cmd, ok) == Send(s, old(View()), n, keys, ans)
    {
      var item := CommandFor(s, it, dcd, n, keys);
      hide CommandFor;
      match item {
        case Broken => return Suc, None, false;
        case NoItem => return NotFound, None, true;
        case Cmd(x) =>
          cmd := Some(x);
          ok := true;
      }
      match ans {
        case OutOfMemory =>
          flags := flags.(oom := true);
          ret := Oom;
        case Refused =>
          ErrSetTo(true, FailTo(s));
          ret := Bgapi;
        case Accepted(h) =>
          flags := flags.(wait := true);
          handle := h;
          armed := true;
          ret := Suc;
      }
    }

    /** The retry callback. */
    method Resend(n: Node, keys: seq<AppKey>, reason: Reason, ans: Answer)
      returns (ret: Asr, cmd: Option<Command>, ok: bool)
      modifies this`flags, this`handle, this`armed, this`err, this`next, this`remaining
      ensures Out(View(), n, ret, cmd, ok) == Retry(old(View()), n, keys, reason, ans)
      ensures ok && ret == Suc ==> flags.wait
    {
      hide CommandFor;
      ret, cmd, ok := Transmit(state, n, keys, ans);
      if !ok || ret != Suc {
        return;
      }
      match reason {
        case OnTimeout =>
          if !flags.ever || remaining == 0 {
            ok := false;
          } else {
            remaining := remaining - 1;
          }
        case OnOom =>
          if flags.oom {
            flags := flags.(oom := false);
          } else {
            ok := false;
          }
        case OnGuardTimer => armed := false;
      }
    }

    /** Add Appkey leaves the two iterators it does not use at zero. */
    ghost predicate Tidy()
      reads this
    {
      state == ADD_APPKEY ==> it.m == 0 && it.k == 0
    }

    /** On to the next work item, or to the end of the state. */
    method Proceed(n: Node, keys: seq<AppKey>, ans: Answer) returns (ret: Asr, cmd: Option<Command>, ok: bool)
      requires Iterates(state) && Tidy()
      modifies this`flags, this`handle, this`armed, this`err, this`next, this`it
      ensures Out(View(), n, ret, cmd, ok) == Advance(old(View()), n, keys, ans)
    {
      if !On(ShapeOf(state, n, keys, dcd), PosOf(state, it)) {
        return Suc, None, false;
      }
      var done := Iterate(n, keys);
      hide Send, ShapeOf, Turn;
      if done {
        next := TO_NEXT;
        return Suc, None, true;
      }
      ret, cmd, ok := Transmit(state, n, keys, ans);
    }

    /** The rest of the in-progress callback on a success report. */
    method Succeed(n: Node, keys: seq<AppKey>, which: nat, ans: Answer)
      returns (n': Node, ret: Asr, cmd: Option<Command>, ok: bool)
      requires Works(state) && Tidy()
      modifies this`flags, this`handle, this`armed, this`err, this`next, this`it
      ensures Out(View(), n', ret, cmd, ok) == OnSuccess(old(View()), n, keys, which, ans)
    {
      hide CommandFor, Advance, Iterates;
      n', ret, cmd, ok := n, Suc, None, true;
      if state == GET_DCD {
        next := AfterDcd(n.err, next);
      } else if state == RM {
        next := TO_NEXT;
      } else if state == SET_CONFIG {
        n' := FeatureSet(n, which);
        if Diff(n') == 0 {
          next := TO_NEXT;
        } else {
          ret, cmd, ok := Transmit(SET_CONFIG, n', keys, ans);
          if ret == NotFound {
            next := TO_NEXT;
            ret, cmd, ok := Suc, None, true;
          }
        }
      } else {
        assert Iterates(state) by {
          StatesThatIterate(state);
        }
        ret, cmd, ok := Proceed(n, keys, ans);
      }
    }

    /** A timeout report. */
    method TimedOut()
      modifies this`flags, this`armed, this`err, this`next, this`remaining
      ensures View() == OnTimeoutReport(old(View()))
      ensures flags.ever ==> remaining > 0
    {
      if !flags.ever {
        remaining := RetryLimit(state);
        flags := flags.(ever := true);
      } else if remaining == 0 {
        flags := flags.(ever := false);
        if state == RM {
          next := TO_NEXT;
        } else {
          ErrSetTo(false, END);
        }
      }
    }

    /** The in-progress callback on the terminal event of a command. */
    method Report(n: Node, keys: seq<AppKey>, which: nat, st: Status, ans: Answer)
      returns (n': Node, ret: Asr, cmd: Option<Command>, ok: bool)
      requires Works(state) && Tidy()
      modifies this`flags, this`handle, this`armed, this`err, this`next, this`remaining, this`it
      ensures Out(View(), n', ret, cmd, ok) == InProgress(old(View()), n, keys, which, st, ans)
    {
      hide OnSuccess, Advance, OnTimeoutReport, Fail;
      n', ret, cmd, ok := n, Suc, None, true;
      armed := false;
      flags := flags.(wait := false);
      if st == Success || (st == NotInitialized && state == SET_PUB) {
        flags := flags.(ever := false);
        remaining := 0;
        n', ret, cmd, ok := Succeed(n, keys, which, ans);
      } else if st == Timeout {
        TimedOut();
      } else if st == InsufficientResources && state == ADD_SUB {
        it := it.(k := |n.cfg.sublist| - 1);
        ret, cmd, ok := Proceed(n, keys, ans);
      } else {
        ErrSetTo(false, FailTo(state));
      }
    }

    /** dev_config_hdr once the slot is found. */
    method HandleEvent(n: Node, keys: seq<AppKey>, which: nat, st: Status, ans: Answer)
      returns (n': Node, ret: Asr, cmd: Option<Command>, ok: bool)
      requires Works(state) && Tidy()
      modifies this`flags, this`handle, this`armed, this`err, this`next, this`remaining, this`it
      ensures Out(View(), n', ret, cmd, ok) == Handle(old(View()), n, keys, which, st, ans)
      ensures ok && ret == Suc && flags.ever ==> flags.wait
    {
      hide InProgress, Retry;
      n', ret, cmd, ok := n, Suc, None, true;
      if flags.wait {
        n', ret, cmd, ok := Report(n, keys, which, st, ans);
      }
      if ok && ret == Suc && !flags.wait && flags.ever {
        ret, cmd, ok := Resend(n', keys, OnTimeout, ans);
      }
    }

    /** A page of composition data. */
    method TakePage(elems: seq<Element>)
      modifies this`armed, this`dcd
      ensures View() == OnPage(old(View()), elems)
    {
      if flags.wait && Works(state) {
        armed := false;
        if state == GET_DCD {
          dcd := elems;
        }
      }
    }

    /** end_entry and rmend_entry */
    method EnterEnd(n: Node, to: nat) returns (n': Node)
      requires to == END || to == RM_END
      modifies this`state, this`next
      ensures View() == old(View()).(state := to, next := to) && n' == EndNode(old(View()), n, to == END)
    {
      if err.bgcall != 0 || err.bgevt != 0 {
        n' := n.(err := Or(err.bgevt, err.bgcall) % 0x8000_0000);
      } else {
        n' := n.(err := 0, done := to == END);
      }
      state := to;
      next := to;
    }

    /** to_next_state: the states in their order until one is entered. */
    method ToNext(n: Node, keys: seq<AppKey>, ans: Answer) returns (n': Node, ret: Asr, cmd: Option<Command>, ok: bool)
      requires Movable(View())
      modifies this`flags, this`handle, this`armed, this`err, this`next, this`state
      ensures Out(View(), n', ret, cmd, ok) == ToNextState(old(View()), n, keys, ans)
    {
      var s := if next == TO_NEXT then state + 1 else next;
      ghost var goal := ToNextState(View(), n, keys, ans);
      hide Guard, Send, EndNode;
      n', ret, cmd, ok := n, Suc, None, true;
      while true
        invariant GET_DCD <= s <= RM_END && View() == old(View())
        invariant Enter(s, View(), n, keys, ans) == goal
        decreases RM_END - s
      {
        if s == END || s == RM_END {
          n' := EnterEnd(n, s);
          return;
        }
        var passed := Guard(s, n);
        if passed {
          break;
        }
        s := s + 1;
      }
      ret, cmd, ok := Transmit(s, n, keys, ans);
      if ret == Bgapi {
        n' := EnterEnd(n, END);
        ret, ok := Suc, true;
      } else {
        state := s;
        next := s;
      }
    }

    /** What a pass does first: look for an expired guard timer or a pending out-of-memory. */
    method LookAfter(n: Node, keys: seq<AppKey>, timeUp: bool, ans: Answer)
      returns (ret: Asr, cmd: Option<Command>, ok: bool)
      modifies this`flags, this`handle, this`armed, this`err, this`next, this`remaining
      ensures Out(View(), n, ret, cmd, ok) == Recover(old(View()), n, keys, timeUp, ans)
    {
      hide Retry;
      ret, cmd, ok := Suc, None, true;
      if armed && timeUp && Works(state) {
        ret, cmd, ok := Resend(n, keys, OnGuardTimer, ans);
      } else if flags.oom && Works(state) {
        var waits := flags.wait;
        ret, cmd, ok := Resend(n, keys, OnOom, ans);
        ok := ok && !waits;
      }
    }

    /** One engine pass over the slot. */
    method EnginePass(n: Node, keys: seq<AppKey>, timeUp: bool, ans: Answer)
      returns (n': Node, cmd: Option<Command>, release: Release, ok: bool)
      modifies this
      ensures PassOut(View(), n', cmd, release, ok) == Pass(old(View()), n, keys, timeUp, ans)
      ensures release.Freed? ==> View() == EMPTY
    {
      var ret;
      n', release := n, Kept;
      ret, cmd, ok := LookAfter(n, keys, timeUp, ans);
      hide Recover, ToNextState;
      if !ok || flags.wait || state == next {
        return;
      }
      if (next == TO_NEXT && !(GET_DCD <= state < RM_END)) || (next != TO_NEXT && !(GET_DCD <= next <= RM_END)) {
        ok := false;
        return;
      }
      var sent;
      n', ret, sent, ok := ToNext(n, keys, ans);
      if cmd.None? {
        cmd := sent;
      }
      if ok && (state == END || state == RM_END) {
        release := Freed(err.bgcall != 0 || err.bgevt != 0);
        Reset();
      }
    }
  }

  lemma BindShape(n: Node, keys: seq<AppKey>, dcd: seq<Element>, p: Pos)
    requires On(ShapeOf(BIND, n, keys, dcd), p)
    ensures var sh := ShapeOf(BIND, n, keys, dcd);
            && |sh.models| == |dcd| && sh.inner == KeyRow(n, keys)
            && 0 <= p.e < |dcd| && sh.models[p.e] == ModelRow(BIND, dcd[p.e])
            && |ModelRow(BIND, dcd[p.e])| == ModelCount(dcd[p.e])
            && forall x :: 0 <= x < ModelCount(dcd[p.e]) ==> ModelRow(BIND, dcd[p.e])[x]
  {
  }

  lemma StatesThatIterate(s: int)
    requires Works(s) && s != GET_DCD && s != RM && s != SET_CONFIG
    ensures Iterates(s)
  {
  }
}
