/** The slots of the engine, their bitmap and the lists of nodes: loading slots, one
    engine pass, and the way from an event to the slot it belongs to. */
module Engine {
  import opened Bits
  import opened Mesh
  import opened Slot

  /** config, rm and fail are the node lists of the manager; nodes is the database. */
  datatype Eng = Eng(config: seq<nat>, rm: seq<nat>, fail: seq<nat>, used: nat, slots: seq<Cache>,
                     nodes: map<nat, Node>)

  function Queue(e: Eng, removing: bool): seq<nat> {
    if removing then e.rm else e.config
  }

  function WithoutFirst(e: Eng, removing: bool): (r: Eng)
    requires Queue(e, removing) != []
    ensures Queue(r, removing) == Queue(e, removing)[1..] && Queue(r, !removing) == Queue(e, !removing)
    ensures r.fail == e.fail && r.used == e.used && r.slots == e.slots && r.nodes == e.nodes
  {
    if removing then e.(rm := e.rm[1..]) else e.(config := e.config[1..])
  }

  /** Bit i of the bitmap is set exactly when slot i holds a node; the others are reset. */
  ghost predicate Tracked(e: Eng) {
    && Within(e.used, |e.slots|)
    && forall i :: 0 <= i < |e.slots| ==>
         (Bit(e.used, i) <==> e.slots[i].node.Some?) && (e.slots[i].node.None? ==> e.slots[i] == EMPTY)
  }

  /** Every node in a slot is in the database. */
  ghost predicate Known(e: Eng) {
    forall i :: 0 <= i < |e.slots| && e.slots[i].node.Some? ==> e.slots[i].node.value in e.nodes
  }

  /* Loading */

  predicate CanTake(e: Eng, removing: bool) {
    LowestZero(e.used) < |e.slots| && Queue(e, removing) != []
  }

  /** __cache_item_load writes the node and the two states of a slot that was reset. */
  function Started(c: Cache, id: nat, removing: bool): Cache {
    if removing then c.(node := Some(id), state := END, next := RM)
    else c.(node := Some(id), state := PROVISIONED, next := GET_DCD)
  }

  /** One turn of the loading loop. */
  function Take(e: Eng, removing: bool): Eng
    requires CanTake(e, removing)
  {
    var i := LowestZero(e.used);
    WithoutFirst(e, removing).(used := SetBit(e.used, i),
                               slots := e.slots[i := Started(e.slots[i], Queue(e, removing)[0], removing)])
  }

  function CachesLoad(e: Eng, removing: bool): Eng
    decreases |Queue(e, removing)|
  {
    if CanTake(e, removing) then CachesLoad(Take(e, removing), removing) else e
  }

  lemma TakeTracks(e: Eng, removing: bool)
    requires Tracked(e) && CanTake(e, removing)
    ensures Tracked(Take(e, removing))
  {
    var i := LowestZero(e.used);
    forall j: nat
      ensures Bit(SetBit(e.used, i), j) == (i == j || Bit(e.used, j))
    {
      SetBitBits(e.used, i, j);
    }
  }

  /** Loading keeps the bitmap exact, and stops only when every slot is in use or the
      list is empty; the nodes taken are the first of the list. */
  lemma {:induction false} LoadsAll(e: Eng, removing: bool)
    requires Tracked(e)
    ensures var r := CachesLoad(e, removing);
            && Tracked(r)
            && (PopCount(r.used) == |r.slots| || Queue(r, removing) == [])
            && |r.slots| == |e.slots|
            && |Queue(r, removing)| <= |Queue(e, removing)|
            && Queue(r, removing) == Queue(e, removing)[|Queue(e, removing)| - |Queue(r, removing)|..]
            && Queue(r, !removing) == Queue(e, !removing) && r.fail == e.fail && r.nodes == e.nodes
    decreases |Queue(e, removing)|
  {
    RoomBelow(e.used, |e.slots|);
    PopCountFull(e.used, |e.slots|);
    if CanTake(e, removing) {
      TakeTracks(e, removing);
      LoadsAll(Take(e, removing), removing);
    }
  }

  /* An engine pass */

  datatype EngOut = EngOut(e: Eng, cmd: Option<Command>, release: Release, ok: bool)

  predicate Occupied(e: Eng, i: nat) {
    i < |e.slots| && e.slots[i].node.Some? && e.slots[i].node.value in e.nodes
  }

  /** The body of the engine loop for slot i. */
  function PassSlot(e: Eng, i: nat, keys: seq<AppKey>, timeUp: bool, ans: Answer): EngOut
    requires Occupied(e, i)
  {
    var id := e.slots[i].node.value;
    var o := Pass(e.slots[i], e.nodes[id], keys, timeUp, ans);
    var e' := e.(slots := e.slots[i := o.c], nodes := e.nodes[id := o.n]);
    match o.release
    case Kept => EngOut(e', o.cmd, Kept, o.ok)
    case Freed(failed) =>
      EngOut(e'.(used := ClrBit(e.used, i), fail := if failed then e.fail + [id] else e.fail), o.cmd, o.release, o.ok)
  }

  /** Whether the guard timer of a slot has expired when the pass comes by, and the answer it gets. */
  datatype Chance = Chance(timeUp: bool, ans: Answer)

  /** The engine loop over the slots marked in todo, lowest first. */
  function PassAll(e: Eng, todo: nat, keys: seq<AppKey>, chances: seq<Chance>): (r: EngOut)
    requires Tracked(e) && Known(e) && Within(todo, |e.slots|) && |chances| == |e.slots|
    requires forall i: nat :: Bit(todo, i) ==> Bit(e.used, i)
    ensures r.ok ==> Tracked(r.e) && Known(r.e) && |r.e.slots| == |e.slots|
    decreases todo
  {
    if todo == 0 then EngOut(e, None, Kept, true)
    else
      var i := TrailingZeros(todo);
      var o := PassSlot(e, i, keys, chances[i].timeUp, chances[i].ans);
      if !o.ok then o
      else
        PassTracks(e, i, keys, chances[i].timeUp, chances[i].ans);
        RestTodo(e, o.e, todo, i);
        PassAll(o.e, ClrBit(todo, i), keys, chances)
  }

  /** The bits still to be visited are those of slots in use. */
  lemma RestTodo(e: Eng, e': Eng, todo: nat, i: nat)
    requires Bit(todo, i) && |e'.slots| == |e.slots| && Within(todo, |e.slots|)
    requires forall j: nat :: Bit(todo, j) ==> Bit(e.used, j)
    requires forall j: nat :: j != i ==> Bit(e'.used, j) == Bit(e.used, j)
    ensures ClrBit(todo, i) < todo && Within(ClrBit(todo, i), |e'.slots|)
    ensures forall j: nat :: Bit(ClrBit(todo, i), j) ==> Bit(e'.used, j)
  {
    ClrBitSmaller(todo, i);
    forall j: nat
      ensures Bit(ClrBit(todo, i), j) == (i != j && Bit(todo, j))
    {
      ClrBitBits(todo, i, j);
    }
  }

  /** A slot is released with its bit and only then; the others keep theirs. */
  lemma PassTracks(e: Eng, i: nat, keys: seq<AppKey>, timeUp: bool, ans: Answer)
    requires Tracked(e) && Known(e) && Occupied(e, i)
    ensures var o := PassSlot(e, i, keys, timeUp, ans);
            && Tracked(o.e) && Known(o.e) && |o.e.slots| == |e.slots|
            && (forall j: nat :: j != i ==> Bit(o.e.used, j) == Bit(e.used, j))
            && (Bit(o.e.used, i) <==> o.release.Kept?)
  {
    PassRelease(e.slots[i], e.nodes[e.slots[i].node.value], keys, timeUp, ans);
    hide Pass;
    forall j: nat
      ensures Bit(ClrBit(e.used, i), j) == (i != j && Bit(e.used, j))
    {
      ClrBitBits(e.used, i, j);
    }
  }

  lemma PassRelease(c: Cache, n: Node, keys: seq<AppKey>, timeUp: bool, ans: Answer)
    ensures var o := Pass(c, n, keys, timeUp, ans);
            (o.release.Freed? ==> o.c == EMPTY) && (o.release.Kept? ==> o.c.node == c.node)
  {
    hide Recover;
    var r := Recover(c, n, keys, timeUp, ans);
    if Movable(r.c) {
      MoveKeepsNode(r.c, r.n, keys, ans);
    }
    hide ToNextState;
  }

  lemma MoveKeepsNode(c: Cache, n: Node, keys: seq<AppKey>, ans: Answer)
    requires Movable(c)
    ensures ToNextState(c, n, keys, ans).c.node == c.node
  {
    EnterKeepsNode(if c.next == TO_NEXT then c.state + 1 else c.next, c, n, keys, ans);
  }

  lemma {:induction false} EnterKeepsNode(s: int, c: Cache, n: Node, keys: seq<AppKey>, ans: Answer)
    requires GET_DCD <= s <= RM_END
    ensures Enter(s, c, n, keys, ans).c.node == c.node
    decreases RM_END - s
  {
    hide CommandFor, Guard;
    if s != END && s != RM_END && !Guard(s, n) {
      EnterKeepsNode(s + 1, c, n, keys, ans);
    }
  }

  /* From an event to its slot */

  /** cache_from_cchandle: the lowest slot marked in todo whose command has this handle. */
  function CacheFromHandle(e: Eng, todo: nat, h: nat): (i: Option<nat>)
    requires Within(todo, |e.slots|)
    ensures i.Some? ==>
              Bit(todo, i.value) && i.value < |e.slots| && e.slots[i.value].node.Some? && e.slots[i.value].handle == h
    ensures i.None? ==> forall j: nat :: Bit(todo, j) && e.slots[j].node.Some? ==> e.slots[j].handle != h
    decreases todo
  {
    if todo == 0 then
      assert forall j: nat :: !Bit(0, j) by {
        forall j: nat
          ensures !Bit(0, j)
        {
          ZeroHasNoBits(j);
        }
      }
      None
    else
      var i := TrailingZeros(todo);
      if e.slots[i].node.Some? && e.slots[i].handle == h then Some(i)
      else
        ClrBitSmaller(todo, i);
        assert forall j: nat :: Bit(ClrBit(todo, i), j) == (i != j && Bit(todo, j)) by {
          forall j: nat
            ensures Bit(ClrBit(todo, i), j) == (i != j && Bit(todo, j))
          {
            ClrBitBits(todo, i, j);
          }
        }
        CacheFromHandle(e, ClrBit(todo, i), h)
  }
}
