/** The engine as the program keeps it: a fixed array of slots, a bitmap and lists updated
    in loops.  The database of nodes is a dictionary the methods reassign. */
module EngineState {
  import opened Bits
  import opened Bytes
  import opened Mesh
  import opened Slot
  import opened Engine
  import D = DcdPage
  import opened SlotState

  class Manager {
    const cache: seq<ConfigCache>
    var used: nat
    var config: seq<nat>
    var rm: seq<nat>
    var fail: seq<nat>
    var nodes: map<nat, Node>

    ghost predicate Distinct() {
      forall i, j :: 0 <= i < j < |cache| ==> cache[i] != cache[j]
    }

    ghost function Slots(): (s: seq<Cache>)
      reads cache
      ensures |s| == |cache| && forall i :: 0 <= i < |s| ==> s[i] == cache[i].View()
    {
      seq(|cache|, i requires 0 <= i < |cache| reads cache => cache[i].View())
    }

    ghost function View(): Eng
      reads this, cache
    {
      Eng(config, rm, fail, used, Slots(), nodes)
    }

    ghost predicate Valid()
      reads this, cache
    {
      Distinct() && Tracked(View()) && Known(View())
    }

    constructor (slots: seq<ConfigCache>, db: map<nat, Node>)
      requires forall i, j :: 0 <= i < j < |slots| ==> slots[i] != slots[j]
      requires forall i :: 0 <= i < |slots| ==> slots[i].View() == EMPTY
      ensures Valid() && cache == slots && View() == Eng([], [], [], 0, Slots(), db)
    {
      cache := slots;
      used, config, rm, fail, nodes := 0, [], [], [], db;
      new;
      NoBits();
    }

    lemma NoBits()
      ensures Within(0, |cache|) && forall i: nat :: !Bit(0, i)
    {
      forall i: nat
        ensures !Bit(0, i)
      {
        ZeroHasNoBits(i);
      }
    }

    method TakeFirst(removing: bool) returns (id: nat)
      requires Queue(View(), removing) != []
      modifies this`config, this`rm
      ensures id == Queue(old(View()), removing)[0] && View() == WithoutFirst(old(View()), removing)
    {
      if removing {
        id := rm[0];
        rm := rm[1..];
      } else {
        id := config[0];
        config := config[1..];
      }
    }

    /** __cache_item_load */
    method ItemLoad(ofs: nat, id: nat, removing: bool)
      requires Distinct() && ofs < |cache|
      modifies this`used, cache[ofs]
      ensures var c := Started(old(cache[ofs].View()), id, removing);
              View() == old(View()).(used := SetBit(old(used), ofs), slots := old(Slots())[ofs := c])
    {
      var c := cache[ofs];
      c.node := Some(id);
      if removing {
        c.state := END;
        c.next := RM;
      } else {
        c.state := PROVISIONED;
        c.next := GET_DCD;
      }
      used := SetBit(used, ofs);
      assert Slots() == old(Slots())[ofs := Started(old(cache[ofs].View()), id, removing)];
    }

    /** __caches_load */
    method Load(removing: bool) returns (loaded: nat)
      requires Valid()
      modifies this`used, this`config, this`rm, cache
      ensures Distinct() && View() == CachesLoad(old(View()), removing)
      ensures loaded == |Queue(old(View()), removing)| - |Queue(View(), removing)|
    {
      loaded := 0;
      var count := if removing then |rm| else |config|;
      RoomBelow(used, |cache|);
      if PopCount(used) == |cache| || count == 0 {
        return;
      }
      ghost var goal, q := CachesLoad(View(), removing), Queue(View(), removing);
      while true
        invariant Distinct() && Tracked(View())
        invariant CachesLoad(View(), removing) == goal
        invariant loaded == |q| - |Queue(View(), removing)|
        decreases |Queue(View(), removing)|
      {
        var ofs := FirstZero(used);
        if ofs >= |cache| {
          break;
        }
        if (if removing then |rm| else |config|) == 0 {
          break;
        }
        TakeTracks(View(), removing);
        ghost var next := Take(View(), removing);
        var id := TakeFirst(removing);
        ItemLoad(ofs, id, removing);
        assert View() == next;
        loaded := loaded + 1;
      }
    }

    /** The body of the engine loop for slot i, which holds a node. */
    method PassOver(i: nat, keys: seq<AppKey>, timeUp: bool, ans: Answer)
      returns (cmd: Option<Command>, release: Release, ok: bool)
      requires Distinct() && Occupied(View(), i)
      modifies this`used, this`fail, this`nodes, cache[i]
      ensures Distinct() && EngOut(View(), cmd, release, ok) == PassSlot(old(View()), i, keys, timeUp, ans)
    {
      var c := cache[i];
      ghost var goal := PassSlot(View(), i, keys, timeUp, ans);
      assert c.View() == Slots()[i];
      var id := c.node.value;
      var n;
      n, cmd, release, ok := c.EnginePass(nodes[id], keys, timeUp, ans);
      hide Pass;
      nodes := nodes[id := n];
      match release {
        case Kept =>
        case Freed(failed) =>
          used := ClrBit(used, i);
          if failed {
            fail := fail + [id];
          }
      }
      assert Slots() == old(Slots())[i := c.View()];
    }

    /** config_engine: one pass over the slots in use, lowest first, up to a failed ASSERT. */
    method ConfigEngine(keys: seq<AppKey>, chances: seq<Chance>) returns (ok: bool)
      requires Valid() && |chances| == |cache|
      modifies this`used, this`fail, this`nodes, cache
      ensures var o := PassAll(old(View()), old(used), keys, chances);
              Distinct() && ok == o.ok && View() == o.e
      ensures ok ==> Valid()
    {
      ghost var goal := PassAll(View(), used, keys, chances);
      var usedmap := used;
      ok := true;
      hide PassSlot;
      while usedmap != 0
        invariant ok && Valid() && Within(usedmap, |cache|)
        invariant forall j: nat :: Bit(usedmap, j) ==> Bit(used, j)
        invariant PassAll(View(), usedmap, keys, chances) == goal
        decreases usedmap
      {
        var i := TrailingZeros(usedmap);
        ghost var e := View();
        assert Occupied(e, i);
        PassTracks(e, i, keys, chances[i].timeUp, chances[i].ans);
        var cmd, release;
        cmd, release, ok := PassOver(i, keys, chances[i].timeUp, chances[i].ans);
        if !ok {
          return;
        }
        RestTodo(e, View(), usedmap, i);
        usedmap := ClrBit(usedmap, i);
      }
    }

    /** cache_from_cchandle */
    method FindByHandle(h: nat) returns (found: Option<nat>)
      requires Valid()
      ensures found == CacheFromHandle(View(), used, h)
    {
      ghost var e := View();
      var usedmap := used;
      while usedmap != 0
        invariant Within(usedmap, |cache|) && (forall j: nat :: Bit(usedmap, j) ==> Bit(used, j))
        invariant CacheFromHandle(e, usedmap, h) == CacheFromHandle(e, used, h)
        decreases usedmap
      {
        var i := TrailingZeros(usedmap);
        assert e.slots[i] == cache[i].View();
        if cache[i].node.Some? && cache[i].handle == h {
          return Some(i);
        }
        RestTodo(e, e, usedmap, i);
        usedmap := ClrBit(usedmap, i);
      }
      return None;
    }

    /** dev_config_hdr on the terminal event of the command with handle h.  The event goes to
        the slot the search finds; a slot in a state without callbacks is left as it is. */
    method HandleEnd(h: nat, keys: seq<AppKey>, which: nat, st: Status, ans: Answer)
      returns (found: Option<nat>, cmd: Option<Command>, ok: bool)
      requires Valid()
      requires var i := CacheFromHandle(View(), used, h);
               i.Some? ==> cache[i.value].Tidy()
      modifies this`nodes, cache
      ensures Distinct() && found == CacheFromHandle(old(View()), old(used), h)
      ensures found.None? ==> !ok && View() == old(View())
      ensures found.Some? && !Works(old(View()).slots[found.value].state) ==> ok && cmd.None? && View() == old(View())
      ensures found.Some? && Works(old(View()).slots[found.value].state) ==>
                var i, e := found.value, old(View());
                var id := e.slots[i].node.value;
                && id in e.nodes
                && var o := Handle(e.slots[i], e.nodes[id], keys, which, st, ans);
                   && View() == e.(slots := e.slots[i := o.c], nodes := e.nodes[id := o.n])
                   && cmd == o.cmd && ok == o.ok
    {
      found := FindByHandle(h);
      if found.None? {
        return None, None, false;
      }
      var i := found.value;
      var c := cache[i];
      assert c.View() == Slots()[i];
      if !Works(c.state) {
        return found, None, true;
      }
      var id := c.node.value;
      var n, ret;
      n, ret, cmd, ok := c.HandleEvent(nodes[id], keys, which, st, ans);
      hide Handle;
      nodes := nodes[id := n];
      assert Slots() == old(Slots())[i := c.View()];
    }

    /** dev_config_hdr on the first page of composition data: for a slot that waits in Get DCD
        both passes over its bytes, and the slot with the elements they found, the whole page
        exactly when it is counted right.  Any other slot stores nothing. */
    method HandlePage(h: nat, data: seq<Byte>, ghost p: D.Page) returns (found: Option<nat>, page: Option<D.Stored>)
      requires Valid() && D.ValidPage(p) && data == D.Encode(p)
      modifies cache
      ensures Distinct() && found == CacheFromHandle(old(View()), used, h)
      ensures found.None? ==> page.None? && View() == old(View())
      ensures found.Some? ==>
                var i, e := found.value, old(View());
                && (page.Some? <==> e.slots[i].wait && e.slots[i].state == GET_DCD)
                && (page.None? ==> View() == e.(slots := e.slots[i := OnPage(e.slots[i], [])]))
                && (page.Some? && !page.value.Stored? ==> View() == e)
                && (page.Some? && page.value.Stored? ==>
                      && D.StoredAs(p, page.value.elems)
                      && View() == e.(slots := e.slots[i := OnPage(e.slots[i], page.value.elems)]))
      ensures page.Some? ==>
                |data| >= 14 && (page.value == D.Stored(p.feature, D.Decoded(p.elems)) <==> D.StopsAt(data, |p.elems|))
    {
      found := FindByHandle(h);
      page := None;
      if found.None? {
        return;
      }
      var c := cache[found.value];
      assert c.View() == Slots()[found.value];
      if c.flags.wait && c.state == GET_DCD {
        var r := D.Store(data, p);
        page := Some(r);
        if !r.Stored? {
          return;
        }
        c.TakePage(r.elems);
      } else {
        c.TakePage([]);
      }
      assert Slots() == old(Slots())[found.value := c.View()];
    }
  }
}
