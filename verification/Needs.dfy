/** What a well configured node is needed for: without one of its clauses a state meets a
    failed ASSERT or leaves an array. */
module Needs {
  import opened Bits
  import opened Odometer
  import opened Mesh
  import opened Slot
  import opened Session

  /** The key the first item of a state is sent with. */
  predicate KeyExists(s: int, n: Node, keys: seq<AppKey>)
    requires Works(s) && Guard(s, n)
  {
    && (s == ADD_APPKEY || s == BIND ==> Resolvable(keys, n.cfg.bindings[0]))
    && (s == SET_PUB ==> Resolvable(keys, n.cfg.pub.value.aki))
  }

  /** The states that walk the elements. */
  predicate WalksElements(s: int) {
    BIND <= s <= ADD_SUB
  }

  predicate HasModels(comp: seq<Element>, e: int) {
    0 <= e < |comp| && ModelCount(comp[e]) > 0
  }

  /** The lowest feature bit that differs has a command, but not its parameters. */
  predicate ParameterLacks(n: Node)
    requires Diff(n) != 0
  {
    Settable(TrailingZeros(Diff(n))) && FeatureArgs(n.cfg, TrailingZeros(Diff(n))).None?
  }

  /** Every position of an iterating state exists and has a command exactly when its key exists
      and every element it walks has a model. */
  lemma ItemsExistExactly(s: int, n: Node, comp: seq<Element>, keys: seq<AppKey>)
    requires Iterates(s) && Guard(s, n)
    ensures var sh := ShapeOf(s, n, keys, comp);
            WellShaped(sh) && (forall p :: On(sh, p) ==> ItemAt(s, p, n, keys, comp).Cmd?) <==>
              && KeyExists(s, n, keys)
              && (WalksElements(s) ==> |comp| > 0 && forall e :: 0 <= e < |comp| ==> HasModels(comp, e))
  {
    var sh := ShapeOf(s, n, keys, comp);
    ElementsLead(s, n, comp, keys);
    if WellShaped(sh) {
      assert On(sh, ORIGIN);
      FirstItem(s, n, comp, keys);
    }
    hide ShapeOf;
  }

  /** A row of models is led by a visited one exactly when it has any. */
  lemma ElementsLead(s: int, n: Node, comp: seq<Element>, keys: seq<AppKey>)
    requires Iterates(s) && Guard(s, n)
    ensures WellShaped(ShapeOf(s, n, keys, comp)) <==>
              (WalksElements(s) ==> |comp| > 0 && forall e :: 0 <= e < |comp| ==> HasModels(comp, e))
  {
    var sh := ShapeOf(s, n, keys, comp);
    if WalksElements(s) {
      forall e | 0 <= e < |comp|
        ensures Leads(sh.models[e]) <==> HasModels(comp, e)
      {
        assert sh.models[e] == ModelRow(s, comp[e]);
      }
    }
  }

  lemma FirstItem(s: int, n: Node, comp: seq<Element>, keys: seq<AppKey>)
    requires Iterates(s) && Guard(s, n)
    ensures ItemAt(s, ORIGIN, n, keys, comp).Cmd? <==>
              KeyExists(s, n, keys) && (WalksElements(s) ==> HasModels(comp, 0))
    ensures ItemAt(s, ORIGIN, n, keys, comp).Cmd? || ItemAt(s, ORIGIN, n, keys, comp) == Broken
  {
  }

  /** Entering a state whose guard holds fires an ASSERT or leaves an array exactly when the key
      of its first item is missing, its first element has no model, or its first feature lacks
      its parameters. */
  lemma EntryAbortsExactly(s: int, c: Cache, n: Node, keys: seq<AppKey>, ans: Answer)
    requires Works(s) && Guard(s, n) && c.it == ORIGIN
    ensures !Enter(s, c, n, keys, ans).ok <==>
              || !KeyExists(s, n, keys)
              || (WalksElements(s) && !HasModels(c.dcd, 0))
              || (s == SET_CONFIG && ParameterLacks(n))
  {
    if Iterates(s) {
      FirstItem(s, n, c.dcd, keys);
    }
    hide ItemAt;
  }

  /** A turn inside a state does so exactly when it leads to an element without models. */
  lemma TurnAbortsExactly(s: int, p: Pos, n: Node, comp: seq<Element>, keys: seq<AppKey>)
    requires Iterates(s) && Guard(s, n) && KeyExists(s, n, keys) && On(ShapeOf(s, n, keys, comp), p)
    ensures var sh := ShapeOf(s, n, keys, comp);
            var t := Turn(sh, p);
            (!t.done && !ItemAt(s, t.pos, n, keys, comp).Cmd? <==>
              && WalksElements(s) && t.pos == Pos(p.e + 1, 0, 0) && p.e + 1 < |comp| && ModelCount(comp[p.e + 1]) == 0)
  {
    var sh := ShapeOf(s, n, keys, comp);
    assert WalksElements(s) ==>
             |sh.models| == |comp| && forall e :: 0 <= e < |comp| ==> |sh.models[e]| == ModelCount(comp[e]);
  }
}
