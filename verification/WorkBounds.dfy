/** The bound on the answers a loaded node takes, in numbers of keys, models and addresses. */
module WorkBounds {
  import opened Bits
  import opened Odometer
  import opened Mesh
  import opened Slot
  import opened Session
  import opened SessionSound
  import opened SessionRuns
  import opened Termination

  /** The models of all elements stored. */
  function AllModels(comp: seq<Element>): nat {
    if comp == [] then 0 else |comp[0].sig| + |comp[0].vendor| + AllModels(comp[1..])
  }

  lemma {:induction false} RowsTotal(s: int, comp: seq<Element>)
    ensures Total(ModelRows(s, comp)) == AllModels(comp)
  {
    if comp != [] {
      assert ModelRows(s, comp)[1..] == ModelRows(s, comp[1..]);
      RowsTotal(s, comp[1..]);
    }
  }

  /** The work items of a configuration: Get DCD, a key for every binding, a binding of each key
      to every model, a publication of every model, every address for every model, and every
      feature bit that differs. */
  function AllItems(n: Node, comp: seq<Element>): nat {
    1 + |n.cfg.bindings| + |n.cfg.bindings| * AllModels(comp) + AllModels(comp)
    + |n.cfg.sublist| * AllModels(comp) + PopCount(Diff(n))
  }

  lemma ItemsAreBounded(s: int, n: Node, keys: seq<AppKey>, comp: seq<Element>)
    requires GET_DCD <= s <= SET_CONFIG
    ensures ItemsLeft(s, ORIGIN, comp, n, keys) <=
              if s == GET_DCD then 1
              else if s == ADD_APPKEY then |n.cfg.bindings|
              else if s == BIND then |n.cfg.bindings| * AllModels(comp)
              else if s == SET_PUB then AllModels(comp)
              else if s == ADD_SUB then |n.cfg.sublist| * AllModels(comp)
              else PopCount(Diff(n))
  {
    if Iterates(s) {
      var sh := ShapeOf(s, n, keys, comp);
      ShapeSize(s, n, keys, comp);
      hide ShapeOf, AllModels;
      if On(sh, ORIGIN) {
        FullTourIsBounded(sh);
        hide Left, Total, On;
      }
    }
  }

  lemma ShapeSize(s: int, n: Node, keys: seq<AppKey>, comp: seq<Element>)
    requires Iterates(s)
    ensures var sh := ShapeOf(s, n, keys, comp);
            && Total(sh.models) == (if s == ADD_APPKEY then 1 else AllModels(comp))
            && |sh.inner| == (if s == SET_PUB then 1 else if s == ADD_SUB then |n.cfg.sublist| else |n.cfg.bindings|)
            && |sh.inner| * Total(sh.models) >= 0
  {
    RowsTotal(s, comp);
    assert [[true]][1..] == [];
    assert |[[true]][0]| == 1;
  }

  /** The work of a whole configuration is six answers an item: one, and five for the retries. */
  lemma WorkIsBounded(n: Node, keys: seq<AppKey>, comp: seq<Element>)
    ensures Work(GET_DCD, n, keys, comp) <= 6 * AllItems(n, comp)
    ensures Work(RM, n, keys, comp) <= 4
  {
    hide ItemsLeft, AllModels, Guard, Diff, PopCount;
    ItemsAreBounded(GET_DCD, n, keys, comp);
    ItemsAreBounded(ADD_APPKEY, n, keys, comp);
    ItemsAreBounded(BIND, n, keys, comp);
    ItemsAreBounded(SET_PUB, n, keys, comp);
    ItemsAreBounded(ADD_SUB, n, keys, comp);
    ItemsAreBounded(SET_CONFIG, n, keys, comp);
    assert ItemsLeft(RM, ORIGIN, comp, n, keys) == 1 by {
      OneItem(n, keys, comp);
    }
    assert Work(END, n, keys, comp) == 0 && Work(RM_END, n, keys, comp) == 0;
  }

  lemma OneItem(n: Node, keys: seq<AppKey>, comp: seq<Element>)
    ensures ItemsLeft(RM, ORIGIN, comp, n, keys) == 1
  {
  }

  /** So a node loaded for configuration takes at most six terminal events for each of its keys,
      bindings, publications, subscriptions and features, and one loaded for removal four. */
  lemma AnswersInNumbers(s: Session, id: nat, removing: bool, acts: seq<Act>, keys: seq<AppKey>)
    requires Sound(s, keys) && Legal(s, Load(id, removing))
    requires var t := Step(s, Load(id, removing), keys).s; Runs(t, acts, keys) && NoLoad(acts)
    ensures Lowerings(acts) <= if removing then 4 else 6 * AllItems(s.n, s.w.comp)
  {
    AnswersAreBounded(s, id, removing, acts, keys);
    WorkIsBounded(s.n, keys, s.w.comp);
    hide Sound, Runs, Legal, Work, AllItems;
  }
}
