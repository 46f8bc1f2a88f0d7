/** What the iterators of the states visit, in the terms of the configuration and the
    composition data: each position once, in lexicographic order, and back to zero. */
module Tours {
  import opened Odometer
  import opened Mesh
  import opened Slot

  /** Composition data every element of which keeps a model. */
  ghost predicate Populated(dcd: seq<Element>) {
    |dcd| > 0 && forall e :: 0 <= e < |dcd| ==> ModelCount(dcd[e]) > 0
  }

  /** The positions in the order of a state's iterator, from zero. */
  ghost predicate Covers(sh: Shape, visits: Pos -> bool) {
    && On(sh, ORIGIN)
    && (forall p :: p in Tour(sh, ORIGIN) <==> visits(p))
    && (forall i, j :: 0 <= i < j < |Tour(sh, ORIGIN)| ==> Less(Tour(sh, ORIGIN)[i], Tour(sh, ORIGIN)[j]))
    && var last := Tour(sh, ORIGIN)[|Tour(sh, ORIGIN)| - 1];
       On(sh, last) && Turn(sh, last) == Turned(ORIGIN, true)
  }

  lemma {:induction false} LastTurnsBack(sh: Shape, p: Pos)
    requires WellShaped(sh) && On(sh, p)
    ensures var last := Tour(sh, p)[|Tour(sh, p)| - 1];
            On(sh, last) && Turn(sh, last) == Turned(ORIGIN, true)
    decreases Left(sh, p)
  {
    TurnIsSuccessor(sh, p);
    LeftTurns(sh, p);
    if !Turn(sh, p).done {
      LastTurnsBack(sh, Turn(sh, p).pos);
    }
  }

  lemma ShapeCovers(sh: Shape, visits: Pos -> bool)
    requires WellShaped(sh) && forall p :: On(sh, p) <==> visits(p)
    ensures Covers(sh, visits)
  {
    FullTour(sh);
    LastTurnsBack(sh, ORIGIN);
    hide Tour, Turn, WellShaped, On;
  }

  /** The position stands at a model of an element. */
  predicate AtModel(dcd: seq<Element>, p: Pos) {
    0 <= p.e < |dcd| && 0 <= p.m < |dcd[p.e].sig| + |dcd[p.e].vendor|
  }

  /** The number of the model it stands at, SIG models first. */
  function NumberAt(dcd: seq<Element>, p: Pos): int
    requires AtModel(dcd, p)
  {
    var el := dcd[p.e];
    if p.m < |el.sig| then el.sig[p.m] else el.vendor[p.m - |el.sig|].mid
  }

  /** iter_bindings: every model of every element, SIG models before vendor models, and every
      configured key that exists, with the first key in any case. */
  lemma BindingsTour(n: Node, keys: seq<AppKey>, dcd: seq<Element>)
    requires Populated(dcd) && |n.cfg.bindings| > 0
    ensures Covers(ShapeOf(BIND, n, keys, dcd), (p: Pos) =>
              AtModel(dcd, p) && 0 <= p.k < |n.cfg.bindings| && (p.k == 0 || Resolvable(keys, n.cfg.bindings[p.k])))
  {
    ShapeCovers(ShapeOf(BIND, n, keys, dcd), (p: Pos) =>
      AtModel(dcd, p) && 0 <= p.k < |n.cfg.bindings| && (p.k == 0 || Resolvable(keys, n.cfg.bindings[p.k])));
  }

  /** iter_setpub: the first model of every element and every other that supports publication. */
  lemma PublicationsTour(n: Node, keys: seq<AppKey>, dcd: seq<Element>)
    requires Populated(dcd)
    ensures Covers(ShapeOf(SET_PUB, n, keys, dcd), (p: Pos) =>
              AtModel(dcd, p) && p.k == 0 && (p.m == 0 || NumberAt(dcd, p) !in NOT_PUB))
  {
    ShapeCovers(ShapeOf(SET_PUB, n, keys, dcd), (p: Pos) =>
      AtModel(dcd, p) && p.k == 0 && (p.m == 0 || NumberAt(dcd, p) !in NOT_PUB));
  }

  /** iter_addsub: the first model of every element and every other that supports
      subscription, each with every subscription address. */
  lemma SubscriptionsTour(n: Node, keys: seq<AppKey>, dcd: seq<Element>)
    requires Populated(dcd) && |n.cfg.sublist| > 0
    ensures Covers(ShapeOf(ADD_SUB, n, keys, dcd), (p: Pos) =>
              AtModel(dcd, p) && 0 <= p.k < |n.cfg.sublist| && (p.m == 0 || NumberAt(dcd, p) !in NOT_SUB))
  {
    ShapeCovers(ShapeOf(ADD_SUB, n, keys, dcd), (p: Pos) =>
      AtModel(dcd, p) && 0 <= p.k < |n.cfg.sublist| && (p.m == 0 || NumberAt(dcd, p) !in NOT_SUB));
  }

  /** iter_appkey: the first key and every other that exists. */
  lemma KeysTour(n: Node, keys: seq<AppKey>, dcd: seq<Element>)
    requires |n.cfg.bindings| > 0
    ensures Covers(ShapeOf(ADD_APPKEY, n, keys, dcd), (p: Pos) =>
              p.e == 0 && p.m == 0 && 0 <= p.k < |n.cfg.bindings|
                  && (p.k == 0 || Resolvable(keys, n.cfg.bindings[p.k])))
  {
    ShapeCovers(ShapeOf(ADD_APPKEY, n, keys, dcd), (p: Pos) =>
      p.e == 0 && p.m == 0 && 0 <= p.k < |n.cfg.bindings| && (p.k == 0 || Resolvable(keys, n.cfg.bindings[p.k])));
  }
}
