/** The nested iterators every configuration state walks.  A position names an
    element, a model of that element and an inner index (an application key or a
    subscription address).  A shape says which models of each element and which
    inner indices are visited; the first of each always is. */
module Odometer {

  datatype Pos = Pos(e: int, m: int, k: int)

  const ORIGIN := Pos(0, 0, 0)

  datatype Shape = Shape(models: seq<seq<bool>>, inner: seq<bool>)

  ghost predicate Leads(s: seq<bool>) {
    |s| > 0 && s[0]
  }

  /** At least one element, and every row starts with a visited index. */
  ghost predicate WellShaped(sh: Shape) {
    |sh.models| > 0 && Leads(sh.inner) && forall e :: 0 <= e < |sh.models| ==> Leads(sh.models[e])
  }

  predicate On(sh: Shape, p: Pos) {
    && 0 <= p.e < |sh.models|
    && 0 <= p.m < |sh.models[p.e]| && sh.models[p.e][p.m]
    && 0 <= p.k < |sh.inner| && sh.inner[p.k]
  }

  predicate Less(p: Pos, q: Pos) {
    p.e < q.e || (p.e == q.e && (p.m < q.m || (p.m == q.m && p.k < q.k)))
  }

  /** The least visited index above i, or the length of the row. */
  function NextOn(s: seq<bool>, i: int): (j: int)
    requires 0 <= i < |s|
    ensures i < j <= |s|
    ensures j < |s| ==> s[j]
    ensures forall x :: i < x < j ==> !s[x]
    decreases |s| - i
  {
    if i + 1 == |s| || s[i + 1] then i + 1 else NextOn(s, i + 1)
  }

  datatype Turned = Turned(pos: Pos, done: bool)

  /** One turn of the iterators: the inner index turns fastest and carries into the
      model, the model into the element; past the last element everything is zero. */
  function Turn(sh: Shape, p: Pos): Turned
    requires On(sh, p)
  {
    var k := NextOn(sh.inner, p.k);
    if k < |sh.inner| then Turned(Pos(p.e, p.m, k), false)
    else TurnModel(sh, p)
  }

  function TurnModel(sh: Shape, p: Pos): Turned
    requires On(sh, p)
  {
    var m := NextOn(sh.models[p.e], p.m);
    if m < |sh.models[p.e]| then Turned(Pos(p.e, m, 0), false)
    else if p.e + 1 < |sh.models| then Turned(Pos(p.e + 1, 0, 0), false)
    else Turned(ORIGIN, true)
  }

  lemma OriginIsLeast(sh: Shape)
    requires WellShaped(sh)
    ensures On(sh, ORIGIN)
    ensures forall q :: On(sh, q) ==> q == ORIGIN || Less(ORIGIN, q)
  {
  }

  /** A turn moves to the lexicographic successor among the visited positions, and
      reports the end, with the iterators at zero, exactly when there is none. */
  lemma TurnIsSuccessor(sh: Shape, p: Pos)
    requires WellShaped(sh) && On(sh, p)
    ensures !Turn(sh, p).done ==> On(sh, Turn(sh, p).pos) && Less(p, Turn(sh, p).pos)
    ensures !Turn(sh, p).done ==> forall q :: On(sh, q) && Less(p, q) ==>
              q == Turn(sh, p).pos || Less(Turn(sh, p).pos, q)
    ensures Turn(sh, p).done <==> forall q :: On(sh, q) ==> !Less(p, q)
    ensures Turn(sh, p).done ==> Turn(sh, p).pos == ORIGIN
  {
  }

  /** The positions from p on, in the order the turns reach them. */
  function Tour(sh: Shape, p: Pos): seq<Pos>
    requires On(sh, p)
    decreases |sh.models| - p.e, |sh.models[p.e]| - p.m, |sh.inner| - p.k
  {
    var t := Turn(sh, p);
    if t.done || !On(sh, t.pos) then [p] else [p] + Tour(sh, t.pos)
  }

  /** The work left at p, this position included. */
  function Left(sh: Shape, p: Pos): (n: nat)
    requires On(sh, p)
    ensures n > 0
  {
    |Tour(sh, p)|
  }

  lemma LeftTurns(sh: Shape, p: Pos)
    requires WellShaped(sh) && On(sh, p)
    ensures Turn(sh, p).done ==> Left(sh, p) == 1
    ensures !Turn(sh, p).done ==> On(sh, Turn(sh, p).pos) && Left(sh, p) == 1 + Left(sh, Turn(sh, p).pos)
  {
  }

  /** A tour visits every position from p on exactly once, in lexicographic order. */
  lemma {:induction false} TourIsExact(sh: Shape, p: Pos)
    requires WellShaped(sh) && On(sh, p)
    ensures forall q :: q in Tour(sh, p) <==> On(sh, q) && !Less(q, p)
    ensures forall i, j :: 0 <= i < j < |Tour(sh, p)| ==> Less(Tour(sh, p)[i], Tour(sh, p)[j])
    decreases |sh.models| - p.e, |sh.models[p.e]| - p.m, |sh.inner| - p.k
  {
    TurnIsSuccessor(sh, p);
    var t := Turn(sh, p);
    if t.done {
      assert Tour(sh, p) == [p];
      forall q | On(sh, q) && !Less(q, p)
        ensures q == p
      {
        assert !Less(p, q);
      }
    } else {
      TourIsExact(sh, t.pos);
      var rest := Tour(sh, t.pos);
      assert Tour(sh, p) == [p] + rest;
      forall j | 0 <= j < |rest|
        ensures Less(p, rest[j])
      {
        assert rest[j] in rest;
      }
    }
  }

  /** From the origin a tour is the whole of the work, in order and without repetition. */
  lemma FullTour(sh: Shape)
    requires WellShaped(sh)
    ensures On(sh, ORIGIN)
    ensures forall q :: q in Tour(sh, ORIGIN) <==> On(sh, q)
    ensures forall i, j :: 0 <= i < j < |Tour(sh, ORIGIN)| ==> Less(Tour(sh, ORIGIN)[i], Tour(sh, ORIGIN)[j])
  {
    OriginIsLeast(sh);
    TourIsExact(sh, ORIGIN);
    forall q | On(sh, q)
      ensures !Less(q, ORIGIN)
    {
    }
  }

  /** Jumping to the last inner index first, as a device without room for more
      addresses makes the subscription state do, turns the model at once and leaves less work. */
  lemma {:induction false} SkippingInnerTurnsModel(sh: Shape, p: Pos)
    requires WellShaped(sh) && On(sh, p) && sh.inner[|sh.inner| - 1]
    ensures On(sh, p.(k := |sh.inner| - 1))
    ensures Turn(sh, p.(k := |sh.inner| - 1)) == TurnModel(sh, p)
    ensures Left(sh, p.(k := |sh.inner| - 1)) <= Left(sh, p)
    decreases |sh.inner| - p.k
  {
    if p.k < |sh.inner| - 1 {
      var k := NextOn(sh.inner, p.k);
      var q := p.(k := k);
      SkippingInnerTurnsModel(sh, q);
      assert q.(k := |sh.inner| - 1) == p.(k := |sh.inner| - 1);
      LeftTurns(sh, p);
    }
  }

  /** The models of all elements together. */
  function Total(models: seq<seq<bool>>): nat {
    if models == [] then 0 else |models[0]| + Total(models[1..])
  }

  /** From a position on there are at most so many to visit: the rest of its model's, and all
      inner ones for each model behind it. */
  lemma {:induction false} TourIsBounded(sh: Shape, p: Pos)
    requires On(sh, p)
    ensures |Tour(sh, p)|
         <= |sh.inner| - p.k + |sh.inner| * (|sh.models[p.e]| - 1 - p.m + Total(sh.models[p.e + 1..]))
    decreases |sh.models| - p.e, |sh.models[p.e]| - p.m, |sh.inner| - p.k
  {
    var t := Turn(sh, p);
    if !t.done && On(sh, t.pos) {
      TourIsBounded(sh, t.pos);
      var n, behind := |sh.inner|, |sh.models[p.e]| - 1 - p.m + Total(sh.models[p.e + 1..]);
      var behind' := |sh.models[t.pos.e]| - 1 - t.pos.m + Total(sh.models[t.pos.e + 1..]);
      assert Tour(sh, p) == [p] + Tour(sh, t.pos);
      assert sh.models[p.e + 1..] != [] ==> sh.models[p.e + 1..][1..] == sh.models[p.e + 2..];
      hide Tour;
      if t.pos.k <= p.k {
        assert behind' + 1 <= behind;
        MoreBehind(n, behind', behind);
      }
    } else {
      NotNegative(|sh.inner|, |sh.models[p.e]| - 1 - p.m + Total(sh.models[p.e + 1..]));
    }
  }

  lemma MoreBehind(n: nat, a: int, b: int)
    requires 0 <= a < b
    ensures n + n * a <= n * b
  {
    assert n * b == n * (a + 1) + n * (b - a - 1);
  }

  lemma NotNegative(n: nat, a: nat)
    ensures n * a >= 0
  {
  }

  /** A whole tour visits at most every inner place of every model. */
  lemma FullTourIsBounded(sh: Shape)
    requires On(sh, ORIGIN)
    ensures Left(sh, ORIGIN) <= |sh.inner| * Total(sh.models)
  {
    TourIsBounded(sh, ORIGIN);
    var n, rest := |sh.inner|, |sh.models[0]| - 1 + Total(sh.models[1..]);
    assert n + n * rest == n * (rest + 1);
  }
}
