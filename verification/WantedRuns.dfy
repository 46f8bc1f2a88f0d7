/** Nothing but the configuration: whatever was lost, repeated or refused, a device holds what
    it held before and what the configuration of its node asks for. */
module WantedRuns {
  import opened Bits
  import opened Odometer
  import opened Mesh
  import opened Slot
  import opened Session
  import opened SessionSound
  import opened SessionRuns
  import opened Wanted
  import Y = System
  import R = SystemRuns

  /** What an active slot awaits asks for a part of the configuration. */
  lemma ActiveMeant(c: Cache, n: Node, keys: seq<AppKey>, comp: seq<Element>)
    requires Active(c, n, keys, comp) && n.cfg.addr != 0
    ensures Meant(CommandFor(c.state, c.it, c.dcd, n, keys).cmd, n.cfg, keys, comp)
  {
    if Iterates(c.state) {
      ItemMeant(c.state, PosOf(c.state, c.it), n, keys, c.dcd);
      hide Meant, ItemAt, Guard;
    } else if c.state == SET_CONFIG {
      FeatureMeant(n, keys, comp);
      hide Meant, NextFeature;
    }
  }

  /** So does the command whose terminal event is due. */
  lemma DueMeant(s: Session, keys: seq<AppKey>)
    requires Sound(s, keys) && s.w.out.Some?
    ensures Meant(s.w.out.value, s.n.cfg, keys, s.w.comp)
  {
    hide Meant;
    Awaiting(s, keys);
    ActiveMeant(s.c, s.n, keys, s.w.comp);
    hide Active, InUse, OneErrorBit;
  }

  /** The device holds what it held, and what the configuration asks for. */
  ghost predicate Only(d: Device, was: Device, cfg: NodeConfig, keys: seq<AppKey>, comp: seq<Element>) {
    && (forall key :: key in d.keys ==> key in was.keys || Meant(AddKey(key), cfg, keys, comp))
    && (forall e, model, key :: (e, model, key) in d.bound ==>
          (e, model, key) in was.bound || Meant(Bind(e, model, key), cfg, keys, comp))
    && (forall k :: k in d.pubs ==>
          || (k in was.pubs && d.pubs[k] == was.pubs[k])
          || (d.pubs[k].SetPub? && (d.pubs[k].e, d.pubs[k].model) == k && Meant(d.pubs[k], cfg, keys, comp)))
    && (forall k, a :: k in d.subs && a in d.subs[k] ==>
          || (k in was.subs && a in was.subs[k])
          || Meant(SetSub(k.0, k.1, a), cfg, keys, comp) || Meant(AddSub(k.0, k.1, a), cfg, keys, comp))
    && (forall b :: b in d.feats ==>
          || (b in was.feats && d.feats[b] == was.feats[b])
          || Meant(Feature(b, d.feats[b]), cfg, keys, comp))
  }

  lemma ApplyOnly(d: Device, was: Device, cfg: NodeConfig, keys: seq<AppKey>, comp: seq<Element>, cmd: Command)
    requires Only(d, was, cfg, keys, comp) && Meant(cmd, cfg, keys, comp)
    ensures Only(Apply(d, cmd), was, cfg, keys, comp)
  {
    hide Meant;
  }

  lemma SettleOnly(s: Session, was: Device, effect: bool, keys: seq<AppKey>)
    requires Sound(s, keys) && Only(s.w.dev, was, s.n.cfg, keys, s.w.comp)
    ensures Only(Settle(s.w, effect).dev, was, s.n.cfg, keys, s.w.comp)
  {
    hide Only;
    if effect && s.w.out.Some? {
      DueMeant(s, keys);
      hide Sound, Meant;
      ApplyOnly(s.w.dev, was, s.n.cfg, keys, s.w.comp, s.w.out.value);
    }
  }

  lemma StepOnly(s: Session, act: Act, was: Device, keys: seq<AppKey>)
    requires Sound(s, keys) && Legal(s, act) && Benign(s, act, keys) && (act.Reply? ==> Works(s.c.state))
    requires Only(s.w.dev, was, s.n.cfg, keys, s.w.comp)
    ensures Only(Step(s, act, keys).s.w.dev, was, s.n.cfg, keys, s.w.comp)
  {
    hide Only, Sound, Handle, Pass;
    var effect := if act.EnginePass? then act.effect else act.Reply? && (act.effect || act.st == Success);
    SettleOnly(s, was, effect, keys);
  }

  lemma {:induction false} RunOnly(s: Session, acts: seq<Act>, was: Device, keys: seq<AppKey>)
    requires Sound(s, keys) && Runs(s, acts, keys) && Only(s.w.dev, was, s.n.cfg, keys, s.w.comp)
    ensures Only(After(s, acts, keys).w.dev, was, s.n.cfg, keys, s.w.comp)
    decreases |acts|
  {
    hide Only, Sound;
    if acts != [] {
      StepSound(s, acts[0], keys);
      StepOnly(s, acts[0], was, keys);
      StepConstants(s, acts[0], keys);
      hide Step, Legal, Benign;
      RunOnly(Step(s, acts[0], keys).s, acts[1..], was, keys);
    }
  }

  /** Over whole runs a device comes to hold no key, binding, publication, subscription or feature
      value but those of the configuration. */
  lemma NothingElse(s: Session, acts: seq<Act>, keys: seq<AppKey>)
    requires Begins(s, keys) && Runs(s, acts, keys)
    ensures Only(After(s, acts, keys).w.dev, s.w.dev, s.n.cfg, keys, s.w.comp)
  {
    BeginsWell(s, keys);
    hide Meant;
    assert Only(s.w.dev, s.w.dev, s.n.cfg, keys, s.w.comp);
    hide Only, Begins, Runs, After;
    RunOnly(s, acts, s.w.dev, keys);
  }

  /** And so does every device however the slots of the engine interleave. */
  lemma NothingElseOnAnyDevice(s: Y.Sys, moves: seq<Y.Move>, keys: seq<AppKey>, id: nat)
    requires R.Starts(s, keys) && R.Moves(s, moves, keys) && Y.Registered(s, id)
    ensures Y.Registered(R.EndOf(s, moves, keys), id)
    ensures var t := Y.SessionOf(s, id);
            Only(Y.SessionOf(R.EndOf(s, moves, keys), id).w.dev, t.w.dev, t.n.cfg, keys, t.w.comp)
  {
    R.StartsWell(s, keys);
    R.RunProjects(s, moves, keys, id);
    hide Only, Y.Inv, R.Moves, Y.SessionOf, Runs, After, Begins;
    NothingElse(Y.SessionOf(s, id), R.ActsFor(s, moves, keys, id), keys);
  }
}
