/** The manager's phase as the program keeps it. */
module PhaseState {
  import opened Bits
  import opened Mesh
  import opened Engine
  import opened System
  import opened EngineState
  import opened Phases

  class Sync {
    const engine: Manager
    var phase: nat
    var offs: nat
    var prios: seq<char>
    var add: seq<nat>
    var bl: seq<nat>
    var blIdle: bool

    /** The devices are not part of the manager. */
    ghost function View(): Mgr
      reads this, engine, engine.cache
    {
      Mgr(phase, offs, prios, add, bl, blIdle, Sys(engine.View(), map[], map[], []))
    }

    /** mng_init */
    constructor (e: Manager)
      ensures engine == e && phase == 0 && offs == 0 && prios == "arb" && add == [] && bl == [] && blIdle
    {
      engine := e;
      phase, offs, prios := 0, 0, "arb";
      add, bl, blIdle := [], [], true;
    }

    /** Whether the lists a letter stands for hold work, and the phase it asks for. */
    method PhaseAt(p: char) returns (loaded: bool, to: nat)
      requires p in "arb"
      ensures loaded == !NothingFor(View(), p) && (loaded ==> to == PhaseFor(View(), p))
    {
      if p == 'a' {
        if |add| != 0 {
          return true, ADDING;
        }
        return |engine.config| != 0, CONFIGURING;
      } else if p == 'r' {
        return |engine.rm| != 0, REMOVING;
      }
      return |bl| != 0, BLACKLISTING;
    }

    /** The loop of set_mng_state over the order of phases. */
    method ChoosePhase() returns (ok: bool)
      modifies this`phase, this`offs
      ensures MgrOut(View(), ok) == NextPhase(old(View()))
    {
      ghost var goal := NextPhase(View());
      var loaded := false;
      hide NothingFor, PhaseFor;
      while offs < 3 && !loaded
        invariant !loaded ==> NextPhase(View()) == goal
        invariant loaded ==> MgrOut(View(), true) == goal
        decreases 3 - offs, !loaded
      {
        if offs >= |prios| || prios[offs] !in "arb-" {
          return false;
        }
        if prios[offs] == '-' {
          break;
        }
        var to;
        loaded, to := PhaseAt(prios[offs]);
        if loaded {
          phase := to;
        }
        offs := offs + 1;
      }
      if !loaded {
        offs := 0;
        phase := CONFIGURED;
      }
      ok := true;
    }

    /** set_mng_state */
    method SetMngState() returns (ok: bool)
      modifies this`phase, this`offs
      ensures MgrOut(View(), ok) == SetState(old(View()))
    {
      if phase < STARTING || phase > BLACKLISTING {
        return true;
      }
      if phase == ADDING {
        if |add| != 0 {
          return true;
        }
        if |engine.config| != 0 || engine.used != 0 {
          phase := CONFIGURING;
          return true;
        }
      } else if phase == CONFIGURING {
        if |engine.config| != 0 || engine.used != 0 {
          return true;
        }
      } else if phase == REMOVING {
        if |engine.rm| != 0 || engine.used != 0 {
          return true;
        }
      } else if phase == BLACKLISTING {
        if |engine.rm| != 0 || !blIdle {
          return true;
        }
      }
      if phase == STARTING {
        offs := 0;
      }
      ok := ChoosePhase();
    }

    /** The stop of clicb_sync: the lists are emptied and no phase is left to enter. */
    method Stop()
      requires phase >= STARTING && this as object != engine
      modifies this`add, this`bl, this`offs, engine`config, engine`rm, engine`fail
      ensures View() == WithLists(old(View()), [], [], [], []).(offs := 3)
    {
      add := [];
      bl := [];
      engine.config := [];
      engine.rm := [];
      engine.fail := [];
      offs := 3;
    }
  }
}
