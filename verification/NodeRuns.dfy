/** What the theorems of one session say of every node of the engine, however its slots interleave. */
module NodeRuns {
  import opened Mesh
  import opened Slot
  import opened Session
  import opened SessionRuns
  import opened Progress
  import opened Termination
  import opened Sends
  import opened Engine
  import opened System
  import opened SystemRuns

  /** Resume skips nothing: an idle node carries no error bit or the bit of one state, and on
      its device every state below the one its next run goes to is complete. */
  lemma ResumeSkipsNothingOnAnyNode(s: Sys, moves: seq<Move>, keys: seq<AppKey>, id: nat)
    requires Starts(s, keys) && Moves(s, moves, keys) && Registered(s, id)
    ensures Registered(EndOf(s, moves, keys), id)
    ensures var t := SessionOf(EndOf(s, moves, keys), id);
            t.c == EMPTY && !t.w.dev.wiped ==>
              && OneErrorBit(t.n.err)
              && CompleteBelow(FirstState(t.n.err), t.n, keys, t.w)
  {
    StartsWell(s, keys);
    RunProjects(s, moves, keys, id);
    hide Inv, Moves, Next, SessionOf, Runs, After, CompleteBelow;
    ResumeSkipsNothing(SessionOf(s, id), ActsFor(s, moves, keys, id), keys);
  }

  /** A node just loaded, and a run of the engine in which it is not loaded again. */
  ghost predicate OneLoad(s: Sys, moves: seq<Move>, keys: seq<AppKey>, id: nat, removing: bool) {
    && Inv(s, keys) && Moves(s, moves, keys) && Registered(s, id)
    && SessionOf(s, id).c == LoadSlot(id, removing) && NoLoad(ActsFor(s, moves, keys, id))
  }

  function WorkOf(t: Session, removing: bool, keys: seq<AppKey>): nat {
    Work(if removing then RM else GET_DCD, t.n, keys, t.w.comp)
  }

  /** The terminal events of a node from its load on are bounded by the work of its run, and
      once there are as many it leaves its slot: nothing is awaited, and the next pass over it
      not answered out-of-memory releases it. */
  lemma AnswersOfAnyNodeAreBounded(s: Sys, moves: seq<Move>, keys: seq<AppKey>, id: nat, removing: bool, pass: Act)
    requires OneLoad(s, moves, keys, id, removing)
    ensures var events := Lowerings(ActsFor(s, moves, keys, id));
            var work := WorkOf(SessionOf(s, id), removing, keys);
            && events <= work
            && Registered(EndOf(s, moves, keys), id)
            && var t := SessionOf(EndOf(s, moves, keys), id);
               events == work ==>
                 && t.w.out.None?
                 && (pass.EnginePass? && !pass.ans.OutOfMemory? && Legal(t, pass) ==> Step(t, pass, keys).s.c == EMPTY)
  {
    RunProjects(s, moves, keys, id);
    var t := SessionOf(s, id);
    var acts := ActsFor(s, moves, keys, id);
    SessionIsSound(s, id, keys);
    LoadedBudget(t, id, removing, keys);
    hide Inv, Moves, SessionOf, Runs, After, Work, Sound, Step, ActsFor, EndOf, SessionBudget;
    RunSpends(t, acts, keys);
    if Lowerings(acts) >= SessionBudget(t, keys) {
      SpentSlotEmpties(t, acts, pass, keys);
    }
  }

  lemma SessionIsSound(s: Sys, id: nat, keys: seq<AppKey>)
    requires Inv(s, keys) && Registered(s, id)
    ensures Sound(SessionOf(s, id), keys)
  {
  }

  lemma LoadedBudget(t: Session, id: nat, removing: bool, keys: seq<AppKey>)
    requires t.c == LoadSlot(id, removing)
    ensures SessionBudget(t, keys) == WorkOf(t, removing, keys)
    ensures !t.c.armed && !t.c.wait
  {
    hide Work;
  }

  /** The commands sent to a node from its load on: at most one for the first send and every
      retry of every work item, apart from guard-timer resends, of which each goes with a send
      before it, and from sends that were not accepted. */
  lemma SendsToAnyNodeAreBounded(s: Sys, moves: seq<Move>, keys: seq<AppKey>, id: nat, removing: bool)
    requires OneLoad(s, moves, keys, id, removing)
    ensures Registered(EndOf(s, moves, keys), id)
    ensures var t, acts := SessionOf(s, id), ActsFor(s, moves, keys, id);
            var sent := SentCount(SessionOf(EndOf(s, moves, keys), id).w.log) - SentCount(t.w.log);
            && Runs(t, acts, keys)
            && sent <= WorkOf(t, removing, keys) + GuardResends(t, acts, keys) + UnacceptedSends(t, acts, keys)
            && 2 * GuardResends(t, acts, keys) <= sent
  {
    RunProjects(s, moves, keys, id);
    var t := SessionOf(s, id);
    var acts := ActsFor(s, moves, keys, id);
    SessionIsSound(s, id, keys);
    LoadedBudget(t, id, removing, keys);
    hide Inv, Moves, SessionOf, Runs, After, Work, Step, ActsFor, EndOf, SessionBudget, SentCount, Sound;
    RunAllows(t, acts, keys);
    AllowanceIsNat(After(t, acts, keys), keys);
  }

  lemma AllowanceIsNat(t: Session, keys: seq<AppKey>)
    requires Sound(t, keys)
    ensures Allowance(t, keys) >= 0
  {
    if t.w.out.Some? {
      WaitingHasBudget(t, keys);
    }
    hide SessionBudget, WellConfigured, Active;
  }
}
