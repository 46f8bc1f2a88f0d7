/** The list of states the engine walks, built by inserting each state after another. */
module StateList {
  import opened Slot

  datatype Result = Ok | NotExist

  /** Where the first state with this number stands, or the length of the list. */
  function IndexOf(states: seq<int>, state: int): (i: nat)
    ensures i <= |states|
    ensures i < |states| ==> states[i] == state
    ensures forall j :: 0 <= j < i ==> states[j] != state
  {
    if states == [] then 0 else if states[0] == state then 0 else 1 + IndexOf(states[1..], state)
  }

  /** A list with a state put behind another, or in front for -1. */
  function Inserted(states: seq<int>, ps: int, state: int): seq<int> {
    if state == -1 then [ps] + states
    else
      var i := IndexOf(states, state);
      if i == |states| then states else states[..i + 1] + [ps] + states[i + 1..]
  }

  lemma PutInFront(ps: int)
    ensures Inserted([], ps, -1) == [ps]
  {
  }

  lemma {:induction false} FoundAt(before: seq<int>, state: int, after: seq<int>)
    requires state !in before
    ensures IndexOf(before + [state] + after, state) == |before|
    decreases |before|
  {
    var all := before + [state] + after;
    if before != [] {
      assert all[1..] == before[1..] + [state] + after;
      FoundAt(before[1..], state, after);
    }
  }

  lemma PutBehind(before: seq<int>, state: int, ps: int, after: seq<int>)
    requires state != -1 && state !in before
    ensures Inserted(before + [state] + after, ps, state) == before + [state, ps] + after
  {
    FoundAt(before, state, after);
    var all := before + [state] + after;
    assert all[..|before| + 1] == before + [state] && all[|before| + 1..] == after;
  }

  class Acc {
    var states: seq<int>
    var stateNum: nat

    ghost predicate Valid()
      reads this
    {
      stateNum == |states|
    }

    constructor ()
      ensures Valid() && states == []
    {
      states := [];
      stateNum := 0;
    }

    /** add_state_after */
    method AddStateAfter(ps: int, state: int) returns (r: Result)
      requires Valid()
      modifies this
      ensures Valid() && states == Inserted(old(states), ps, state)
      ensures r == if state != -1 && state !in old(states) then NotExist else Ok
    {
      if state == -1 {
        states := [ps] + states;
        stateNum := stateNum + 1;
        return Ok;
      }
      var i := 0;
      while i < |states|
        invariant 0 <= i <= |states|
        invariant forall j :: 0 <= j < i ==> states[j] != state
      {
        if states[i] == state {
          assert i == IndexOf(states, state);
          states := states[..i + 1] + [ps] + states[i + 1..];
          stateNum := stateNum + 1;
          return Ok;
        }
        i := i + 1;
      }
      assert IndexOf(states, state) == |states|;
      return NotExist;
    }

    /** __acc_reset: the three states every list has, then the default ones. */
    method Init()
      modifies this
      ensures Valid() && states == [GET_DCD, ADD_APPKEY, BIND, SET_PUB, ADD_SUB, SET_CONFIG, END, RM, RM_END]
    {
      states := [];
      stateNum := 0;
      PutInFront(GET_DCD);
      PutBehind([], GET_DCD, END, []);
      PutBehind([GET_DCD], END, RM_END, []);
      hide Inserted;
      var r := AddStateAfter(GET_DCD, -1);
      r := AddStateAfter(END, GET_DCD);
      assert states == [GET_DCD, END];
      r := AddStateAfter(RM_END, END);
      assert states == [GET_DCD, END, RM_END];
      AddDefaultStates();
    }

    /** __add_default_states: the states in the order of their numbers. */
    method AddDefaultStates()
      requires Valid() && states == [GET_DCD, END, RM_END]
      modifies this
      ensures Valid() && states == [GET_DCD, ADD_APPKEY, BIND, SET_PUB, ADD_SUB, SET_CONFIG, END, RM, RM_END]
    {
      hide Inserted;
      AddBehind([], GET_DCD, ADD_APPKEY, [END, RM_END]);
      AddBehind([GET_DCD], ADD_APPKEY, BIND, [END, RM_END]);
      AddBehind([GET_DCD, ADD_APPKEY], BIND, SET_PUB, [END, RM_END]);
      AddBehind([GET_DCD, ADD_APPKEY, BIND], SET_PUB, ADD_SUB, [END, RM_END]);
      AddBehind([GET_DCD, ADD_APPKEY, BIND, SET_PUB], ADD_SUB, SET_CONFIG, [END, RM_END]);
      AddBehind([GET_DCD, ADD_APPKEY, BIND, SET_PUB, ADD_SUB, SET_CONFIG], END, RM, [RM_END]);
    }

    /** An insertion behind a state the list is known to hold. */
    method AddBehind(ghost before: seq<int>, state: int, ps: int, ghost after: seq<int>)
      requires Valid() && state != -1 && state !in before && states == before + [state] + after
      modifies this
      ensures Valid() && states == before + [state, ps] + after
    {
      PutBehind(before, state, ps, after);
      var r := AddStateAfter(ps, state);
    }

    /** as_get: the place of a state in the list. */
    method Get(state: int) returns (i: nat)
      ensures i == IndexOf(states, state)
    {
      i := 0;
      while i < |states|
        invariant 0 <= i <= |states|
        invariant forall j :: 0 <= j < i ==> states[j] != state
      {
        if states[i] == state {
          break;
        }
        i := i + 1;
      }
    }
  }

  /** In the list Init builds, every state is found and the one behind it is the next by
      number, as the engine's functions take it to be. */
  lemma NextByNumber(states: seq<int>, s: int)
    requires states == [GET_DCD, ADD_APPKEY, BIND, SET_PUB, ADD_SUB, SET_CONFIG, END, RM, RM_END]
    requires GET_DCD <= s <= RM_END
    ensures var i := IndexOf(states, s);
            i < |states| && (if s == RM_END then i + 1 == |states| else i + 1 < |states| && states[i + 1] == s + 1)
  {
    assert forall j :: 0 <= j < |states| ==> states[j] == GET_DCD + j;
    assert states[s - GET_DCD] == s;
  }
}
