/** Several steps of one task in a row, with nothing in between. */
module Turns {
  import opened Engine

  function WorkInTurn(s: State, t: nat, acts: seq<WorkerAction>): State
    decreases |acts|
  {
    if acts == [] then s else WorkInTurn(WorkerStep(s, t, acts[0]), t, acts[1..])
  }

  function OfTask(t: nat, acts: seq<WorkerAction>): seq<Action> {
    if acts == [] then [] else [Work(t, acts[0])] + OfTask(t, acts[1..])
  }

  /** Steps of one task in turn are a run of the transition system. */
  lemma {:induction false} TurnIsRun(actions: seq<Action>, t: nat, acts: seq<WorkerAction>)
    ensures Run(actions + OfTask(t, acts)) == WorkInTurn(Run(actions), t, acts)
    decreases |acts|
  {
    if acts == [] {
      assert actions + OfTask(t, acts) == actions;
    } else {
      var first := Work(t, acts[0]);
      assert actions + OfTask(t, acts) == (actions + [first]) + OfTask(t, acts[1..]);
      RunSnoc(actions, first);
      TurnIsRun(actions + [first], t, acts[1..]);
    }
  }

  lemma {:induction false} TurnAppend(s: State, t: nat, acts: seq<WorkerAction>, more: seq<WorkerAction>)
    ensures WorkInTurn(s, t, acts + more) == WorkInTurn(WorkInTurn(s, t, acts), t, more)
    decreases |acts|
  {
    if acts == [] {
      assert acts + more == more;
    } else {
      assert (acts + more)[1..] == acts[1..] + more;
      TurnAppend(WorkerStep(s, t, acts[0]), t, acts[1..], more);
    }
  }

  lemma TurnOne(s: State, t: nat, a: WorkerAction)
    ensures WorkInTurn(s, t, [a]) == WorkerStep(s, t, a)
  {
    assert [a][1..] == [];
  }

  lemma TurnTwo(s: State, t: nat, a: WorkerAction, b: WorkerAction)
    ensures WorkInTurn(s, t, [a, b]) == WorkerStep(WorkerStep(s, t, a), t, b)
  {
    assert [a, b][1..] == [b];
    TurnOne(WorkerStep(s, t, a), t, b);
  }

  lemma TurnThree(s: State, t: nat, a: WorkerAction, b: WorkerAction, c: WorkerAction)
    ensures WorkInTurn(s, t, [a, b, c]) == WorkerStep(WorkerStep(WorkerStep(s, t, a), t, b), t, c)
  {
    assert [a, b, c][1..] == [b, c];
    TurnTwo(WorkerStep(s, t, a), t, b, c);
  }
}
