/**
 What the magic-link cache promises to its callers about returning: no call is ever stuck, each takes a bounded
 number of steps, and those that joined a flight return what its leader returns.
 */
module CacheProgress {
  import opened Options
  import opened CacheProtocol
  import opened CacheTheorems

  // --- Nobody is stuck ---

  /** The next step of a call that waits for nobody. */
  function NextStep(c: nat, p: Pc): Step
    requires !p.Returned? && !p.Joined?
  {
    match p
    case Entering => LockOuter(c)
    case Checking => OuterCheck(c)
    case Missed => EnterFlight(c)
    case Leading => LockInner(c)
    case Rechecking => InnerCheck(c)
    case Fetching(_, _) => EndFetch(c, ReadFailed)
    case Fetched(_, _) => LockCommit(c)
    case Committing(_, _) => Commit(c)
    case Stamping(_, _) => Stamp(c)
    case Finishing(_) => EndFlight(c)
  }

  /**
   As long as a call has not returned, some call can take a step: it itself, the owner of the mutex, or the
   leader of the flight it waits for. (A source read always returns; load() gives it 1.5 s.)
   */
  lemma NoDeadlock(states: seq<State>, steps: seq<Step>, i: nat, c: nat) returns (step: Step)
    requires IsRun(states, steps) && i < |states| && c in states[i].pc && !states[i].pc[c].Returned?
    ensures Enabled(states[i], step) && Mover(step).Some? && !step.Begin? && !step.Sample?
  {
    var s := states[i];
    RunInv(states, steps, i);
    assert OwnsOk(s, c) && PcOk(s, s.pc[c]);
    if s.mu.Some? {
      var owner := s.mu.value;
      assert OwnsOk(s, owner);
      step := NextStep(owner, s.pc[owner]);
    } else if !s.pc[c].Joined? {
      step := NextStep(c, s.pc[c]);
    } else if s.pc[c].leader in s.done {
      step := Wake(c);
    } else {
      var leader := s.pc[c].leader;
      assert OwnsOk(s, leader);
      step := NextStep(leader, s.pc[leader]);
    }
  }

  // --- Calls are short ---

  function Phase(p: Pc): nat {
    match p
    case Entering => 1
    case Checking => 2
    case Missed => 3
    case Joined(_) => 4
    case Leading => 4
    case Rechecking => 5
    case Fetching(_, _) => 6
    case Fetched(_, _) => 7
    case Committing(_, _) => 8
    case Stamping(_, _) => 9
    case Finishing(_) => 10
    case Returned(_) => 11
  }

  function PhaseOf(s: State, c: nat): nat {
    if c in s.pc then Phase(s.pc[c]) else 0
  }

  /** The steps of `c` itself, samples of the store apart. */
  function OwnSteps(steps: seq<Step>, c: nat): nat {
    if steps == [] then 0
    else
      var last := steps[|steps| - 1];
      OwnSteps(steps[..|steps| - 1], c) + if Mover(last) == Some(c) && !last.Sample? then 1 else 0
  }

  lemma StepAdvances(s: State, step: Step, c: nat)
    requires Enabled(s, step)
    ensures if Mover(step) == Some(c) && !step.Sample? then PhaseOf(s, c) < PhaseOf(Apply(s, step), c)
      else PhaseOf(s, c) == PhaseOf(Apply(s, step), c)
  {
  }

  lemma {:induction false} StepsWithinPhase(states: seq<State>, steps: seq<Step>, i: nat, c: nat)
    requires IsRun(states, steps) && i < |states|
    ensures OwnSteps(steps[..i], c) <= PhaseOf(states[i], c)
  {
    hide Apply, Enabled;
    if i > 0 {
      StepsWithinPhase(states, steps, i - 1, c);
      StepAdvances(states[i - 1], steps[i - 1], c);
      assert steps[..i][..i - 1] == steps[..i - 1] && steps[..i][i - 1] == steps[i - 1];
    }
  }

  /** Whatever the others do, a call takes at most eleven steps of its own, so with NoDeadlock it returns. */
  lemma CallsAreShort(states: seq<State>, steps: seq<Step>, c: nat)
    requires IsRun(states, steps)
    ensures OwnSteps(steps, c) <= 11
  {
    StepsWithinPhase(states, steps, |steps|, c);
    assert steps[..|steps|] == steps;
  }

  // --- Sharing a flight ---

  /** `c` waits for the flight of `leader`, or has its result. */
  predicate Shares(s: State, c: nat, leader: nat) {
    c in s.pc && (s.pc[c] == Joined(leader) || (leader in s.done && s.pc[c] == Returned(s.done[leader])))
  }

  lemma StepShares(s: State, step: Step, c: nat, leader: nat)
    requires Inv(s) && Enabled(s, step) && Shares(s, c, leader)
    ensures Shares(Apply(s, step), c, leader)
  {
    hide PcOk, CachedOk, LoadsOk, Parsed, Register;
    assert OwnsOk(s, leader);
  }

  lemma {:induction false} KeepsSharing(states: seq<State>, steps: seq<Step>, i: nat, j: nat, c: nat, leader: nat)
    requires IsRun(states, steps) && i <= j < |states| && Shares(states[i], c, leader)
    ensures Shares(states[j], c, leader)
  {
    hide Apply, Enabled, Inv, Shares;
    if i < j {
      KeepsSharing(states, steps, i, j - 1, c, leader);
      RunInv(states, steps, j - 1);
      StepShares(states[j - 1], steps[j - 1], c, leader);
    }
  }

  /** Every call that joined a flight returns exactly what the leader of that flight returns. */
  lemma FollowersShare(states: seq<State>, steps: seq<Step>, i: nat, j: nat, c: nat)
    requires IsRun(states, steps) && i <= j < |states|
    requires c in states[i].pc && states[i].pc[c].Joined?
    requires c in states[j].pc && states[j].pc[c].Returned?
    ensures var leader := states[i].pc[c].leader;
      leader in states[j].pc && states[j].pc[leader] == states[j].pc[c]
  {
    var leader := states[i].pc[c].leader;
    KeepsSharing(states, steps, i, j, c, leader);
    RunInv(states, steps, j);
    assert OwnsOk(states[j], leader);
  }
}
