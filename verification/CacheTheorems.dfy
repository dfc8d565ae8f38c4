/**
 What the magic-link cache guarantees over whole runs: linearizability of `Resolve`, monotonic reads,
 spacing of source reads, and the laws of `cached` and `exp`.
 */
module CacheTheorems {
  import opened Options
  import opened Config
  import opened CacheProtocol

  /** `states` is an execution from an empty cache by the transitions `steps`. */
  ghost predicate IsRun(states: seq<State>, steps: seq<Step>) {
    && |states| == |steps| + 1
    && Init(states[0])
    && forall i | 0 <= i < |steps| :: Enabled(states[i], steps[i]) && states[i + 1] == Apply(states[i], steps[i])
  }

  lemma {:induction false} RunInv(states: seq<State>, steps: seq<Step>, i: nat)
    requires IsRun(states, steps) && i < |states|
    ensures Inv(states[i])
  {
    hide Apply, Enabled;
    if i == 0 {
      InitInv(states[0]);
    } else {
      RunInv(states, steps, i - 1);
      StepInv(states[i - 1], steps[i - 1]);
    }
  }

  // --- Linearizability ---

  /** The result a call has, or will have as soon as it wakes up. */
  function Decided(s: State, c: nat): Option<Served> {
    if c !in s.pc then None
    else match s.pc[c]
      case Returned(served) => Some(served)
      case Joined(leader) => if leader in s.done then Some(s.done[leader]) else None
      case _ => None
  }

  /** A result becomes known only at an instant when the register holds it. */
  lemma DecideStep(s: State, step: Step, c: nat)
    requires Inv(s) && Enabled(s, step) && Decided(Apply(s, step), c).Some?
    ensures Decided(s, c) == Decided(Apply(s, step), c) || Some(Register(Apply(s, step))) == Decided(Apply(s, step), c)
  {
    hide LoadsOk, Parsed;
    if Mover(step).Some? {
      assert OwnsOk(s, step.c);
      if step.c in s.pc {
        assert PcOk(s, s.pc[step.c]);
      }
    }
    if c in s.pc {
      assert PcOk(s, s.pc[c]);
    }
    if s.flight.Some? {
      assert OwnsOk(s, s.flight.value);
    }
  }

  lemma DecideInRun(states: seq<State>, steps: seq<Step>, j: nat, c: nat)
    requires IsRun(states, steps) && 0 < j < |states| && Decided(states[j], c).Some?
    ensures Decided(states[j - 1], c) == Decided(states[j], c) || Some(Register(states[j])) == Decided(states[j], c)
  {
    hide Apply, Enabled;
    RunInv(states, steps, j - 1);
    DecideStep(states[j - 1], steps[j - 1], c);
  }

  /** `c` is called by the step into state `i`. */
  predicate Called(states: seq<State>, c: nat, i: nat) {
    0 < i < |states| && c !in states[i - 1].pc && c in states[i].pc
  }

  lemma {:induction false} CallInstant(states: seq<State>, steps: seq<Step>, j: nat, c: nat) returns (i: nat)
    requires IsRun(states, steps) && j < |states| && c in states[j].pc
    ensures Called(states, c, i) && i <= j
  {
    hide Apply, Enabled, Inv;
    if c in states[j - 1].pc {
      i := CallInstant(states, steps, j - 1, c);
    } else {
      i := j;
    }
  }

  lemma {:induction false} StaysCalled(states: seq<State>, steps: seq<Step>, i: nat, j: nat, c: nat)
    requires IsRun(states, steps) && i <= j < |states| && c in states[i].pc
    ensures c in states[j].pc
  {
    hide Apply, Enabled;
    if i < j {
      StaysCalled(states, steps, i, j - 1, c);
      StepPhase(states[j - 1], steps[j - 1], c);
    }
  }

  /**
   Every `Resolve` that was called at instant `i` and has returned by instant `j` returned the value the
   register "cached, else env" had at some instant `k` in between, whatever the other calls, the clock,
   the store and the contexts did, and whether or not it got its result from another call's flight.
   */
  lemma {:induction false} Linearizable(states: seq<State>, steps: seq<Step>, i: nat, j: nat, c: nat) returns (k: nat)
    requires IsRun(states, steps) && Called(states, c, i) && i <= j < |states|
    requires Decided(states[j], c).Some?
    ensures i <= k <= j && Register(states[k]) == Decided(states[j], c).value
  {
    hide Apply, Enabled, Inv;
    DecideInRun(states, steps, j, c);
    if Register(states[j]) == Decided(states[j], c).value {
      k := j;
    } else {
      k := Linearizable(states, steps, i, j - 1, c);
    }
  }

  // --- Monotonic reads ---

  /** The env link is older than every store version. */
  function Rank(served: Served): nat {
    match served
    case FromEnv => 0
    case FromStore(entry) => entry.version + 1
  }

  lemma StepRank(s: State, step: Step)
    requires Inv(s) && Enabled(s, step)
    ensures Rank(Register(s)) <= Rank(Register(Apply(s, step)))
  {
  }

  lemma {:induction false} RunRank(states: seq<State>, steps: seq<Step>, i: nat, j: nat)
    requires IsRun(states, steps) && i <= j < |states|
    ensures Rank(Register(states[i])) <= Rank(Register(states[j]))
  {
    hide Apply, Enabled, Inv;
    if i < j {
      RunRank(states, steps, i, j - 1);
      RunInv(states, steps, j - 1);
      StepRank(states[j - 1], steps[j - 1]);
    }
  }

  /**
   If call `a` has returned before call `b` is made, `b` never returns an older store version than `a`,
   and never the env link once `a` was served from the store.
   */
  lemma MonotonicReads(states: seq<State>, steps: seq<Step>, returned: nat, later: nat, a: nat, b: nat)
    requires IsRun(states, steps) && returned <= later < |states|
    requires a in states[returned].pc && states[returned].pc[a].Returned?
    requires b !in states[returned].pc && b in states[later].pc && states[later].pc[b].Returned?
    ensures Rank(states[returned].pc[a].served) <= Rank(states[later].pc[b].served)
    ensures states[returned].pc[a].served.FromStore? ==>
      && states[later].pc[b].served.FromStore?
      && states[returned].pc[a].served.entry.version <= states[later].pc[b].served.entry.version
  {
    hide Apply, Enabled, Inv;
    var calledA := CallInstant(states, steps, returned, a);
    var readA := Linearizable(states, steps, calledA, returned, a);
    var calledB := CallInstant(states, steps, later, b);
    if calledB <= returned {
      StaysCalled(states, steps, calledB, returned, b);
    }
    var readB := Linearizable(states, steps, calledB, later, b);
    RunRank(states, steps, readA, readB);
  }

  lemma StepEnvironment(s: State, step: Step)
    requires Enabled(s, step)
    ensures var t := Apply(s, step);
      s.store <= t.store && s.env == t.env && s.hasSource == t.hasSource && s.clock <= t.clock
  {
  }

  /** The store only gains versions, time does not go back, and the configuration is fixed. */
  lemma {:induction false} EnvironmentKept(states: seq<State>, steps: seq<Step>, i: nat, j: nat)
    requires IsRun(states, steps) && i <= j < |states|
    ensures states[i].store <= states[j].store && states[i].clock <= states[j].clock
    ensures states[i].env == states[j].env && states[i].hasSource == states[j].hasSource
  {
    hide Apply, Enabled;
    if i < j {
      EnvironmentKept(states, steps, i, j - 1);
      StepEnvironment(states[j - 1], steps[j - 1]);
    }
  }

  /** The same for the link itself: the caller gets the link the register stood for at some instant of its call. */
  lemma ResolveReturnsTheRegister(states: seq<State>, steps: seq<Step>, j: nat, c: nat) returns (i: nat, k: nat)
    requires IsRun(states, steps) && j < |states| && c in states[j].pc && states[j].pc[c].Returned?
    ensures Called(states, c, i) && i <= k <= j
    ensures Link(states[j], states[j].pc[c].served) ==
      if states[k].cached.Some? then Some(states[k].cached.value.link) else states[0].env
  {
    hide Apply, Enabled, Inv;
    i := CallInstant(states, steps, j, c);
    k := Linearizable(states, steps, i, j, c);
    EnvironmentKept(states, steps, 0, j);
  }

  /** A link served from the store is what one of its versions parses to, so both its tokens are present. */
  lemma ServedIsStored(states: seq<State>, steps: seq<Step>, j: nat, c: nat)
    requires IsRun(states, steps) && j < |states|
    requires c in states[j].pc && states[j].pc[c].Returned? && states[j].pc[c].served.FromStore?
    ensures IsStored(states[j].store, states[j].pc[c].served.entry)
    ensures Usable(states[j].pc[c].served.entry.link)
  {
    var i := CallInstant(states, steps, j, c);
    var k := Linearizable(states, steps, i, j, c);
    RunInv(states, steps, k);
    EnvironmentKept(states, steps, k, j);
  }

  // --- Source reads ---

  /** In every reachable state at most one call is reading the source. */
  lemma AtMostOneRead(states: seq<State>, steps: seq<Step>, i: nat, a: nat, b: nat)
    requires IsRun(states, steps) && i < |states|
    requires a in states[i].pc && states[i].pc[a].Fetching?
    requires b in states[i].pc && states[i].pc[b].Fetching?
    ensures a == b
  {
    RunInv(states, steps, i);
    assert OwnsOk(states[i], a) && OwnsOk(states[i], b);
  }

  /** Program counters of a call that has started a source read. */
  predicate HasRead(p: Pc) {
    IsLoading(p) || p.Finishing? || p.Returned?
  }

  /** Program counters of a call that has its result, or gets it from another call. */
  predicate NeedsNoRead(p: Pc) {
    p.Joined? || p.Finishing? || p.Returned?
  }

  lemma StepPhase(s: State, step: Step, c: nat)
    requires Enabled(s, step) && c in s.pc
    ensures var t := Apply(s, step);
      && c in t.pc
      && (HasRead(s.pc[c]) ==> HasRead(t.pc[c]))
      && (NeedsNoRead(s.pc[c]) ==> NeedsNoRead(t.pc[c]))
  {
  }

  lemma {:induction false} KeepsPhase(states: seq<State>, steps: seq<Step>, i: nat, j: nat, c: nat)
    requires IsRun(states, steps) && i <= j < |states| && c in states[i].pc
    ensures c in states[j].pc
    ensures HasRead(states[i].pc[c]) ==> HasRead(states[j].pc[c])
    ensures NeedsNoRead(states[i].pc[c]) ==> NeedsNoRead(states[j].pc[c])
  {
    hide Apply, Enabled;
    if i < j {
      KeepsPhase(states, steps, i, j - 1, c);
      StepPhase(states[j - 1], steps[j - 1], c);
    }
  }

  /** A call that joins a running flight reads the source at no instant of the run, before or after. */
  lemma JoinersNeverRead(states: seq<State>, steps: seq<Step>, i: nat, j: nat, c: nat)
    requires IsRun(states, steps) && i < |states| && j < |states|
    requires c in states[i].pc && states[i].pc[c].Joined?
    ensures !(c in states[j].pc && states[j].pc[c].Fetching?)
  {
    if i <= j {
      KeepsPhase(states, steps, i, j, c);
    } else if c in states[j].pc {
      KeepsPhase(states, steps, j, i, c);
    }
  }

  /** Neither does a call whose inner check, at step `i`, finds the entry fresh. */
  lemma InnerHitsNeverRead(states: seq<State>, steps: seq<Step>, i: nat, j: nat, c: nat)
    requires IsRun(states, steps) && i < |steps| && j < |states|
    requires steps[i] == InnerCheck(c) && IsFresh(states[i].exp, states[i].clock)
    ensures !(c in states[j].pc && states[j].pc[c].Fetching?)
  {
    assert Enabled(states[i], steps[i]) && states[i + 1].pc[c].Finishing?;
    hide Apply, Enabled;
    if i < j {
      KeepsPhase(states, steps, i + 1, j, c);
    } else if c in states[j].pc {
      KeepsPhase(states, steps, j, i, c);
    }
  }

  // --- Spacing of loads ---

  function TotalTtl(loads: seq<Load>): (total: int)
  {
    if loads == [] then 0 else TotalTtl(loads[..|loads| - 1]) + Ttl(loads[|loads| - 1].succeeded)
  }

  lemma {:induction false} Spacing(loads: seq<Load>, exp: Option<int>, clock: int, i: nat, j: nat)
    requires LoadsOk(exp, loads, clock) && i <= j < |loads|
    ensures loads[j].start - loads[i].start >= TotalTtl(loads[i..j])
  {
    if i < j {
      Spacing(loads, exp, clock, i, j - 1);
      assert loads[i..j][..j - i - 1] == loads[i..j - 1];
      assert loads[i..j][j - i - 1] == loads[j - 1];
    }
  }

  /**
   Of the loads of a run that wrote the expiry, the `i`-th and the `j`-th start at least 60 s per success
   and 5 s per failure among the loads `i` up to `j` apart, however many cancelled loads and cache hits
   happen in between.
   */
  lemma LoadSpacing(states: seq<State>, steps: seq<Step>, n: nat, i: nat, j: nat)
    requires IsRun(states, steps) && n < |states| && i <= j < |states[n].loads|
    ensures states[n].loads[j].start - states[n].loads[i].start >= TotalTtl(states[n].loads[i..j])
  {
    RunInv(states, steps, n);
    Spacing(states[n].loads, states[n].exp, states[n].clock, i, j);
  }

  // --- The laws of `cached` and `exp` ---

  /**
   `exp` changes exactly when a load is logged; each write sets it to the instant of the write plus 60 s
   or 5 s, strictly later than before; and the logged start is no earlier than the previous expiry.
   */
  lemma ExpWrites(s: State, step: Step)
    requires Inv(s) && Enabled(s, step)
    ensures var t := Apply(s, step);
      if t.exp == s.exp then t.loads == s.loads
      else
        && |t.loads| == |s.loads| + 1 && s.loads <= t.loads
        && var load := t.loads[|s.loads|];
        && load.end == s.clock
        && t.exp == Some(s.clock + if load.succeeded then 60_000_000_000 else 5_000_000_000)
        && (s.exp.Some? ==> s.exp.value <= load.start && s.exp.value < t.exp.value)
  {
  }

  /** Once set, `cached` is never cleared and never moves to an older version, and it always holds both tokens. */
  lemma CachedNeverCleared(states: seq<State>, steps: seq<Step>, i: nat, j: nat)
    requires IsRun(states, steps) && i <= j < |states| && states[i].cached.Some?
    ensures states[j].cached.Some? && Usable(states[j].cached.value.link)
    ensures states[i].cached.value.version <= states[j].cached.value.version
  {
    RunRank(states, steps, i, j);
    RunInv(states, steps, j);
  }

  /** An entry is fresh exactly while the last load that wrote `exp` ended under 60 s (5 s if it failed) ago. */
  lemma FreshMeansRecentLoad(states: seq<State>, steps: seq<Step>, i: nat)
    requires IsRun(states, steps) && i < |states|
    ensures var s := states[i];
      IsFresh(s.exp, s.clock) <==>
      && s.loads != []
      && var last := s.loads[|s.loads| - 1];
      s.clock - last.end < if last.succeeded then 60_000_000_000 else 5_000_000_000
  {
    RunInv(states, steps, i);
  }

  /**
   A load without a usable link leaves `cached` alone, and leaves `exp` alone exactly when the read failed
   and the context of the leading call was cancelled; content that does not parse is always negative-cached.
   */
  lemma FailedLoad(s: State, c: nat)
    requires Inv(s) && c in s.pc && s.pc[c].Committing? && Parsed(s, s.pc[c].outcome) == None
    ensures var t := Apply(s, Commit(c));
      && t.cached == s.cached
      && (t.exp == s.exp <==> s.pc[c].outcome.ReadFailed? && c in s.ctxDone)
      && (t.exp != s.exp ==> t.exp == Some(s.clock + 5_000_000_000))
  {
  }
}
