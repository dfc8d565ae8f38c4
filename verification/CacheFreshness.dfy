/**
 How old the links are that the magic-link cache serves: what a fresh entry holds, and how long after a
 write every call sees it.
 */
module CacheFreshness {
  import opened Options
  import opened Config
  import opened CacheProtocol
  import opened CacheTheorems

  // --- What a fresh entry holds ---

  /** Version `version` was the newest of the store at some instant up to `i` not before the time `since`. */
  ghost predicate WasNewest(states: seq<State>, i: nat, since: int, version: nat) {
    exists m | 0 <= m <= i && m < |states| :: since <= states[m].clock && |states[m].store| == version + 1
  }

  lemma StillWasNewest(states: seq<State>, i: nat, since: int, version: nat, j: nat, from: int)
    requires WasNewest(states, i, since, version) && i <= j && from <= since
    ensures WasNewest(states, j, from, version)
  {
  }

  /** The version a load has read. */
  function SampleOf(p: Pc): Option<nat> {
    match p
    case Fetching(_, sample) => sample
    case Fetched(_, outcome) => if outcome.Read? then Some(outcome.version) else None
    case Committing(_, outcome) => if outcome.Read? then Some(outcome.version) else None
    case Stamping(_, entry) => Some(entry.version)
    case _ => None
  }

  lemma OwnSample(s: State, step: Step, c: nat)
    requires Inv(s) && Enabled(s, step) && Mover(step) == Some(c) && c in Apply(s, step).pc
    requires var p := Apply(s, step).pc[c]; IsLoading(p) && SampleOf(p).Some?
    ensures c in s.pc && IsLoading(s.pc[c])
    ensures var t := Apply(s, step);
      && t.pc[c].start == s.pc[c].start <= s.clock
      && (SampleOf(t.pc[c]) == SampleOf(s.pc[c]) || SampleOf(t.pc[c]) == Some(|t.store| - 1))
  {
    assert OwnsOk(s, c);
    assert c in s.pc && PcOk(s, s.pc[c]);
  }

  lemma StepSample(s: State, step: Step, c: nat)
    requires Inv(s) && Enabled(s, step) && c in Apply(s, step).pc
    requires var p := Apply(s, step).pc[c]; IsLoading(p) && SampleOf(p).Some?
    ensures c in s.pc && IsLoading(s.pc[c])
    ensures var t := Apply(s, step);
      && t.pc[c].start == s.pc[c].start <= s.clock
      && (SampleOf(t.pc[c]) == SampleOf(s.pc[c]) || SampleOf(t.pc[c]) == Some(|t.store| - 1))
  {
    if Mover(step) == Some(c) {
      OwnSample(s, step, c);
    } else {
      BystanderKept(s, step, c);
      assert PcOk(s, s.pc[c]);
    }
  }

  lemma SampleInRun(states: seq<State>, steps: seq<Step>, i: nat, c: nat)
    requires IsRun(states, steps) && i < |states| && c in states[i].pc
    requires IsLoading(states[i].pc[c]) && SampleOf(states[i].pc[c]).Some?
    ensures i > 0 && c in states[i - 1].pc && IsLoading(states[i - 1].pc[c])
    ensures states[i].pc[c].start == states[i - 1].pc[c].start <= states[i].clock
    ensures
      || SampleOf(states[i].pc[c]) == SampleOf(states[i - 1].pc[c])
      || SampleOf(states[i].pc[c]) == Some(|states[i].store| - 1)
  {
    hide Apply, Enabled;
    assert i > 0;
    RunInv(states, steps, i - 1);
    RunInv(states, steps, i);
    assert PcOk(states[i], states[i].pc[c]);
    StepSample(states[i - 1], steps[i - 1], c);
  }

  lemma {:induction false} SampleWasNewest(states: seq<State>, steps: seq<Step>, i: nat, c: nat)
    requires IsRun(states, steps) && i < |states| && c in states[i].pc
    requires IsLoading(states[i].pc[c]) && SampleOf(states[i].pc[c]).Some?
    ensures WasNewest(states, i, states[i].pc[c].start, SampleOf(states[i].pc[c]).value)
  {
    hide Apply, Enabled, Inv;
    SampleInRun(states, steps, i, c);
    var start, sample := states[i].pc[c].start, SampleOf(states[i].pc[c]);
    if sample == SampleOf(states[i - 1].pc[c]) {
      SampleWasNewest(states, steps, i - 1, c);
      StillWasNewest(states, i - 1, start, sample.value, i, start);
    }
  }

  /** What one step does to `cached` and the log. */
  lemma StepLog(s: State, step: Step)
    requires Inv(s) && Enabled(s, step)
    ensures var t := Apply(s, step);
      || (t.cached == s.cached && t.loads == s.loads)
      || (t.loads == s.loads && step.Commit? && step.c in t.pc && t.pc[step.c].Stamping? && t.cached == Some(t.pc[step.c].entry)
          && (s.loads != [] ==> s.loads[|s.loads| - 1].start <= t.pc[step.c].start))
      || (t.loads != [] && t.cached == s.cached && !t.loads[|t.loads| - 1].succeeded)
      || (t.loads != [] && step.Stamp? && step.c in s.pc && s.pc[step.c].Stamping? && t.cached == s.cached == Some(s.pc[step.c].entry)
          && t.loads[|t.loads| - 1].start == s.pc[step.c].start)
  {
  }

  lemma {:induction false} CachedWasNewest(states: seq<State>, steps: seq<Step>, i: nat)
    requires IsRun(states, steps) && i < |states|
    requires states[i].loads != [] && states[i].loads[|states[i].loads| - 1].succeeded
    ensures states[i].cached.Some?
    ensures WasNewest(states, i, states[i].loads[|states[i].loads| - 1].start, states[i].cached.value.version)
  {
    hide Apply, Enabled, Inv;
    var s, step, t := states[i - 1], steps[i - 1], states[i];
    RunInv(states, steps, i - 1);
    StepLog(s, step);
    var start := t.loads[|t.loads| - 1].start;
    if t.cached == s.cached && t.loads == s.loads {
      CachedWasNewest(states, steps, i - 1);
      StillWasNewest(states, i - 1, start, s.cached.value.version, i, start);
    } else if t.loads == s.loads {
      SampleWasNewest(states, steps, i, step.c);
      StillWasNewest(states, i, t.pc[step.c].start, t.cached.value.version, i, start);
    } else {
      SampleWasNewest(states, steps, i - 1, step.c);
      StillWasNewest(states, i - 1, start, t.cached.value.version, i, start);
    }
  }

  /**
   What a fresh hit after a successful load can serve: a version that was the newest in the store at an
   instant less than 60 s, plus the duration of the load that read it, ago.
   */
  lemma BoundedStaleness(states: seq<State>, steps: seq<Step>, i: nat) returns (m: nat)
    requires IsRun(states, steps) && i < |states| && IsFresh(states[i].exp, states[i].clock)
    requires states[i].loads != [] ==> states[i].loads[|states[i].loads| - 1].succeeded
    ensures m <= i
    ensures Register(states[i]).FromStore? && Register(states[i]).entry.version + 1 == |states[m].store|
    ensures states[i].loads != []
    ensures var last := states[i].loads[|states[i].loads| - 1];
      states[i].clock - states[m].clock < CACHE_TTL + (last.end - last.start)
  {
    FreshMeansRecentLoad(states, steps, i);
    CachedWasNewest(states, steps, i);
    var last := states[i].loads[|states[i].loads| - 1];
    m :| 0 <= m <= i && last.start <= states[m].clock && |states[m].store| == states[i].cached.value.version + 1;
  }

  // --- What every call returns ---

  /** `c` runs its own flight in state `p`. */
  predicate FlightAt(states: seq<State>, p: nat, c: nat) {
    p < |states| && c in states[p].pc && InFlight(states[p].pc[c])
  }

  /** No flight lasts longer than `bound`. Every run has such a bound. */
  ghost predicate FlightsWithin(states: seq<State>, bound: nat) {
    forall p: nat, q: nat, c: nat | FlightAt(states, p, c) && FlightAt(states, q, c) ::
      states[q].clock - states[p].clock <= bound
  }

  /** The `k`-th step is a load that got no link. */
  ghost predicate FailsAt(states: seq<State>, steps: seq<Step>, k: nat) {
    && k < |steps| && k < |states| && steps[k].Commit? && Enabled(states[k], steps[k])
    && Parsed(states[k], states[k].pc[steps[k].c].outcome) == None
  }

  /** Up to state `j`, no load failed at or after the time `since`. */
  ghost predicate NoFailureSince(states: seq<State>, steps: seq<Step>, j: nat, since: int) {
    forall k | 0 <= k < j && FailsAt(states, steps, k) :: states[k].clock < since
  }

  lemma {:induction false} EveryRunHasABound(states: seq<State>, steps: seq<Step>) returns (bound: nat)
    requires IsRun(states, steps)
    ensures FlightsWithin(states, bound)
  {
    var last := |states| - 1;
    EnvironmentKept(states, steps, 0, last);
    bound := states[last].clock - states[0].clock;
    forall p: nat, q: nat, c: nat | FlightAt(states, p, c) && FlightAt(states, q, c)
      ensures states[q].clock - states[p].clock <= bound
    {
      EnvironmentKept(states, steps, 0, p);
      EnvironmentKept(states, steps, q, last);
    }
  }

  lemma StepStart(s: State, step: Step, c: nat)
    requires Enabled(s, step) && c in Apply(s, step).pc && IsLoading(Apply(s, step).pc[c])
    ensures var t := Apply(s, step);
      || t.pc[c].start == t.clock
      || (c in s.pc && IsLoading(s.pc[c]) && t.pc[c].start == s.pc[c].start)
  {
  }

  /** A load starts within its own flight. */
  lemma {:induction false} LoadStart(states: seq<State>, steps: seq<Step>, i: nat, c: nat) returns (p: nat)
    requires IsRun(states, steps) && i < |states| && c in states[i].pc && IsLoading(states[i].pc[c])
    ensures p <= i && FlightAt(states, p, c) && states[p].clock == states[i].pc[c].start
  {
    hide Apply, Enabled;
    p := i;
    if states[i].pc[c].start != states[i].clock {
      assert i > 0;
      StepStart(states[i - 1], steps[i - 1], c);
      p := LoadStart(states, steps, i - 1, c);
    }
  }

  lemma StepLogged(s: State, step: Step)
    requires Enabled(s, step) && Apply(s, step).loads != s.loads
    ensures step.Commit? || step.Stamp?
    ensures step.c in s.pc && IsLoading(s.pc[step.c])
    ensures var t := Apply(s, step);
      && t.loads != []
      && var last := t.loads[|t.loads| - 1];
      && last.start == s.pc[step.c].start && last.end == s.clock
      && (!last.succeeded ==> step.Commit? && Parsed(s, s.pc[step.c].outcome) == None)
  {
  }

  /** The last logged load is within one flight, and a failed one is a failing step. */
  lemma {:induction false} LastLoad(states: seq<State>, steps: seq<Step>, i: nat) returns (p: nat, q: nat, c: nat)
    requires IsRun(states, steps) && i < |states| && states[i].loads != []
    ensures q < i && FlightAt(states, p, c) && FlightAt(states, q, c)
    ensures var last := states[i].loads[|states[i].loads| - 1];
      && states[p].clock == last.start && states[q].clock == last.end
      && (!last.succeeded ==> FailsAt(states, steps, q))
  {
    hide Apply, Enabled;
    assert i > 0;
    if states[i].loads == states[i - 1].loads {
      p, q, c := LastLoad(states, steps, i - 1);
    } else {
      StepLogged(states[i - 1], steps[i - 1]);
      q, c := i - 1, steps[i - 1].c;
      p := LoadStart(states, steps, q, c);
    }
  }

  /** A fresh hit, when no load has failed lately, serves a version that was the newest not long before. */
  lemma HitIsRecent(states: seq<State>, steps: seq<Step>, q: nat, since: int, bound: nat)
    requires IsRun(states, steps) && q < |states| && IsFresh(states[q].exp, states[q].clock)
    requires FlightsWithin(states, bound) && NoFailureSince(states, steps, q, since)
    requires since + CACHE_ERROR_TTL <= states[q].clock
    ensures Register(states[q]).FromStore?
    ensures WasNewest(states, q, states[q].clock - CACHE_TTL - bound + 1, Register(states[q]).entry.version)
  {
    hide Apply, Enabled, Inv, FailsAt;
    FreshMeansRecentLoad(states, steps, q);
    var start, end, c := LastLoad(states, steps, q);
    var m := BoundedStaleness(states, steps, q);
  }

  /** How a flight came by its result. */
  lemma StepFinishing(s: State, step: Step, c: nat)
    requires Inv(s) && Enabled(s, step) && c in Apply(s, step).pc && Apply(s, step).pc[c].Finishing?
    ensures c in s.pc && InFlight(s.pc[c])
    ensures var served := Apply(s, step).pc[c].served;
      || s.pc[c] == Finishing(served)
      || (IsFresh(s.exp, s.clock) && served == Register(s))
      || (step == Commit(c) && Parsed(s, s.pc[c].outcome) == None)
      || (s.pc[c].Stamping? && served == FromStore(s.pc[c].entry))
  {
    hide CachedOk, LoadsOk;
  }

  lemma {:induction false} FlightInstant(states: seq<State>, steps: seq<Step>, p: nat, c: nat) returns (q: nat)
    requires IsRun(states, steps) && p < |states| && c in states[p].pc && states[p].pc[c].Finishing?
    ensures q < p && FlightAt(states, q, c)
    ensures var served := states[p].pc[c].served;
      || (IsFresh(states[q].exp, states[q].clock) && served == Register(states[q]))
      || FailsAt(states, steps, q)
      || (states[q].pc[c].Stamping? && served == FromStore(states[q].pc[c].entry))
  {
    hide Apply, Enabled;
    q := p - 1;
    RunInv(states, steps, q);
    StepFinishing(states[q], steps[q], c);
    if states[q].pc[c] == states[p].pc[c] {
      q := FlightInstant(states, steps, q, c);
    }
  }

  /**
   What a flight that ends in state `p` returns: unless its load failed, a version that was the newest within
   60 s and the duration of two flights.
   */
  lemma FlightIsRecent(states: seq<State>, steps: seq<Step>, p: nat, c: nat, since: int, bound: nat)
    requires IsRun(states, steps) && p < |states| && c in states[p].pc && states[p].pc[c].Finishing?
    requires FlightsWithin(states, bound) && NoFailureSince(states, steps, p, since)
    requires since + CACHE_ERROR_TTL + bound <= states[p].clock
    ensures states[p].pc[c].served.FromStore?
    ensures WasNewest(states, p, states[p].clock - CACHE_TTL - 2 * bound + 1, states[p].pc[c].served.entry.version)
  {
    hide Apply, Enabled, Inv, FailsAt;
    var q := FlightInstant(states, steps, p, c);
    assert FlightAt(states, p, c);
    var from := states[p].clock - CACHE_TTL - 2 * bound + 1;
    assert !FailsAt(states, steps, q);
    if IsFresh(states[q].exp, states[q].clock) && states[p].pc[c].served == Register(states[q]) {
      HitIsRecent(states, steps, q, since, bound);
      StillWasNewest(states, q, states[q].clock - CACHE_TTL - bound + 1, Register(states[q]).entry.version, p, from);
    } else {
      var start := LoadStart(states, steps, q, c);
      SampleWasNewest(states, steps, q, c);
      StillWasNewest(states, q, states[start].clock, states[p].pc[c].served.entry.version, p, from);
    }
  }

  lemma StepDecides(s: State, step: Step, c: nat)
    requires Inv(s) && Enabled(s, step) && s.hasSource && Decided(Apply(s, step), c).Some?
    ensures c in s.pc
    ensures
      || Decided(s, c) == Decided(Apply(s, step), c)
      || (IsFresh(s.exp, s.clock) && Decided(Apply(s, step), c) == Some(Register(s)))
      || (step.EndFlight? && step.c in s.pc && s.pc[step.c].Finishing? &&
          Decided(Apply(s, step), c) == Some(s.pc[step.c].served))
  {
    hide CachedOk, LoadsOk, Parsed;
    if Mover(step).Some? {
      assert OwnsOk(s, step.c);
    }
    if s.flight.Some? {
      assert OwnsOk(s, s.flight.value);
    }
  }

  /** The same for every call, whether it hits, leads a flight or joins one. */
  lemma {:induction false} ServedIsRecent(
      states: seq<State>, steps: seq<Step>, i: nat, j: nat, c: nat, since: int, bound: nat)
    requires IsRun(states, steps) && states[0].hasSource
    requires Called(states, c, i) && i <= j < |states| && Decided(states[j], c).Some?
    requires FlightsWithin(states, bound) && NoFailureSince(states, steps, j, since)
    requires since + CACHE_ERROR_TTL + bound <= states[i].clock
    ensures Decided(states[j], c).value.FromStore?
    ensures WasNewest(states, j, states[i].clock - CACHE_TTL - 2 * bound + 1, Decided(states[j], c).value.entry.version)
  {
    hide Apply, Enabled, Inv, FailsAt;
    var p, from := j - 1, states[i].clock - CACHE_TTL - 2 * bound + 1;
    RunInv(states, steps, p);
    EnvironmentKept(states, steps, 0, p);
    StepDecides(states[p], steps[p], c);
    EnvironmentKept(states, steps, i, p);
    if Decided(states[p], c) == Decided(states[j], c) {
      ServedIsRecent(states, steps, i, p, c, since, bound);
      StillWasNewest(states, p, from, Decided(states[p], c).value.entry.version, j, from);
    } else if IsFresh(states[p].exp, states[p].clock) && Decided(states[j], c) == Some(Register(states[p])) {
      HitIsRecent(states, steps, p, since, bound);
      StillWasNewest(states, p, states[p].clock - CACHE_TTL - bound + 1, Register(states[p]).entry.version, j, from);
    } else {
      var l := steps[p].c;
      FlightIsRecent(states, steps, p, l, since, bound);
      StillWasNewest(states, p, states[p].clock - CACHE_TTL - 2 * bound + 1, states[p].pc[l].served.entry.version, j, from);
    }
  }

  /**
   Every call that is made at least 60 s and the duration of two flights after state `n`, followers of a
   running flight included, returns the version that was the newest in state `n` or a newer one, unless a
   load failed during the call or in the 5 s and the duration of a flight before it.
   */
  lemma FreshAfterWrite(states: seq<State>, steps: seq<Step>, n: nat, i: nat, j: nat, c: nat, bound: nat)
    requires IsRun(states, steps) && states[0].hasSource && n < |states|
    requires Called(states, c, i) && i <= j < |states| && c in states[j].pc && states[j].pc[c].Returned?
    requires FlightsWithin(states, bound)
    requires NoFailureSince(states, steps, j, states[i].clock - CACHE_ERROR_TTL - bound)
    requires states[n].clock + CACHE_TTL + 2 * bound <= states[i].clock
    ensures states[j].pc[c].served.FromStore?
    ensures |states[n].store| <= states[j].pc[c].served.entry.version + 1 <= |states[j].store|
  {
    hide Apply, Enabled, Inv, FailsAt;
    ServedIsRecent(states, steps, i, j, c, states[i].clock - CACHE_ERROR_TTL - bound, bound);
    var from, version := states[i].clock - CACHE_TTL - 2 * bound + 1, states[j].pc[c].served.entry.version;
    var m :| 0 <= m <= j && m < |states| && from <= states[m].clock && |states[m].store| == version + 1;
    if m < n {
      EnvironmentKept(states, steps, m, n);
    } else {
      EnvironmentKept(states, steps, n, m);
    }
    EnvironmentKept(states, steps, m, j);
  }
}
