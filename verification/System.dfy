/**
 The magic-link system as a whole: one proxy instance with its cache, reading the parameter that any number
 of keepalive runs rotate.
 */
module System {
  import opened Options
  import opened Config
  import C = CacheProtocol
  import CacheTheorems
  import CacheFreshness
  import R = Rotation
  import RotationTheorems

  datatype State = State(cache: C.State, rotation: R.State)
  datatype Step = Proxy(proxy: C.Step) | KeepAlive(run: R.Step)

  /** Only keepalive runs write the store, so the proxy's environment may not. */
  ghost predicate Enabled(s: State, step: Step) {
    match step
    case Proxy(proxy) => !proxy.StorePut? && C.Enabled(s.cache, proxy)
    case KeepAlive(run) => R.Enabled(s.rotation, run)
  }

  /** What the proxy sees of a step: a new store version, or nothing (no time passes). */
  ghost function Seen(s: State, step: Step): C.Step
    requires Enabled(s, step)
  {
    match step
    case Proxy(proxy) => proxy
    case KeepAlive(run) =>
      if run.AttemptSucceeds? then C.StorePut(R.Param(R.Apply(s.rotation, run))) else C.Tick(s.cache.clock)
  }

  ghost function Apply(s: State, step: Step): State
    requires Enabled(s, step)
  {
    State(C.Apply(s.cache, Seen(s, step)), if step.KeepAlive? then R.Apply(s.rotation, step.run) else s.rotation)
  }

  ghost predicate Init(s: State) {
    C.Init(s.cache) && R.Init(s.rotation) && s.cache.store == s.rotation.versions
  }

  ghost predicate IsRun(states: seq<State>, steps: seq<Step>) {
    && |states| == |steps| + 1
    && Init(states[0])
    && forall i | 0 <= i < |steps| :: Enabled(states[i], steps[i]) && states[i + 1] == Apply(states[i], steps[i])
  }

  /** The proxy's part of a run. */
  function Caches(states: seq<State>): (cs: seq<C.State>)
    ensures |cs| == |states| && forall i | 0 <= i < |cs| :: cs[i] == states[i].cache
  {
    seq(|states|, i requires 0 <= i < |states| => states[i].cache)
  }

  ghost function CacheSteps(states: seq<State>, steps: seq<Step>): (csteps: seq<C.Step>)
    requires IsRun(states, steps)
    ensures |csteps| == |steps| && forall i | 0 <= i < |steps| :: csteps[i] == Seen(states[i], steps[i])
  {
    seq(|steps|, i requires 0 <= i < |steps| => Seen(states[i], steps[i]))
  }

  /** It is a run of the cache protocol. */
  lemma CacheRun(states: seq<State>, steps: seq<Step>)
    requires IsRun(states, steps)
    ensures CacheTheorems.IsRun(Caches(states), CacheSteps(states, steps))
  {
    forall i | 0 <= i < |steps|
      ensures C.Enabled(Caches(states)[i], CacheSteps(states, steps)[i])
      ensures Caches(states)[i + 1] == C.Apply(Caches(states)[i], CacheSteps(states, steps)[i])
    {
      assert Enabled(states[i], steps[i]);
    }
  }

  lemma StepStore(s: State, step: Step)
    requires Enabled(s, step) && s.cache.store == s.rotation.versions
    ensures Apply(s, step).cache.store == Apply(s, step).rotation.versions
  {
  }

  /** The store the proxy reads is the parameter the runs write, and its versions are the rotation chain. */
  lemma {:induction false} StoreIsTheChain(states: seq<State>, steps: seq<Step>, i: nat)
    requires IsRun(states, steps) && i < |states|
    ensures R.Inv(states[i].rotation) && states[i].cache.store == states[i].rotation.versions
    ensures RotationTheorems.ChainOk(states[0].rotation.versions[0], states[i].rotation)
  {
    hide C.Apply, C.Enabled, R.Apply, R.Inv;
    var seed := states[0].rotation.versions[0];
    if i == 0 {
      R.InitInv(states[0].rotation);
      if ParseMagicLink(seed).Some? {
        assert RotationTheorems.Chain(ParseMagicLink(seed).value, states[0].rotation.persisted[..0]) == ParseMagicLink(seed).value;
      }
    } else {
      StoreIsTheChain(states, steps, i - 1);
      assert Enabled(states[i - 1], steps[i - 1]);
      StepStore(states[i - 1], steps[i - 1]);
      if steps[i - 1].KeepAlive? {
        R.StepInv(states[i - 1].rotation, steps[i - 1].run);
        RotationTheorems.StepChain(seed, states[i - 1].rotation, steps[i - 1].run);
      }
    }
  }

  /**
   End to end: whatever the interleaving of callers, runs and crashes, a link the proxy serves from the store
   has both tokens from one and the same source - the seed, or a single Twitch answer that a run persisted.
   */
  lemma ServedTokensBelongTogether(states: seq<State>, steps: seq<Step>, j: nat, c: nat)
    requires IsRun(states, steps) && j < |states|
    requires c in states[j].cache.pc && states[j].cache.pc[c].Returned? && states[j].cache.pc[c].served.FromStore?
    ensures var entry := states[j].cache.pc[c].served.entry;
      var persisted := states[j].rotation.persisted;
      && Usable(entry.link) && entry.version <= |persisted|
      && (entry.version == 0 ==> Some(entry.link) == ParseMagicLink(states[0].rotation.versions[0]))
      && (entry.version > 0 ==>
        && entry.link.accessToken == persisted[entry.version - 1].accessToken
        && entry.link.refreshToken == persisted[entry.version - 1].refreshToken)
  {
    CacheRun(states, steps);
    CacheTheorems.ServedIsStored(Caches(states), CacheSteps(states, steps), j, c);
    StoreIsTheChain(states, steps, j);
    var entry := states[j].cache.pc[c].served.entry;
    var seed := states[0].rotation.versions[0];
    if ParseMagicLink(seed).Some? {
      RotationTheorems.ChainMeaning(ParseMagicLink(seed).value, states[j].rotation.persisted[..entry.version]);
    }
  }

  /** And successive calls never go back to an earlier link of the chain, nor from the store to the env link. */
  lemma SystemMonotonicReads(states: seq<State>, steps: seq<Step>, returned: nat, later: nat, a: nat, b: nat)
    requires IsRun(states, steps) && returned <= later < |states|
    requires a in states[returned].cache.pc && states[returned].cache.pc[a].Returned?
    requires b !in states[returned].cache.pc && b in states[later].cache.pc && states[later].cache.pc[b].Returned?
    ensures CacheTheorems.Rank(states[returned].cache.pc[a].served) <= CacheTheorems.Rank(states[later].cache.pc[b].served)
  {
    CacheRun(states, steps);
    CacheTheorems.MonotonicReads(Caches(states), CacheSteps(states, steps), returned, later, a, b);
  }

  /** With a usable seed every version is usable, so only a failed or empty read can make a load fail. */
  lemma OnlyReadsFail(states: seq<State>, steps: seq<Step>, k: nat)
    requires IsRun(states, steps) && ParseMagicLink(states[0].rotation.versions[0]).Some?
    requires CacheFreshness.FailsAt(Caches(states), CacheSteps(states, steps), k)
    ensures steps[k].Proxy? && steps[k].proxy.Commit?
    ensures var call := steps[k].proxy.c; !states[k].cache.pc[call].outcome.Read?
  {
    hide C.Apply, R.Apply, R.Enabled, R.Inv;
    CacheRun(states, steps);
    CacheTheorems.RunInv(Caches(states), CacheSteps(states, steps), k);
    StoreIsTheChain(states, steps, k);
    var s, call := states[k].cache, steps[k].proxy.c;
    assert C.PcOk(s, s.pc[call]);
    if s.pc[call].outcome.Read? {
      var version := s.pc[call].outcome.version;
      RotationTheorems.ChainMeaning(ParseMagicLink(states[0].rotation.versions[0]).value, states[k].rotation.persisted[..version]);
    }
  }

  /** Up to state `j`, every source read taken in by a load at or after the time `since` had come back with content. */
  ghost predicate ReadsSucceedSince(states: seq<State>, steps: seq<Step>, j: nat, since: int)
    requires IsRun(states, steps)
  {
    forall k | 0 <= k < j && k < |steps| && Enabled(states[k], steps[k]) && steps[k].Proxy? && steps[k].proxy.Commit? ::
      since <= states[k].cache.clock ==> states[k].cache.pc[steps[k].proxy.c].outcome.Read?
  }

  /**
   How fast a rotation becomes visible: every call made at least 60 s and the duration of two flights after
   state `n` returns the tokens of the last answer persisted by then, or of a later one, unless a source read
   failed during the call or in the 5 s and the duration of a flight before it.
   */
  lemma SystemFreshness(states: seq<State>, steps: seq<Step>, n: nat, i: nat, j: nat, c: nat, bound: nat)
    requires IsRun(states, steps) && n < |states|
    requires states[0].cache.hasSource && ParseMagicLink(states[0].rotation.versions[0]).Some?
    requires CacheTheorems.Called(Caches(states), c, i) && i <= j < |states|
    requires c in states[j].cache.pc && states[j].cache.pc[c].Returned?
    requires CacheFreshness.FlightsWithin(Caches(states), bound)
    requires ReadsSucceedSince(states, steps, j, states[i].cache.clock - C.CACHE_ERROR_TTL - bound)
    requires states[n].cache.clock + C.CACHE_TTL + 2 * bound <= states[i].cache.clock
    ensures states[j].cache.pc[c].served.FromStore?
    ensures var entry := states[j].cache.pc[c].served.entry;
      var persisted := states[j].rotation.persisted;
      && |states[n].rotation.persisted| <= entry.version <= |persisted|
      && (entry.version > 0 ==>
        && entry.link.accessToken == persisted[entry.version - 1].accessToken
        && entry.link.refreshToken == persisted[entry.version - 1].refreshToken)
  {
    hide C.Apply, C.Enabled, R.Apply, R.Enabled, R.Inv, CacheFreshness.FailsAt;
    var cs, csteps, since := Caches(states), CacheSteps(states, steps), states[i].cache.clock - C.CACHE_ERROR_TTL - bound;
    forall k | 0 <= k < j && CacheFreshness.FailsAt(cs, csteps, k)
      ensures cs[k].clock < since
    {
      OnlyReadsFail(states, steps, k);
      assert Enabled(states[k], steps[k]);
    }
    CacheRun(states, steps);
    CacheFreshness.FreshAfterWrite(cs, csteps, n, i, j, c, bound);
    StoreIsTheChain(states, steps, n);
    StoreIsTheChain(states, steps, j);
    ServedTokensBelongTogether(states, steps, j, c);
  }
}
