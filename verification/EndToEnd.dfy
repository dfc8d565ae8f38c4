/**
 The way of a token through the system: after any execution, one keepalive run and one call of the proxy can
 follow, and the caller gets the tokens that Twitch answered to that run.
 */
module EndToEnd {
  import opened Options
  import opened Config
  import C = CacheProtocol
  import CacheTheorems
  import L = MagicLinkCache
  import K = KeepAlive
  import M = MagicLinkStore
  import R = Rotation
  import RotationTheorems
  import P = RefreshInProtocol
  import opened System

  datatype Run = Run(states: seq<State>, steps: seq<Step>)

  ghost predicate EndsIn(run: Run, s: State) {
    IsRun(run.states, run.steps) && run.states[|run.steps|] == s
  }

  lemma Then(run: Run, s: State, step: Step) returns (longer: Run)
    requires EndsIn(run, s) && Enabled(s, step)
    ensures EndsIn(longer, Apply(s, step)) && run.states <= longer.states
  {
    longer := Run(run.states + [Apply(s, step)], run.steps + [step]);
  }

  /** The keepalive runs' part of a system run, without the steps of the proxy. */
  lemma {:induction false} RotationPart(run: Run, i: nat) returns (e: P.Execution)
    requires IsRun(run.states, run.steps) && i < |run.states|
    ensures P.EndsIn(e, run.states[i].rotation)
  {
    hide C.Apply, C.Enabled, R.Apply, R.Enabled, R.Inv;
    StoreIsTheChain(run.states, run.steps, i);
    if i == 0 {
      e := P.Execution([run.states[0].rotation], []);
    } else {
      e := RotationPart(run, i - 1);
      assert Enabled(run.states[i - 1], run.steps[i - 1]);
      if run.steps[i - 1].KeepAlive? {
        e := P.Then(e, run.states[i - 1].rotation, run.steps[i - 1].run);
      }
    }
  }

  /** Steps of keepalive runs, taken in the system: of the proxy's state only the store moves. */
  lemma {:induction false} LiftRotation(run: Run, s: State, e: P.Execution, k: nat) returns (longer: Run, t: State)
    requires EndsIn(run, s) && RotationTheorems.IsRun(e.states, e.steps)
    requires k <= |e.steps| && s.rotation == e.states[k]
    ensures EndsIn(longer, t) && run.states <= longer.states
    ensures t.rotation == e.states[|e.steps|] && t.cache == s.cache.(store := t.cache.store)
    decreases |e.steps| - k
  {
    hide EndsIn, R.Apply, R.Enabled;
    longer, t := run, s;
    if k < |e.steps| {
      var step := KeepAlive(e.steps[k]);
      assert Enabled(s, step);
      longer := Then(run, s, step);
      longer, t := LiftRotation(longer, Apply(s, step), e, k + 1);
    }
  }

  /** Steps of the proxy that leave the store alone, taken in the system. */
  lemma {:induction false} LiftProxy(run: Run, s: State, calls: L.Run, k: nat) returns (longer: Run, t: State)
    requires EndsIn(run, s) && CacheTheorems.IsRun(calls.states, calls.steps)
    requires k <= |calls.steps| && s.cache == calls.states[k]
    requires calls.states[k].store == calls.states[|calls.steps|].store
    ensures EndsIn(longer, t) && run.states <= longer.states
    ensures t.cache == calls.states[|calls.steps|] && t.rotation == s.rotation
    decreases |calls.steps| - k
  {
    hide EndsIn;
    longer, t := run, s;
    if k < |calls.steps| {
      var step := Proxy(calls.steps[k]);
      CacheTheorems.EnvironmentKept(calls.states, calls.steps, k, k + 1);
      CacheTheorems.EnvironmentKept(calls.states, calls.steps, k + 1, |calls.steps|);
      assert Enabled(s, step);
      longer := Then(run, s, step);
      longer, t := LiftProxy(longer, Apply(s, step), calls, k + 1);
    }
  }

  lemma RotateOnce(run: Run, s: State, r: nat, getWorld: M.World, response: K.Response, putWorld: M.World)
    returns (longer: Run, t: State)
    requires EndsIn(run, s) && s.rotation.versions != [] && R.Stored(s.rotation) && r !in s.rotation.runs
    requires K.ReadIn(getWorld, R.Param(s.rotation)) == Some(R.Param(s.rotation))
    requires K.IsComplete(Some(response)) && response.refreshToken !in s.rotation.issued && K.Persists(putWorld)
    ensures EndsIn(longer, t) && run.states <= longer.states && t.cache == s.cache.(store := t.cache.store)
    ensures t.rotation.versions != [] && R.Stored(t.rotation) && t.rotation.live == response.refreshToken
    ensures R.Param(t.rotation) == Doc(MagicLink(
      response.accessToken, response.refreshToken, response.expiresIn,
      if response.tokenType == "" then ParseMagicLink(R.Param(s.rotation)).value.tokenType else response.tokenType))
  {
    var e := RotationPart(run, |run.steps|);
    var longerE, u := P.RefreshRefines(
      e, s.rotation, r, getWorld, K.Answered(Some(response)), Some(response.refreshToken), putWorld);
    assert longerE.states[|e.steps|] == e.states[|e.steps|];
    longer, t := LiftRotation(run, s, longerE, |e.steps|);
  }

  lemma CallOnce(run: Run, s: State, c: nat, now: int, link: MagicLink) returns (longer: Run, t: State)
    requires EndsIn(run, s) && s.cache.mu == None && s.cache.flight == None && s.cache.hasSource
    requires c !in s.cache.pc && c !in s.cache.ctxDone && s.cache.clock <= now && !C.IsFresh(s.cache.exp, now)
    requires s.cache.store != [] && s.cache.store[|s.cache.store| - 1] == Doc(link) && Usable(link)
    ensures EndsIn(longer, t) && run.states <= longer.states && t.rotation == s.rotation
    ensures c in t.cache.pc && t.cache.pc[c].Returned? && C.Link(t.cache, t.cache.pc[c].served) == Some(link)
  {
    hide C.Apply, C.Enabled;
    CacheRun(run.states, run.steps);
    var before := L.Run(Caches(run.states), CacheSteps(run.states, run.steps));
    var v := L.Visit(now, now, now, Some(Doc(link)), false);
    var calls, u := L.ResolveRefines(before, s.cache, c, v, C.Read(|s.cache.store| - 1));
    assert calls.states[|before.steps|] == before.states[|before.steps|];
    longer, t := LiftProxy(run, s, calls, |before.steps|);
  }

  /**
   After any execution that leaves the cache idle and the live token in the store, a keepalive run can rotate
   the token and a call can follow once the entry has expired; the caller gets exactly the tokens Twitch
   answered, and its refresh token is the live one.
   */
  lemma RotationReachesTheCaller(
      run: Run, s: State, r: nat, getWorld: M.World, response: K.Response, putWorld: M.World, c: nat, now: int)
    returns (longer: Run, t: State)
    requires EndsIn(run, s) && s.rotation.versions != [] && R.Stored(s.rotation) && r !in s.rotation.runs
    requires K.ReadIn(getWorld, R.Param(s.rotation)) == Some(R.Param(s.rotation))
    requires K.IsComplete(Some(response)) && response.refreshToken !in s.rotation.issued && K.Persists(putWorld)
    requires s.cache.mu == None && s.cache.flight == None && s.cache.hasSource
    requires c !in s.cache.pc && c !in s.cache.ctxDone && s.cache.clock <= now && !C.IsFresh(s.cache.exp, now)
    ensures EndsIn(longer, t) && run.states <= longer.states
    ensures c in t.cache.pc && t.cache.pc[c].Returned?
    ensures C.Link(t.cache, t.cache.pc[c].served) == Some(MagicLink(
      response.accessToken, response.refreshToken, response.expiresIn,
      if response.tokenType == "" then ParseMagicLink(R.Param(s.rotation)).value.tokenType else response.tokenType))
    ensures t.rotation.live == response.refreshToken
  {
    longer, t := RotateOnce(run, s, r, getWorld, response, putWorld);
    StoreIsTheChain(longer.states, longer.steps, |longer.steps|);
    var link := ParseMagicLink(R.Param(t.rotation)).value;
    longer, t := CallOnce(longer, t, c, now, link);
  }
}
