/**
 The cache object itself: the critical sections of fresh() and load(), and `Resolve` for a caller that
 meets no other. Each changes the fields as the transitions of CacheProtocol do, which say what happens when
 they interleave. Clock readings, the result of the source read and the state of the context are parameters.
 */
module MagicLinkCache {
  import opened Options
  import opened Config
  import opened CacheProtocol
  import opened CacheTheorems

  /** The two fields that change. */
  datatype Fields = Fields(cached: Option<MagicLink>, exp: Option<int>)

  /** The link the fields stand for. */
  function Current(fields: Fields, env: Option<MagicLink>): Option<MagicLink> {
    if fields.cached.Some? then fields.cached else env
  }

  /** The fields after load() took in `read`; None for an error of source.Get. */
  function AfterLoad(fields: Fields, read: Option<Raw>, ctxDone: bool, now: int): Fields {
    var parsed := if read.Some? then ParseMagicLink(read.value) else None;
    Fields(
      if parsed.Some? then parsed else fields.cached,
      if read.None? && ctxDone then fields.exp else Some(now + Ttl(parsed.Some?)))
  }

  /** What an uncontended Resolve meets: the three clock readings, the result of the read, and the context. */
  datatype Visit = Visit(outerNow: int, innerNow: int, endNow: int, read: Option<Raw>, ctxDone: bool)

  predicate InOrder(v: Visit) {
    v.outerNow <= v.innerNow <= v.endNow
  }

  predicate Reads(hasSource: bool, fields: Fields, v: Visit) {
    hasSource && !IsFresh(fields.exp, v.outerNow)
  }

  function AfterResolve(hasSource: bool, fields: Fields, v: Visit): Fields {
    if Reads(hasSource, fields, v) then AfterLoad(fields, v.read, v.ctxDone, v.endNow) else fields
  }

  class Cache {
    const hasSource: bool
    const envLink: Option<MagicLink>
    var cached: Option<MagicLink>
    var exp: Option<int>

    constructor (hasSource: bool, envLink: Option<MagicLink>)
      ensures this.hasSource == hasSource && this.envLink == envLink
      ensures Value() == Fields(None, None)
    {
      this.hasSource, this.envLink := hasSource, envLink;
      cached, exp := None, None;
    }

    function Value(): Fields
      reads this
    {
      Fields(cached, exp)
    }

    method Fresh(now: int) returns (link: Option<MagicLink>, ok: bool)
      ensures ok <==> IsFresh(exp, now)
      ensures link == if ok then Current(Value(), envLink) else None
    {
      if exp.None? || !(now < exp.value) {
        return None, false;
      }
      if cached.Some? {
        return cached, true;
      }
      return envLink, true;
    }

    method Load(read: Option<Raw>, ctxDone: bool, now: int) returns (link: Option<MagicLink>)
      modifies this
      ensures Value() == AfterLoad(old(Value()), read, ctxDone, now)
      ensures link == Current(Value(), envLink)
    {
      if read.None? {
        if ctxDone {
          return if cached.Some? then cached else envLink;
        }
        exp := Some(now + CACHE_ERROR_TTL);
        return if cached.Some? then cached else envLink;
      }
      var parsed := ParseMagicLink(read.value);
      if parsed.None? {
        exp := Some(now + CACHE_ERROR_TTL);
        return if cached.Some? then cached else envLink;
      }
      cached := parsed;
      exp := Some(now + CACHE_TTL);
      return cached;
    }

    /** A call that leads its own flight; it reads the source only when both checks miss. */
    method Resolve(v: Visit) returns (link: Option<MagicLink>, fetched: bool)
      requires InOrder(v)
      modifies this
      ensures Value() == AfterResolve(hasSource, old(Value()), v)
      ensures link == if hasSource then Current(Value(), envLink) else envLink
      ensures fetched <==> Reads(hasSource, old(Value()), v)
      ensures old(cached).Some? && hasSource ==> cached.Some? && link.Some?
    {
      if !hasSource {
        return envLink, false;
      }
      var hit, ok := Fresh(v.outerNow);
      if ok {
        return hit, false;
      }
      hit, ok := Fresh(v.innerNow);
      if ok {
        return hit, false;
      }
      link := Load(v.read, v.ctxDone, v.endNow);
      fetched := true;
    }
  }

  // --- The object does what the protocol does ---

  /** The fields in a protocol state. */
  function FieldsOf(s: State): Fields {
    Fields(if s.cached.Some? then Some(s.cached.value.link) else None, s.exp)
  }

  /** What source.Get returns for an outcome; None for an error. */
  function Content(s: State, outcome: Outcome): Option<Raw> {
    match outcome
    case ReadFailed => None
    case ReadEmpty => Some(Empty)
    case Read(version) => Some(if version < |s.store| then s.store[version] else Empty)
  }

  /** The transitions of the critical section of load(). */
  ghost function Loaded(s: State, c: nat): State
    requires Enabled(s, Commit(c))
  {
    var t := Apply(s, Commit(c));
    if t.pc[c].Stamping? then Apply(t, Stamp(c)) else t
  }

  /** From every state in which a call is about to take in a read, the protocol changes the fields as load() does. */
  lemma LoadRefines(s: State, c: nat)
    requires Enabled(s, Commit(c))
    ensures c in Loaded(s, c).pc
    ensures FieldsOf(Loaded(s, c)) == AfterLoad(FieldsOf(s), Content(s, s.pc[c].outcome), c in s.ctxDone, s.clock)
    ensures Loaded(s, c).pc[c].Finishing?
    ensures Link(Loaded(s, c), Loaded(s, c).pc[c].served) == Current(FieldsOf(Loaded(s, c)), s.env)
    ensures var t := Loaded(s, c);
      t.mu == None && t.flight == s.flight && t.store == s.store && t.env == s.env && t.hasSource == s.hasSource
  {
  }

  datatype Run = Run(states: seq<State>, steps: seq<Step>)

  ghost predicate EndsIn(run: Run, s: State) {
    IsRun(run.states, run.steps) && run.states[|run.steps|] == s
  }

  lemma Then(run: Run, s: State, step: Step) returns (longer: Run)
    requires EndsIn(run, s) && Enabled(s, step)
    ensures EndsIn(longer, Apply(s, step)) && run.states <= longer.states
  {
    longer := Run(run.states + [Apply(s, step)], run.steps + [step]);
  }

  /** Everything but the clock, the owners and the program counters is as before. */
  predicate Kept(s: State, t: State) {
    && t.hasSource == s.hasSource && t.env == s.env && t.store == s.store
    && t.cached == s.cached && t.exp == s.exp && t.ctxDone == s.ctxDone
  }

  predicate At(s: State, c: nat, pc: Pc) {
    c in s.pc && s.pc[c] == pc && s.mu == None
  }

  /** From the call to the flight, or to a hit. */
  lemma OuterCheckAlone(run: Run, s: State, c: nat, now: int) returns (longer: Run, t: State)
    requires EndsIn(run, s) && s.mu == None && s.flight == None && c !in s.pc && s.clock <= now
    ensures EndsIn(longer, t) && run.states <= longer.states && Kept(s, t) && t.clock == now
    ensures var hit := IsFresh(s.exp, now);
      && At(t, c, if !s.hasSource then Returned(FromEnv) else if hit then Returned(Register(s)) else Leading)
      && t.flight == if !s.hasSource || hit then None else Some(c)
  {
    hide EndsIn;
    longer := Then(run, s, Tick(now));
    t := Apply(s, Tick(now));
    longer := Then(longer, t, Begin(c));
    t := Apply(t, Begin(c));
    if s.hasSource {
      longer := Then(longer, t, LockOuter(c));
      t := Apply(t, LockOuter(c));
      longer := Then(longer, t, OuterCheck(c));
      t := Apply(t, OuterCheck(c));
      if !IsFresh(s.exp, now) {
        longer := Then(longer, t, EnterFlight(c));
        t := Apply(t, EnterFlight(c));
      }
    }
  }

  lemma InnerCheckAlone(run: Run, s: State, c: nat, now: int) returns (longer: Run, t: State)
    requires EndsIn(run, s) && At(s, c, Leading) && s.clock <= now && !IsFresh(s.exp, now)
    ensures EndsIn(longer, t) && run.states <= longer.states && Kept(s, t) && t.clock == now
    ensures At(t, c, Fetching(now, None)) && t.flight == s.flight
  {
    hide EndsIn;
    longer := Then(run, s, Tick(now));
    t := Apply(s, Tick(now));
    longer := Then(longer, t, LockInner(c));
    t := Apply(t, LockInner(c));
    longer := Then(longer, t, InnerCheck(c));
    t := Apply(t, InnerCheck(c));
  }

  /** A source read with any outcome the store allows. */
  lemma FetchAlone(run: Run, s: State, c: nat, start: int, outcome: Outcome) returns (longer: Run, t: State)
    requires EndsIn(run, s) && At(s, c, Fetching(start, None))
    requires outcome.Read? ==> outcome.version + 1 == |s.store|
    ensures EndsIn(longer, t) && run.states <= longer.states && Kept(s, t) && t.clock == s.clock
    ensures At(t, c, Fetched(start, outcome)) && t.flight == s.flight
  {
    hide EndsIn;
    longer, t := run, s;
    if outcome.Read? {
      longer := Then(longer, t, Sample(c));
      t := Apply(t, Sample(c));
    }
    longer := Then(longer, t, EndFetch(c, outcome));
    t := Apply(t, EndFetch(c, outcome));
  }

  lemma CommitAlone(run: Run, s: State, c: nat) returns (longer: Run)
    requires EndsIn(run, s) && Enabled(s, Commit(c))
    ensures EndsIn(longer, Loaded(s, c)) && run.states <= longer.states
  {
    hide EndsIn;
    longer := Then(run, s, Commit(c));
    var t := Apply(s, Commit(c));
    if t.pc[c].Stamping? {
      longer := Then(longer, t, Stamp(c));
    }
  }

  /** From the end of the read to the end of the flight. */
  lemma LoadAlone(run: Run, s: State, c: nat, start: int, outcome: Outcome, ctxDone: bool, now: int)
    returns (longer: Run, t: State)
    requires EndsIn(run, s) && At(s, c, Fetched(start, outcome)) && s.clock <= now && (c in s.ctxDone ==> ctxDone)
    ensures EndsIn(longer, t) && run.states <= longer.states
    ensures FieldsOf(t) == AfterLoad(FieldsOf(s), Content(s, outcome), ctxDone, now)
    ensures c in t.pc && t.pc[c].Returned? && Link(t, t.pc[c].served) == Current(FieldsOf(t), s.env)
    ensures t.mu == None && t.flight == None && t.store == s.store
  {
    hide EndsIn, AfterLoad, Loaded;
    longer, t := run, s;
    if ctxDone {
      longer := Then(longer, t, Cancel(c));
      t := Apply(t, Cancel(c));
    }
    longer := Then(longer, t, Tick(now));
    t := Apply(t, Tick(now));
    longer := Then(longer, t, LockCommit(c));
    t := Apply(t, LockCommit(c));
    LoadRefines(t, c);
    longer := CommitAlone(longer, t, c);
    t := Loaded(t, c);
    longer := Then(longer, t, EndFlight(c));
    t := Apply(t, EndFlight(c));
  }

  /**
   After any run that leaves the mutex and the flight free, the protocol lets one more call run on its own,
   and the call changes the fields and returns the link as Cache.Resolve does.
   */
  lemma ResolveRefines(run: Run, s: State, c: nat, v: Visit, outcome: Outcome) returns (longer: Run, t: State)
    requires EndsIn(run, s) && s.mu == None && s.flight == None && c !in s.pc
    requires s.clock <= v.outerNow && InOrder(v) && (c in s.ctxDone ==> v.ctxDone)
    requires (outcome.Read? ==> outcome.version + 1 == |s.store|) && v.read == Content(s, outcome)
    ensures EndsIn(longer, t) && run.states <= longer.states
    ensures FieldsOf(t) == AfterResolve(s.hasSource, FieldsOf(s), v)
    ensures c in t.pc && t.pc[c].Returned?
    ensures Link(t, t.pc[c].served) == if s.hasSource then Current(FieldsOf(t), s.env) else s.env
    ensures t.mu == None && t.flight == None && t.store == s.store
  {
    hide EndsIn, AfterLoad;
    longer, t := OuterCheckAlone(run, s, c, v.outerNow);
    if Reads(s.hasSource, FieldsOf(s), v) {
      longer, t := InnerCheckAlone(longer, t, c, v.innerNow);
      longer, t := FetchAlone(longer, t, c, v.innerNow, outcome);
      longer, t := LoadAlone(longer, t, c, v.innerNow, outcome, v.ctxDone, v.endNow);
    }
  }
}
