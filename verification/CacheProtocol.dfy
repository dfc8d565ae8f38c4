/**
 The magic-link cache (internal/proxy/magiclinkcache.go) as a transition system: any number of
 concurrent `Resolve` calls, one mutex, one singleflight slot, a store that anybody may write, a clock
 that may advance and contexts that may be cancelled between any two steps.

 Each natural number identifies one call of `Resolve`; a flight is identified by the call that leads it.
 Times are nanoseconds of a monotone clock.
 */
module CacheProtocol {
  import opened Options
  import opened Config

  const SECOND := 1_000_000_000
  const CACHE_TTL := 60 * SECOND
  const CACHE_ERROR_TTL := 5 * SECOND

  function Ttl(succeeded: bool): int {
    if succeeded then CACHE_TTL else CACHE_ERROR_TTL
  }

  /** A cached link, with the store version it was parsed from. */
  datatype Entry = Entry(link: MagicLink, version: nat)

  /** What a call returns: the env-var link, or a link read from the store. */
  datatype Served = FromEnv | FromStore(entry: Entry)

  /** What one source read came to: an error, an answer without a value, or the content of one store version. */
  datatype Outcome = ReadFailed | ReadEmpty | Read(version: nat)

  /** One load that wrote the expiry: inner miss, write of the expiry, and whether it got a link. */
  datatype Load = Load(start: int, end: int, succeeded: bool)

  datatype Pc =
    | Entering                                    // about to lock `mu` in the outer fresh()
    | Checking                                    // holds `mu` in the outer fresh()
    | Missed                                      // outer miss, about to enter flight.Do
    | Joined(leader: nat)                         // waits for a running flight
    | Leading                                     // owns the flight, about to lock `mu` in the inner fresh()
    | Rechecking                                  // holds `mu` in the inner fresh()
    | Fetching(start: int, sample: Option<nat>)   // in source.Get; `sample` is the store version it saw last
    | Fetched(start: int, outcome: Outcome)       // source.Get returned, about to lock `mu`
    | Committing(start: int, outcome: Outcome)    // holds `mu` in load()
    | Stamping(start: int, entry: Entry)          // holds `mu`, `cached` written, `exp` not yet
    | Finishing(served: Served)                   // the flight's function returned, slot still taken
    | Returned(served: Served)

  datatype State = State(
    hasSource: bool,
    env: Option<MagicLink>,
    store: seq<Raw>,              // every version the store ever had, oldest first
    clock: int,
    mu: Option<nat>,
    cached: Option<Entry>,
    exp: Option<int>,             // None is the zero time
    flight: Option<nat>,
    done: map<nat, Served>,       // results of finished flights
    pc: map<nat, Pc>,
    ctxDone: set<nat>,            // calls whose context is cancelled
    loads: seq<Load>              // history: the loads that wrote `exp`, in order
  )

  /** The specification: one register holding the last good link, else the env link. */
  function Register(s: State): Served {
    match s.cached
    case None => FromEnv
    case Some(entry) => FromStore(entry)
  }

  /** The pointer a caller gets for `served`; None is nil. */
  function Link(s: State, served: Served): Option<MagicLink> {
    match served
    case FromEnv => s.env
    case FromStore(entry) => Some(entry.link)
  }

  predicate IsFresh(exp: Option<int>, now: int) {
    exp.Some? && now < exp.value
  }

  ghost predicate Init(s: State) {
    && s.mu == None && s.cached == None && s.exp == None && s.flight == None
    && s.done == map[] && s.pc == map[] && s.ctxDone == {} && s.loads == []
  }

  datatype Step =
    | Tick(now: int)
    | Cancel(c: nat)
    | StorePut(raw: Raw)
    | Begin(c: nat)
    | LockOuter(c: nat)
    | OuterCheck(c: nat)
    | EnterFlight(c: nat)
    | LockInner(c: nat)
    | InnerCheck(c: nat)
    | Sample(c: nat)
    | EndFetch(c: nat, outcome: Outcome)
    | LockCommit(c: nat)
    | Commit(c: nat)
    | Stamp(c: nat)
    | EndFlight(c: nat)
    | Wake(c: nat)

  ghost predicate Enabled(s: State, step: Step) {
    match step
    case Tick(now) => s.clock <= now
    case Cancel(_) => true
    case StorePut(_) => true
    case Begin(c) => c !in s.pc
    case LockOuter(c) => c in s.pc && s.pc[c].Entering? && s.mu == None
    case OuterCheck(c) => c in s.pc && s.pc[c].Checking?
    case EnterFlight(c) => c in s.pc && s.pc[c].Missed?
    case LockInner(c) => c in s.pc && s.pc[c].Leading? && s.mu == None
    case InnerCheck(c) => c in s.pc && s.pc[c].Rechecking?
    case Sample(c) => c in s.pc && s.pc[c].Fetching? && s.store != []
    case EndFetch(c, outcome) =>
      c in s.pc && s.pc[c].Fetching? && (outcome.Read? ==> s.pc[c].sample == Some(outcome.version))
    case LockCommit(c) => c in s.pc && s.pc[c].Fetched? && s.mu == None
    case Commit(c) => c in s.pc && s.pc[c].Committing?
    case Stamp(c) => c in s.pc && s.pc[c].Stamping?
    case EndFlight(c) => c in s.pc && s.pc[c].Finishing?
    case Wake(c) => c in s.pc && s.pc[c].Joined? && s.pc[c].leader in s.done
  }

  /** The link a read yields: none if it failed or the content does not parse. */
  function Parsed(s: State, outcome: Outcome): Option<Entry> {
    if !outcome.Read? || outcome.version >= |s.store| then None
    else match ParseMagicLink(s.store[outcome.version])
      case None => None
      case Some(link) => Some(Entry(link, outcome.version))
  }

  /** The critical section of load(), up to the write of `cached` on success (lines 81-110). */
  function AfterCommit(s: State, c: nat, start: int, outcome: Outcome): State {
    match Parsed(s, outcome)
    case Some(entry) =>
      s.(cached := Some(entry), pc := s.pc[c := Stamping(start, entry)])
    case None =>
      if outcome.ReadFailed? && c in s.ctxDone then
        s.(mu := None, pc := s.pc[c := Finishing(Register(s))])
      else
        s.(mu := None, exp := Some(s.clock + CACHE_ERROR_TTL), pc := s.pc[c := Finishing(Register(s))],
           loads := s.loads + [Load(start, s.clock, false)])
  }

  ghost function Apply(s: State, step: Step): State
    requires Enabled(s, step)
  {
    match step
    case Tick(now) => s.(clock := now)
    case Cancel(c) => s.(ctxDone := s.ctxDone + {c})
    case StorePut(raw) => s.(store := s.store + [raw])
    case Begin(c) => s.(pc := s.pc[c := if s.hasSource then Entering else Returned(FromEnv)])
    case LockOuter(c) => s.(mu := Some(c), pc := s.pc[c := Checking])
    case OuterCheck(c) =>
      s.(mu := None, pc := s.pc[c := if IsFresh(s.exp, s.clock) then Returned(Register(s)) else Missed])
    case EnterFlight(c) =>
      if s.flight.Some? then s.(pc := s.pc[c := Joined(s.flight.value)])
      else s.(flight := Some(c), pc := s.pc[c := Leading])
    case LockInner(c) => s.(mu := Some(c), pc := s.pc[c := Rechecking])
    case InnerCheck(c) =>
      s.(mu := None, pc := s.pc[c := if IsFresh(s.exp, s.clock) then Finishing(Register(s)) else Fetching(s.clock, None)])
    case Sample(c) => s.(pc := s.pc[c := Fetching(s.pc[c].start, Some(|s.store| - 1))])
    case EndFetch(c, outcome) => s.(pc := s.pc[c := Fetched(s.pc[c].start, outcome)])
    case LockCommit(c) => s.(mu := Some(c), pc := s.pc[c := Committing(s.pc[c].start, s.pc[c].outcome)])
    case Commit(c) => AfterCommit(s, c, s.pc[c].start, s.pc[c].outcome)
    case Stamp(c) =>
      s.(mu := None, exp := Some(s.clock + CACHE_TTL), pc := s.pc[c := Finishing(FromStore(s.pc[c].entry))],
         loads := s.loads + [Load(s.pc[c].start, s.clock, true)])
    case EndFlight(c) =>
      s.(flight := None, done := s.done[c := s.pc[c].served], pc := s.pc[c := Returned(s.pc[c].served)])
    case Wake(c) => s.(pc := s.pc[c := Returned(s.done[s.pc[c].leader])])
  }

  // --- Invariant ---

  predicate HoldsMu(p: Pc) {
    p.Checking? || p.Rechecking? || p.Committing? || p.Stamping?
  }

  /** Between an inner miss and the end of load(). */
  predicate IsLoading(p: Pc) {
    p.Fetching? || p.Fetched? || p.Committing? || p.Stamping?
  }

  predicate InFlight(p: Pc) {
    p.Leading? || p.Rechecking? || IsLoading(p) || p.Finishing?
  }

  /** No older than the cached version, and a version the store has had. */
  predicate Recent(s: State, version: nat) {
    version < |s.store| && (s.cached.Some? ==> s.cached.value.version <= version)
  }

  predicate PcOk(s: State, p: Pc) {
    && (IsLoading(p) ==> p.start <= s.clock && (s.exp.Some? ==> s.exp.value <= p.start))
    && (p.Fetching? && p.sample.Some? ==> Recent(s, p.sample.value))
    && ((p.Fetched? || p.Committing?) && p.outcome.Read? ==> Recent(s, p.outcome.version))
    && (p.Stamping? ==> s.cached == Some(p.entry))
    && (p.Finishing? ==> p.served == Register(s))
    && (p.Joined? ==> p.leader in s.done || s.flight == Some(p.leader))
    && (!s.hasSource ==> p == Returned(FromEnv))
  }

  /** The expiry is the one the last logged load wrote, and each load started at or after the previous expiry. */
  predicate LoadsOk(exp: Option<int>, loads: seq<Load>, clock: int) {
    && (exp == if loads == [] then None else Some(loads[|loads| - 1].end + Ttl(loads[|loads| - 1].succeeded)))
    && (forall i | 0 <= i < |loads| :: loads[i].start <= loads[i].end <= clock)
    && (forall i | 0 < i < |loads| :: loads[i - 1].end + Ttl(loads[i - 1].succeeded) <= loads[i].start)
  }

  /** `e` is what some version of the store parses to. */
  predicate IsStored(store: seq<Raw>, e: Entry) {
    e.version < |store| && ParseMagicLink(store[e.version]) == Some(e.link)
  }

  predicate CachedOk(s: State) {
    s.cached.Some? ==> s.hasSource && IsStored(s.store, s.cached.value)
  }

  /** The mutex and the flight slot have the owners their program counters say. */
  predicate OwnsOk(s: State, c: nat) {
    && (c in s.pc ==> (InFlight(s.pc[c]) <==> s.flight == Some(c)) && (HoldsMu(s.pc[c]) <==> s.mu == Some(c)))
    && (c !in s.pc ==> s.flight != Some(c) && s.mu != Some(c))
    && (c in s.done ==> c in s.pc && s.pc[c] == Returned(s.done[c]))
  }

  ghost predicate Inv(s: State) {
    && (forall c: nat :: OwnsOk(s, c))
    && (forall c | c in s.pc :: PcOk(s, s.pc[c]))
    && CachedOk(s)
    && LoadsOk(s.exp, s.loads, s.clock)
  }

  lemma InitInv(s: State)
    requires Init(s)
    ensures Inv(s)
  {
  }

  /** The call a step moves; environment steps move none. */
  function Mover(step: Step): Option<nat> {
    if step.Tick? || step.StorePut? || step.Cancel? then None else Some(step.c)
  }

  lemma MoverOwns(s: State, step: Step)
    requires Inv(s) && Enabled(s, step) && Mover(step).Some?
    ensures OwnsOk(Apply(s, step), Mover(step).value)
  {
    hide PcOk, CachedOk, LoadsOk, Parsed, Register;
    assert OwnsOk(s, step.c);
  }

  lemma BystanderOwns(s: State, step: Step, c: nat)
    requires Inv(s) && Enabled(s, step) && Mover(step) != Some(c)
    ensures OwnsOk(Apply(s, step), c)
  {
    hide PcOk, CachedOk, LoadsOk, Parsed, Register;
    assert OwnsOk(s, c);
    if Mover(step).Some? {
      assert OwnsOk(s, step.c);
    }
  }

  /** The steps from the end of an inner check to the end of load(). */
  predicate IsLoadStep(step: Step) {
    step.Sample? || step.EndFetch? || step.LockCommit? || step.Commit? || step.Stamp?
  }

  lemma LoaderPc(s: State, step: Step)
    requires Inv(s) && Enabled(s, step) && IsLoadStep(step)
    ensures var t := Apply(s, step); PcOk(t, t.pc[step.c])
  {
    assert OwnsOk(s, step.c) && PcOk(s, s.pc[step.c]);
  }

  lemma CallerPc(s: State, step: Step)
    requires Inv(s) && Enabled(s, step) && Mover(step).Some? && !IsLoadStep(step)
    ensures var t := Apply(s, step); PcOk(t, t.pc[step.c])
  {
    assert OwnsOk(s, step.c);
    if step.c in s.pc {
      assert PcOk(s, s.pc[step.c]);
    }
  }

  /** A step moves the program counter of its own call only. */
  lemma BystanderKept(s: State, step: Step, c: nat)
    requires Enabled(s, step) && Mover(step) != Some(c)
    ensures var t := Apply(s, step);
      && (c in s.pc <==> c in t.pc)
      && (c in s.pc ==> s.pc[c] == t.pc[c])
  {
  }

  /** Only the owner of the flight writes `cached` and `exp`, so a bystander in the flight sees them unchanged. */
  lemma BystanderPc(s: State, step: Step, c: nat)
    requires Inv(s) && Enabled(s, step) && Mover(step) != Some(c) && c in s.pc
    ensures var t := Apply(s, step); c in t.pc && PcOk(t, t.pc[c])
  {
    hide CachedOk, LoadsOk, Parsed;
    assert PcOk(s, s.pc[c]) && OwnsOk(s, c);
    if Mover(step).Some? {
      assert OwnsOk(s, step.c);
    }
  }

  lemma StepCached(s: State, step: Step)
    requires Inv(s) && Enabled(s, step)
    ensures CachedOk(Apply(s, step))
  {
  }

  lemma AppendLoad(exp: Option<int>, loads: seq<Load>, clock: int, start: int, succeeded: bool)
    requires LoadsOk(exp, loads, clock)
    requires start <= clock && (exp.Some? ==> exp.value <= start)
    ensures LoadsOk(Some(clock + Ttl(succeeded)), loads + [Load(start, clock, succeeded)], clock)
  {
  }

  /** Only the critical section of load() writes the expiry and the log. */
  lemma LoadsKept(s: State, step: Step)
    requires Enabled(s, step) && !step.Commit? && !step.Stamp?
    ensures var t := Apply(s, step); t.exp == s.exp && t.loads == s.loads && t.cached == s.cached && s.clock <= t.clock
  {
  }

  lemma WriterLoads(s: State, step: Step)
    requires Inv(s) && Enabled(s, step) && (step.Commit? || step.Stamp?)
    ensures var t := Apply(s, step); LoadsOk(t.exp, t.loads, t.clock)
  {
    hide LoadsOk, OwnsOk, CachedOk;
    assert PcOk(s, s.pc[step.c]);
    AppendLoad(s.exp, s.loads, s.clock, s.pc[step.c].start, step.Stamp?);
  }

  lemma StepLoads(s: State, step: Step)
    requires Inv(s) && Enabled(s, step)
    ensures var t := Apply(s, step); LoadsOk(t.exp, t.loads, t.clock)
  {
    hide Apply, Enabled;
    if step.Commit? || step.Stamp? {
      WriterLoads(s, step);
    } else {
      LoadsKept(s, step);
    }
  }

  lemma StepInv(s: State, step: Step)
    requires Inv(s) && Enabled(s, step)
    ensures Inv(Apply(s, step))
  {
    var t := Apply(s, step);
    StepCached(s, step);
    StepLoads(s, step);
    forall c: nat
      ensures OwnsOk(t, c)
    {
      if Mover(step) == Some(c) { MoverOwns(s, step); } else { BystanderOwns(s, step, c); }
    }
    forall c | c in t.pc
      ensures PcOk(t, t.pc[c])
    {
      if Mover(step) != Some(c) { BystanderPc(s, step, c); }
      else if IsLoadStep(step) { LoaderPc(s, step); }
      else { CallerPc(s, step); }
    }
  }
}
