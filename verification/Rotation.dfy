/**
 The token rotation protocol: any number of keepalive runs (internal/magickeepalive/refresher.go) interleave
 on one store parameter and one Twitch account, and may crash at any point.

 Assumptions on the environment: Twitch accepts exactly one refresh token at a time and replaces it, by one
 never seen before, whenever it accepts it; only keepalive runs spend the stored token; only they write the
 parameter; and a write attempt that reports failure had no effect.
 */
module Rotation {
  import opened Options
  import opened Config
  import opened KeepAlive
  import MagicLinkStore

  /** How a run ended. `minted` is the token Twitch made live for the run. */
  datatype End =
    | Succeeded
    | NoChange                          // read, parse or Twitch error before any rotation: handle returns it
    | LostAnswer(minted: Text)          // Twitch rotated, the answer never arrived: handle returns the error
    | IncompleteAnswer(minted: Text)    // Twitch rotated, a token is missing from the answer: same
    | NotPersisted(minted: Text)        // ErrTokenRotated: handle returns nil
    | Crashed(carried: Option<Text>)    // possibly with a rotated, unpersisted token

  datatype Run =
    | Started
    | Holding(current: MagicLink)
    | Rotated(current: MagicLink, response: Option<Response>, minted: Text)
    | Writing(current: MagicLink, answer: Response, attempt: nat)
    | Written
    | Ended(how: End)

  datatype State = State(
    versions: seq<Raw>,           // contents of the parameter, oldest first; the first is the seed
    live: Text,                   // the refresh token Twitch accepts
    issued: set<Text>,            // every refresh token that ever existed
    runs: map<nat, Run>,
    persisted: seq<Response>      // history: the responses written to the store, in order
  )

  function Param(s: State): Raw
    requires s.versions != []
  {
    s.versions[|s.versions| - 1]
  }

  /** The store holds a usable blob with the live token. */
  predicate Stored(s: State)
    requires s.versions != []
  {
    ParseMagicLink(Param(s)).Some? && ParseMagicLink(Param(s)).value.refreshToken == s.live
  }

  ghost predicate Init(s: State) {
    && |s.versions| == 1 && s.runs == map[] && s.persisted == []
    && s.live in s.issued && s.live != ""
    && (ParseMagicLink(Param(s)).Some? ==> ParseMagicLink(Param(s)).value.refreshToken in s.issued)
  }

  datatype Step =
    | Start(r: nat)
    | GetFails(r: nat)
    | GetReturns(r: nat)
    | TwitchRefuses(r: nat)
    | TwitchRotates(r: nat, response: Option<Response>, minted: Text)
    | AnswerLost(r: nat, minted: Text)
    | Examine(r: nat)
    | AttemptSucceeds(r: nat)
    | AttemptFails(r: nat)
    | GiveUp(r: nat)
    | Finish(r: nat)
    | Crash(r: nat)

  /** Twitch answers with the token it minted, or leaves it out. */
  predicate Honest(response: Option<Response>, minted: Text) {
    response.Some? ==> response.value.refreshToken == minted || response.value.refreshToken == ""
  }

  predicate Enabled(s: State, step: Step) {
    && s.versions != []
    && (step.Start? <==> step.r !in s.runs)
    && (!step.Start? ==>
      var run := s.runs[step.r];
      match step
      case GetFails(_) => run.Started?
      case GetReturns(_) => run.Started?
      case TwitchRefuses(_) => run.Holding?
      case TwitchRotates(_, response, minted) =>
        run.Holding? && run.current.refreshToken == s.live && minted !in s.issued && minted != "" && Honest(response, minted)
      case AnswerLost(_, minted) =>
        run.Holding? && run.current.refreshToken == s.live && minted !in s.issued && minted != ""
      case Examine(_) => run.Rotated?
      case AttemptSucceeds(_) => run.Writing?
      case AttemptFails(_) => run.Writing? && run.attempt < MagicLinkStore.RETRY_ATTEMPTS
      case GiveUp(_) => run.Writing?
      case Finish(_) => run.Written?
      case Crash(_) => !run.Ended?
      case _ => false)
  }

  /** The token a run has rotated to and not persisted yet. */
  function Custody(run: Run): Option<Text> {
    match run
    case Rotated(_, _, minted) => Some(minted)
    case Writing(_, answer, _) => Some(answer.refreshToken)
    case _ => None
  }

  /** What a run does next once its request is answered. */
  function Advance(s: State, step: Step): Run
    requires Enabled(s, step)
  {
    match step
    case Start(_) => Started
    case GetFails(_) => Ended(NoChange)
    case GetReturns(_) =>
      var current := ParseMagicLink(Param(s));
      if current.None? || current.value.refreshToken == "" then Ended(NoChange) else Holding(current.value)
    case TwitchRefuses(_) => Ended(NoChange)
    case TwitchRotates(r, response, minted) => Rotated(s.runs[r].current, response, minted)
    case AnswerLost(_, minted) => Ended(LostAnswer(minted))
    case Examine(r) =>
      var run := s.runs[r];
      if !IsComplete(run.response) then Ended(IncompleteAnswer(run.minted))
      else if ParseMagicLink(Marshal(NextLink(run.current, run.response.value))).None? then Ended(NotPersisted(run.minted))
      else Writing(run.current, run.response.value, 1)
    case AttemptSucceeds(_) => Written
    case AttemptFails(r) => s.runs[r].(attempt := s.runs[r].attempt + 1)
    case GiveUp(r) => Ended(NotPersisted(s.runs[r].answer.refreshToken))
    case Finish(_) => Ended(Succeeded)
    case Crash(r) => Ended(Crashed(Custody(s.runs[r])))
  }

  function Apply(s: State, step: Step): State
    requires Enabled(s, step)
  {
    var t := s.(runs := s.runs[step.r := Advance(s, step)]);
    match step
    case TwitchRotates(_, _, minted) => t.(live := minted, issued := s.issued + {minted})
    case AnswerLost(_, minted) => t.(live := minted, issued := s.issued + {minted})
    case AttemptSucceeds(r) =>
      t.(versions := s.versions + [Marshal(NextLink(s.runs[r].current, s.runs[r].answer))],
         persisted := s.persisted + [s.runs[r].answer])
    case _ => t
  }

  // --- Invariant ---

  /** The token a run took with it when it ended. */
  function Dropped(run: Run): Option<Text> {
    if !run.Ended? then None
    else match run.how
      case LostAnswer(minted) => Some(minted)
      case IncompleteAnswer(minted) => Some(minted)
      case NotPersisted(minted) => Some(minted)
      case Crashed(carried) => carried
      case _ => None
  }

  predicate RunOk(s: State, run: Run)
    requires s.versions != []
  {
    && (run.Holding? ==>
      && run.current.refreshToken in s.issued
      && (run.current.refreshToken == s.live ==> ParseMagicLink(Param(s)) == Some(run.current)))
    && (Custody(run).Some? ==>
      && Custody(run).value == s.live && !Stored(s) && ParseMagicLink(Param(s)) == Some(run.current))
    && (run.Rotated? ==> Honest(run.response, run.minted))
    && (run.Writing? ==> IsComplete(Some(run.answer)))
    && (Dropped(run).Some? ==> Dropped(run).value in s.issued && (Dropped(run).value == s.live ==> !Stored(s)))
  }

  /** At most one run accounts for the live token, by holding it or by having dropped it. */
  predicate Accounts(s: State, run: Run) {
    Custody(run).Some? || Dropped(run) == Some(s.live)
  }

  ghost predicate Inv(s: State) {
    && s.versions != []
    && |s.persisted| == |s.versions| - 1
    && s.live in s.issued && s.live != ""
    && (ParseMagicLink(Param(s)).Some? ==> ParseMagicLink(Param(s)).value.refreshToken in s.issued)
    && (forall r | r in s.runs :: RunOk(s, s.runs[r]))
    && (forall r, q | r in s.runs && q in s.runs && Accounts(s, s.runs[r]) && Accounts(s, s.runs[q]) :: r == q)
  }

  lemma InitInv(s: State)
    requires Init(s)
    ensures Inv(s)
  {
  }

  lemma StepRuns(s: State, step: Step, r: nat)
    requires Inv(s) && Enabled(s, step) && r in Apply(s, step).runs
    ensures RunOk(Apply(s, step), Apply(s, step).runs[r])
  {
  }

  lemma StepAccounts(s: State, step: Step, r: nat, q: nat)
    requires Inv(s) && Enabled(s, step)
    requires var t := Apply(s, step); r in t.runs && q in t.runs && Accounts(t, t.runs[r]) && Accounts(t, t.runs[q])
    ensures r == q
  {
  }

  lemma StepInv(s: State, step: Step)
    requires Inv(s) && Enabled(s, step)
    ensures Inv(Apply(s, step))
  {
    var t := Apply(s, step);
    if step.r in s.runs {
      assert RunOk(s, s.runs[step.r]);
    }
    forall r | r in t.runs
      ensures RunOk(t, t.runs[r])
    {
      StepRuns(s, step, r);
    }
    forall r, q | r in t.runs && q in t.runs && Accounts(t, t.runs[r]) && Accounts(t, t.runs[q])
      ensures r == q
    {
      StepAccounts(s, step, r, q);
    }
  }
}
