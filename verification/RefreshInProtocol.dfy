/**
 A keepalive run that meets no other is a run of the rotation protocol: after any execution, `Refresh` reads,
 rotates and writes as some steps of the protocol do, and ends as they end.
 */
module RefreshInProtocol {
  import opened Options
  import opened Config
  import M = MagicLinkStore
  import opened KeepAlive
  import opened Rotation
  import RotationTheorems

  datatype Execution = Execution(states: seq<State>, steps: seq<Step>)

  ghost predicate EndsIn(e: Execution, s: State) {
    RotationTheorems.IsRun(e.states, e.steps) && e.states[|e.steps|] == s && s.versions != []
  }

  lemma Then(e: Execution, s: State, step: Step) returns (longer: Execution)
    requires EndsIn(e, s) && Enabled(s, step)
    ensures EndsIn(longer, Apply(s, step)) && e.states <= longer.states
  {
    RotationTheorems.Then(e.states, e.steps, step);
    longer := Execution(e.states + [Apply(s, step)], e.steps + [step]);
  }

  /** Run `r` is in phase `run`, and no other run has moved. */
  predicate Moved(s: State, t: State, r: nat, run: Run) {
    t.runs == s.runs[r := run]
  }

  /**
   What Twitch does when the run spends the token it read: it refuses, or it makes `minted` the live token,
   and its answer is lost, or names that token or none.
   */
  predicate TwitchActs(s: State, current: MagicLink, answer: Answer, minted: Option<Text>) {
    match minted
    case None => answer.TwitchFailed?
    case Some(token) =>
      && current.refreshToken == s.live && token !in s.issued && token != ""
      && (answer.Answered? ==> Honest(answer.response, token))
  }

  /** The run reaches Twitch. */
  predicate ReachesTwitch(read: Option<Raw>) {
    read.Some? && ParseMagicLink(read.value).Some?
  }

  lemma ReadAlone(e: Execution, s: State, r: nat, read: Option<Raw>) returns (longer: Execution, t: State)
    requires EndsIn(e, s) && r !in s.runs
    requires read == None || read == Some(Empty) || read == Some(Param(s))
    ensures EndsIn(longer, t) && e.states <= longer.states
    ensures t == s.(runs := t.runs)
    ensures Moved(s, t, r, if ReachesTwitch(read) then Holding(ParseMagicLink(read.value).value) else Ended(NoChange))
  {
    longer := Then(e, s, Start(r));
    t := Apply(s, Start(r));
    var step := if read == Some(Param(s)) then GetReturns(r) else GetFails(r);
    longer := Then(longer, t, step);
    t := Apply(t, step);
  }

  lemma RotateAlone(e: Execution, s: State, r: nat, current: MagicLink, answer: Answer, minted: Option<Text>)
    returns (longer: Execution, t: State)
    requires EndsIn(e, s) && r in s.runs && s.runs[r] == Holding(current) && TwitchActs(s, current, answer, minted)
    ensures EndsIn(longer, t) && e.states <= longer.states
    ensures t.versions == s.versions && t.live == if minted.Some? then minted.value else s.live
    ensures Moved(s, t, r,
      if minted.None? then Ended(NoChange)
      else if answer.TwitchFailed? then Ended(LostAnswer(minted.value))
      else if IsComplete(answer.response) then Writing(current, answer.response.value, 1)
      else Ended(IncompleteAnswer(minted.value)))
  {
    var step :=
      if minted.None? then TwitchRefuses(r)
      else if answer.TwitchFailed? then AnswerLost(r, minted.value)
      else TwitchRotates(r, answer.response, minted.value);
    longer := Then(e, s, step);
    t := Apply(s, step);
    if minted.Some? && answer.Answered? {
      longer := Then(longer, t, Examine(r));
      t := Apply(t, Examine(r));
    }
  }

  /** Further attempts, each after one that failed. */
  lemma {:induction false} RetryAlone(
      e: Execution, s: State, r: nat, current: MagicLink, response: Response, from: nat, n: nat)
    returns (longer: Execution, t: State)
    requires EndsIn(e, s) && r in s.runs && s.runs[r] == Writing(current, response, from) && from <= n <= 3
    ensures EndsIn(longer, t) && e.states <= longer.states
    ensures t == s.(runs := t.runs) && Moved(s, t, r, Writing(current, response, n))
    decreases n - from
  {
    longer, t := e, s;
    if from < n {
      longer := Then(e, s, AttemptFails(r));
      longer, t := RetryAlone(longer, Apply(s, AttemptFails(r)), r, current, response, from + 1, n);
    } else {
      assert s.runs == s.runs[r := s.runs[r]];
    }
  }

  lemma WriteAlone(e: Execution, s: State, r: nat, current: MagicLink, response: Response, w: M.World)
    returns (longer: Execution, t: State)
    requires EndsIn(e, s) && r in s.runs && s.runs[r] == Writing(current, response, 1)
    ensures EndsIn(longer, t) && e.states <= longer.states && t.live == s.live
    ensures t.versions == if Persists(w) then s.versions + [Marshal(NextLink(current, response))] else s.versions
    ensures Moved(s, t, r, Ended(if Persists(w) then Succeeded else NotPersisted(response.refreshToken)))
  {
    longer, t := RetryAlone(e, s, r, current, response, 1, M.Requests(w));
    if Persists(w) {
      longer := Then(longer, t, AttemptSucceeds(r));
      t := Apply(t, AttemptSucceeds(r));
      longer := Then(longer, t, Finish(r));
      t := Apply(t, Finish(r));
    } else {
      longer := Then(longer, t, GiveUp(r));
      t := Apply(t, GiveUp(r));
    }
  }

  /**
   After any execution, one more run can go on alone, whatever it meets, and ends as its case demands: with a
   complete answer and a write that succeeds the new tokens are stored and live.
   */
  lemma RefreshRefines(
      e: Execution, s: State, r: nat, getWorld: M.World, answer: Answer, minted: Option<Text>, putWorld: M.World)
    returns (longer: Execution, t: State)
    requires EndsIn(e, s) && r !in s.runs
    requires var read := ReadIn(getWorld, Param(s));
      ReachesTwitch(read) ==> TwitchActs(s, ParseMagicLink(read.value).value, answer, minted)
    ensures EndsIn(longer, t) && e.states <= longer.states
    ensures var read := ReadIn(getWorld, Param(s));
      Moved(s, t, r, Ended(
        if !ReachesTwitch(read) || minted.None? then NoChange
        else if answer.TwitchFailed? then LostAnswer(minted.value)
        else if !IsComplete(answer.response) then IncompleteAnswer(minted.value)
        else if !Persists(putWorld) then NotPersisted(minted.value)
        else Succeeded))
    ensures t.live == if ReachesTwitch(ReadIn(getWorld, Param(s))) && minted.Some? then minted.value else s.live
    ensures if IsReady(ReadIn(getWorld, Param(s)), answer) && Persists(putWorld) then
        var current, response := ParseMagicLink(Param(s)).value, answer.response.value;
        && Stored(t)
        && t.versions == s.versions + [Doc(MagicLink(
          response.accessToken, response.refreshToken, response.expiresIn,
          if response.tokenType == "" then current.tokenType else response.tokenType))]
      else t.versions == s.versions
  {
    var read := ReadIn(getWorld, Param(s));
    longer, t := ReadAlone(e, s, r, read);
    if ReachesTwitch(read) {
      var current := ParseMagicLink(read.value).value;
      longer, t := RotateAlone(longer, t, r, current, answer, minted);
      if minted.Some? && IsReady(read, answer) {
        longer, t := WriteAlone(longer, t, r, current, answer.response.value, putWorld);
      }
    }
  }

  /** Under the protocol's assumption on failed attempts, a write that fails leaves the parameter as it was. */
  lemma FailedWriteWroteNothing(w: M.World)
    requires M.Monotone(w) && !Persists(w)
    requires forall i :: w.reply(i).tookEffect ==> w.reply(i).error.None?
    ensures WroteNothing(w)
  {
    M.WhenRequestsStop(M.RETRY_ATTEMPTS, w, 1);
  }
}
