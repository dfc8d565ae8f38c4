/**
 What the rotation protocol guarantees over every interleaving of runs and crashes: the one-time refresh
 token acts as a lock, the live token has exactly one place, and the stored blobs form a chain of answers.
 */
module RotationTheorems {
  import opened Options
  import opened Config
  import opened KeepAlive
  import opened Rotation

  ghost predicate IsRun(states: seq<State>, steps: seq<Step>) {
    && |states| == |steps| + 1
    && Init(states[0])
    && forall i | 0 <= i < |steps| :: Enabled(states[i], steps[i]) && states[i + 1] == Apply(states[i], steps[i])
  }

  lemma {:induction false} RunInv(states: seq<State>, steps: seq<Step>, i: nat)
    requires IsRun(states, steps) && i < |states|
    ensures Inv(states[i])
  {
    hide Apply, Enabled;
    if i == 0 {
      InitInv(states[0]);
    } else {
      RunInv(states, steps, i - 1);
      StepInv(states[i - 1], steps[i - 1]);
    }
  }

  // --- The token as a lock ---

  /** At most one run holds a rotated but unpersisted token; it is the live one, and the store does not have it. */
  lemma OneHolder(states: seq<State>, steps: seq<Step>, i: nat, r: nat, q: nat)
    requires IsRun(states, steps) && i < |states|
    requires r in states[i].runs && Custody(states[i].runs[r]).Some?
    requires q in states[i].runs && Custody(states[i].runs[q]).Some?
    ensures r == q
    ensures Custody(states[i].runs[r]).value == states[i].live
    ensures states[i].versions != [] && !Stored(states[i])
  {
    RunInv(states, steps, i);
    assert RunOk(states[i], states[i].runs[r]);
    assert Accounts(states[i], states[i].runs[r]) && Accounts(states[i], states[i].runs[q]);
  }

  /** Every successful write passes the guard and stores the token that is live at Twitch. */
  lemma WritesAreLive(states: seq<State>, steps: seq<Step>, i: nat)
    requires IsRun(states, steps) && i < |steps| && steps[i].AttemptSucceeds?
    ensures states[i + 1].versions != [] && Stored(states[i + 1])
    ensures states[i + 1].live == states[i].live
  {
    RunInv(states, steps, i);
    assert RunOk(states[i], states[i].runs[steps[i].r]);
  }

  // --- The place of the live token ---

  ghost predicate HeldBy(s: State, r: nat) {
    r in s.runs && Custody(s.runs[r]).Some?
  }

  /** Run `r` ended without handing over the token that is live now. */
  ghost predicate LostBy(s: State, r: nat) {
    r in s.runs && Dropped(s.runs[r]) == Some(s.live)
  }

  ghost predicate Located(s: State)
    requires s.versions != []
  {
    Stored(s) || exists r :: HeldBy(s, r) || LostBy(s, r)
  }

  lemma StoredMoves(s: State, step: Step)
    requires Inv(s) && Enabled(s, step) && Stored(s)
    ensures var t := Apply(s, step); t.versions != [] && (Stored(t) || HeldBy(t, step.r) || LostBy(t, step.r))
  {
    if step.r in s.runs {
      assert RunOk(s, s.runs[step.r]);
    }
  }

  lemma UnstoredMoves(s: State, step: Step, r: nat)
    requires Inv(s) && Enabled(s, step) && (HeldBy(s, r) || LostBy(s, r))
    ensures var t := Apply(s, step); t.versions != [] && (Stored(t) || HeldBy(t, r) || LostBy(t, r))
  {
    assert RunOk(s, s.runs[r]);
    if step.r in s.runs {
      assert RunOk(s, s.runs[step.r]);
    }
  }

  lemma StepLocated(s: State, step: Step)
    requires Inv(s) && Enabled(s, step) && Located(s)
    ensures Located(Apply(s, step))
  {
    hide Apply, Enabled, HeldBy, LostBy, Stored;
    if Stored(s) {
      StoredMoves(s, step);
    } else {
      var r :| HeldBy(s, r) || LostBy(s, r);
      UnstoredMoves(s, step, r);
    }
  }

  lemma {:induction false} RunLocated(states: seq<State>, steps: seq<Step>, i: nat)
    requires IsRun(states, steps) && i < |states| && Stored(states[0])
    ensures states[i].versions != [] && Located(states[i])
  {
    if i > 0 {
      RunLocated(states, steps, i - 1);
      RunInv(states, steps, i - 1);
      StepLocated(states[i - 1], steps[i - 1]);
    }
  }

  /**
   From a live seed, the live token is at every instant in exactly one place: in the store, or with exactly
   one run that rotated it, or gone with exactly one ended run.
   */
  lemma ExactlyOnePlace(states: seq<State>, steps: seq<Step>, i: nat)
    requires IsRun(states, steps) && i < |states| && Stored(states[0])
    ensures states[i].versions != []
    ensures Stored(states[i]) <==> !exists r :: HeldBy(states[i], r) || LostBy(states[i], r)
    ensures forall r, q ::
      (HeldBy(states[i], r) || LostBy(states[i], r)) && (HeldBy(states[i], q) || LostBy(states[i], q)) ==> r == q
    ensures forall r :: !(HeldBy(states[i], r) && LostBy(states[i], r))
  {
    var s := states[i];
    RunInv(states, steps, i);
    RunLocated(states, steps, i);
    if r :| HeldBy(s, r) || LostBy(s, r) {
      assert RunOk(s, s.runs[r]);
    }
    forall r, q | (HeldBy(s, r) || LostBy(s, r)) && (HeldBy(s, q) || LostBy(s, q))
      ensures r == q
    {
      assert Accounts(s, s.runs[r]) && Accounts(s, s.runs[q]);
    }
  }

  /** A lost token stays lost: no later run rotates or writes anything, so re-invoking is futile. */
  lemma {:induction false} LostForever(states: seq<State>, steps: seq<Step>, i: nat, j: nat, r: nat)
    requires IsRun(states, steps) && i <= j < |states| && LostBy(states[i], r)
    ensures LostBy(states[j], r) && states[j].live == states[i].live
    ensures states[j].versions == states[i].versions != [] && !Stored(states[j])
  {
    if i == j {
      RunInv(states, steps, i);
      assert RunOk(states[i], states[i].runs[r]);
    } else {
      LostForever(states, steps, i, j - 1, r);
      RunInv(states, steps, j - 1);
      var s, step := states[j - 1], steps[j - 1];
      assert Accounts(s, s.runs[r]);
      if step.r in s.runs {
        assert RunOk(s, s.runs[step.r]);
      }
    }
  }

  /**
   The custody rule of the program's comments: the live token is in the store or with a run, unless a run
   crashed after rotating or reported ErrTokenRotated.
   */
  ghost predicate CustodyRule(s: State)
    requires s.versions != []
  {
    || Stored(s)
    || (exists r :: HeldBy(s, r))
    || (exists r :: LostBy(s, r) && (s.runs[r].how.Crashed? || s.runs[r].how.NotPersisted?))
  }

  /** Twitch's last rotation was answered to a run that got no answer, or one without both tokens. */
  ghost predicate AnswerUnusable(s: State, r: nat) {
    r in s.runs && s.runs[r].Ended? && (s.runs[r].how == LostAnswer(s.live) || s.runs[r].how == IncompleteAnswer(s.live))
  }

  lemma RuleFailsWhenUnusable(states: seq<State>, steps: seq<Step>, i: nat)
    requires IsRun(states, steps) && i < |states| && Stored(states[0])
    ensures states[i].versions != []
    ensures CustodyRule(states[i]) <==> !exists r :: AnswerUnusable(states[i], r)
  {
    var s := states[i];
    ExactlyOnePlace(states, steps, i);
    forall r ensures AnswerUnusable(s, r) ==> LostBy(s, r) {}
    if r :| AnswerUnusable(s, r) {
      assert LostBy(s, r);
    } else if !Stored(s) {
      var q :| HeldBy(s, q) || LostBy(s, q);
      assert !AnswerUnusable(s, q);
    }
  }

  /**
   The guard that goes wrong: Twitch rotates and its answer never arrives, or the run goes through the checks
   of the answer (refresher.go:49-62) with one that has no access or no refresh token.
   */
  predicate BadAnswer(s: State, step: Step)
    requires Enabled(s, step)
  {
    step.AnswerLost? || (step.Examine? && !IsComplete(s.runs[step.r].response))
  }

  lemma BadAnswerIsUnusable(s: State, step: Step)
    requires Inv(s) && Enabled(s, step) && BadAnswer(s, step)
    ensures AnswerUnusable(Apply(s, step), step.r)
  {
    if step.Examine? {
      assert RunOk(s, s.runs[step.r]);
    }
  }

  lemma UnusableComesFromBadAnswer(s: State, step: Step, r: nat)
    requires Inv(s) && Enabled(s, step) && AnswerUnusable(Apply(s, step), r)
    ensures AnswerUnusable(s, r) || BadAnswer(s, step)
  {
    if r in s.runs {
      assert RunOk(s, s.runs[r]);
    }
  }

  lemma UnusableIsLost(s: State, r: nat)
    requires AnswerUnusable(s, r)
    ensures LostBy(s, r)
  {
  }

  lemma StepUnusable(s: State, step: Step, r: nat)
    requires Enabled(s, step) && AnswerUnusable(s, r) && Apply(s, step).live == s.live
    ensures AnswerUnusable(Apply(s, step), r)
  {
  }

  lemma {:induction false} StaysUnusable(states: seq<State>, steps: seq<Step>, i: nat, j: nat, r: nat)
    requires IsRun(states, steps) && i <= j < |states| && AnswerUnusable(states[i], r)
    ensures AnswerUnusable(states[j], r)
  {
    hide Apply, Enabled, Inv, LostBy, AnswerUnusable;
    if i < j {
      StaysUnusable(states, steps, i, j - 1, r);
      UnusableIsLost(states[j - 1], r);
      LostForever(states, steps, j - 1, j, r);
      StepUnusable(states[j - 1], steps[j - 1], r);
    }
  }

  /** The step at which the answer was bad. */
  lemma {:induction false} FindBadAnswer(states: seq<State>, steps: seq<Step>, i: nat, r: nat) returns (k: nat)
    requires IsRun(states, steps) && i < |states| && AnswerUnusable(states[i], r)
    ensures k < i && BadAnswer(states[k], steps[k])
  {
    hide Apply, Enabled, Inv;
    RunInv(states, steps, i - 1);
    if BadAnswer(states[i - 1], steps[i - 1]) {
      k := i - 1;
    } else {
      UnusableComesFromBadAnswer(states[i - 1], steps[i - 1], r);
      k := FindBadAnswer(states, steps, i - 1, r);
    }
  }

  /**
   The rule holds at an instant exactly when no bad answer has come before it: every answer of Twitch to a
   rotation arrived, and every answer that a run got to examine had both tokens. An answer that is still
   unexamined, or whose run crashed first, does not break the rule.
   */
  lemma CustodyRuleExactly(states: seq<State>, steps: seq<Step>, i: nat)
    requires IsRun(states, steps) && i < |states| && Stored(states[0])
    ensures states[i].versions != []
    ensures CustodyRule(states[i]) <==> !exists k: nat :: k < i && BadAnswer(states[k], steps[k])
  {
    RuleFailsWhenUnusable(states, steps, i);
    if k: nat :| k < i && BadAnswer(states[k], steps[k]) {
      RunInv(states, steps, k);
      BadAnswerIsUnusable(states[k], steps[k]);
      StaysUnusable(states, steps, k + 1, i, steps[k].r);
    }
    if r :| AnswerUnusable(states[i], r) {
      var k := FindBadAnswer(states, steps, i, r);
    }
  }

  lemma Then(states: seq<State>, steps: seq<Step>, step: Step)
    requires IsRun(states, steps) && Enabled(states[|steps|], step)
    ensures IsRun(states + [Apply(states[|steps|], step)], steps + [step])
  {
  }

  /** A run that has read the usable seed, as the only one so far. */
  lemma ReadySeed(link: MagicLink) returns (states: seq<State>, steps: seq<Step>)
    requires Usable(link)
    ensures IsRun(states, steps) && |steps| == 2 && Stored(states[0]) && states[0].versions == [Marshal(link)]
    ensures states[2] == State([Marshal(link)], link.refreshToken, {link.refreshToken}, map[0 := Holding(link)], [])
  {
    var s := State([Marshal(link)], link.refreshToken, {link.refreshToken}, map[], []);
    Then([s], [], Start(0));
    Then([s] + [Apply(s, Start(0))], [] + [Start(0)], GetReturns(0));
    states := [s] + [Apply(s, Start(0))] + [Apply(Apply(s, Start(0)), GetReturns(0))];
    steps := [] + [Start(0)] + [GetReturns(0)];
    assert states[2].runs == map[0 := Holding(link)];
  }

  /**
   The rule does fail, from every usable seed: Twitch rotates and leaves a token out of its answer, the run
   reports an ordinary error, handle returns it, and the store is left with a dead token.
   */
  lemma IncompleteAnswerBreaksTheRule(link: MagicLink, answer: Option<Response>, minted: Text)
    returns (states: seq<State>, steps: seq<Step>)
    requires Usable(link) && minted != "" && minted != link.refreshToken
    requires Honest(answer, minted) && !IsComplete(answer)
    ensures IsRun(states, steps) && Stored(states[0]) && states[0].versions == [Marshal(link)]
    ensures var s := states[|states| - 1];
      s.versions != [] && !CustodyRule(s) && s.runs == map[0 := Ended(IncompleteAnswer(minted))]
  {
    states, steps := ReadySeed(link);
    Then(states, steps, TwitchRotates(0, answer, minted));
    var s := Apply(states[2], TwitchRotates(0, answer, minted));
    states, steps := states + [s], steps + [TwitchRotates(0, answer, minted)];
    Then(states, steps, Examine(0));
    states, steps := states + [Apply(s, Examine(0))], steps + [Examine(0)];
    assert states[4].runs == map[0 := Ended(IncompleteAnswer(minted))];
    assert BadAnswer(states[3], steps[3]);
    CustodyRuleExactly(states, steps, 4);
  }

  /** The same when the answer is lost on the way: the error is an ordinary one and the stored token is dead. */
  lemma LostAnswerBreaksTheRule(link: MagicLink, minted: Text) returns (states: seq<State>, steps: seq<Step>)
    requires Usable(link) && minted != "" && minted != link.refreshToken
    ensures IsRun(states, steps) && Stored(states[0]) && states[0].versions == [Marshal(link)]
    ensures var s := states[|states| - 1];
      s.versions != [] && !CustodyRule(s) && s.runs == map[0 := Ended(LostAnswer(minted))]
  {
    states, steps := ReadySeed(link);
    Then(states, steps, AnswerLost(0, minted));
    states, steps := states + [Apply(states[2], AnswerLost(0, minted))], steps + [AnswerLost(0, minted)];
    assert states[3].runs == map[0 := Ended(LostAnswer(minted))];
    assert BadAnswer(states[2], steps[2]);
    CustodyRuleExactly(states, steps, 3);
  }

  /**
   A crash after the rotation loses the token as well, but the rule names that case, and holds even if the
   answer was incomplete: nobody had examined it.
   */
  lemma CrashKeepsTheRule(link: MagicLink, answer: Option<Response>, minted: Text)
    returns (states: seq<State>, steps: seq<Step>)
    requires Usable(link) && minted != "" && minted != link.refreshToken && Honest(answer, minted)
    ensures IsRun(states, steps) && Stored(states[0]) && states[0].versions == [Marshal(link)]
    ensures var s := states[|states| - 1];
      s.versions != [] && !Stored(s) && CustodyRule(s) && s.runs == map[0 := Ended(Crashed(Some(minted)))]
  {
    states, steps := ReadySeed(link);
    Then(states, steps, TwitchRotates(0, answer, minted));
    var s := Apply(states[2], TwitchRotates(0, answer, minted));
    states, steps := states + [s], steps + [TwitchRotates(0, answer, minted)];
    Then(states, steps, Crash(0));
    states, steps := states + [Apply(s, Crash(0))], steps + [Crash(0)];
    assert states[4].runs == map[0 := Ended(Crashed(Some(minted)))];
    assert LostBy(states[4], 0);
  }

  // --- The chain of stored blobs ---

  /** The link after persisting `responses` on top of `seed`. */
  function Chain(seed: MagicLink, responses: seq<Response>): MagicLink {
    if responses == [] then seed
    else NextLink(Chain(seed, responses[..|responses| - 1]), responses[|responses| - 1])
  }

  /** Answer `i` is the last one with a token type. */
  ghost predicate LastTyped(responses: seq<Response>, i: int) {
    && 0 <= i < |responses| && responses[i].tokenType != ""
    && forall j | i < j < |responses| :: responses[j].tokenType == ""
  }

  /**
   Both tokens come from the same answer, the last one; the token type is the last non-empty one among the
   answers, or the seed's if they all omit it.
   */
  lemma {:induction false} ChainMeaning(seed: MagicLink, responses: seq<Response>)
    ensures var link := Chain(seed, responses);
      && (responses == [] ==> link == seed)
      && (responses != [] ==>
        var last := responses[|responses| - 1];
        link.accessToken == last.accessToken && link.refreshToken == last.refreshToken && link.expiresIn == last.expiresIn)
      && (forall i :: LastTyped(responses, i) ==> link.tokenType == responses[i].tokenType)
      && ((forall i | 0 <= i < |responses| :: responses[i].tokenType == "") ==> link.tokenType == seed.tokenType)
  {
    if responses != [] {
      var prefix := responses[..|responses| - 1];
      ChainMeaning(seed, prefix);
      forall i | LastTyped(responses, i)
        ensures Chain(seed, responses).tokenType == responses[i].tokenType
      {
        if i < |prefix| {
          assert LastTyped(prefix, i);
        }
      }
    }
  }

  /** `versions` is the chain of `persisted` on a usable seed, and just the seed otherwise. */
  ghost predicate IsChain(seed: Raw, versions: seq<Raw>, persisted: seq<Response>) {
    && versions != [] && versions[0] == seed && |persisted| == |versions| - 1
    && (ParseMagicLink(seed).None? ==> |versions| == 1)
    && (forall k | 0 <= k < |persisted| :: IsComplete(Some(persisted[k])))
    && (ParseMagicLink(seed).Some? ==>
      forall k | 0 <= k < |versions| :: versions[k] == Marshal(Chain(ParseMagicLink(seed).value, persisted[..k])))
  }

  ghost predicate ChainOk(seed: Raw, s: State) {
    IsChain(seed, s.versions, s.persisted)
  }

  lemma ExtendChain(seed: Raw, versions: seq<Raw>, persisted: seq<Response>, current: MagicLink, answer: Response)
    requires IsChain(seed, versions, persisted) && IsComplete(Some(answer))
    requires ParseMagicLink(versions[|versions| - 1]) == Some(current)
    ensures IsChain(seed, versions + [Marshal(NextLink(current, answer))], persisted + [answer])
  {
    var longer, more := versions + [Marshal(NextLink(current, answer))], persisted + [answer];
    var link := ParseMagicLink(seed).value;
    var n := |versions|;
    assert persisted[..n - 1] == persisted && more[..n - 1] == persisted && more[..n] == more;
    assert current == Chain(link, persisted);
    forall k | 0 <= k < |longer|
      ensures longer[k] == Marshal(Chain(link, more[..k]))
    {
      if k < n {
        assert more[..k] == persisted[..k];
      }
    }
  }

  lemma StepChain(seed: Raw, s: State, step: Step)
    requires Inv(s) && ChainOk(seed, s) && Enabled(s, step)
    ensures ChainOk(seed, Apply(s, step))
  {
    hide IsChain;
    if step.AttemptSucceeds? {
      assert RunOk(s, s.runs[step.r]);
      ExtendChain(seed, s.versions, s.persisted, s.runs[step.r].current, s.runs[step.r].answer);
    }
  }

  /** The chain holds over every run; the blob that the guard and the cache accept is always one of its links. */
  lemma {:induction false} RotationChain(states: seq<State>, steps: seq<Step>, i: nat)
    requires IsRun(states, steps) && i < |states|
    ensures ChainOk(states[0].versions[0], states[i])
  {
    var seed := states[0].versions[0];
    if i == 0 {
      if ParseMagicLink(seed).Some? {
        assert Chain(ParseMagicLink(seed).value, states[0].persisted[..0]) == ParseMagicLink(seed).value;
      }
    } else {
      RotationChain(states, steps, i - 1);
      RunInv(states, steps, i - 1);
      StepChain(seed, states[i - 1], steps[i - 1]);
    }
  }

  /** A malformed seed is never overwritten, and a usable one is only replaced by usable blobs. */
  lemma SeedDecides(states: seq<State>, steps: seq<Step>, i: nat)
    requires IsRun(states, steps) && i < |states|
    ensures states[i].versions != []
    ensures ParseMagicLink(states[0].versions[0]).None? ==> states[i].versions == states[0].versions
    ensures ParseMagicLink(states[0].versions[0]).Some? ==> ParseMagicLink(Param(states[i])).Some?
  {
    RotationChain(states, steps, i);
    var s := states[i];
    if ParseMagicLink(states[0].versions[0]).Some? && |s.versions| > 1 {
      var k := |s.versions| - 1;
      ChainMeaning(ParseMagicLink(states[0].versions[0]).value, s.persisted[..k]);
      assert s.persisted[..k] == s.persisted;
    }
  }
}
