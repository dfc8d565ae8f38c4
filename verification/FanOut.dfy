/**
 `Notify` (internal/alarmnotifier/notify.go) as a transition system: the calling goroutine spawns one sender
 per enabled channel, waits for both, then drains the buffered result channel. Whether a channel
 acknowledges delivery is fixed by the world; when each goroutine takes a step is not.
 */
module FanOut {
  /** LoadConfig accepts a configuration only with at least one channel enabled. */
  datatype Channels = Channels(discord: bool, telegram: bool)
  datatype Acks = Acks(discord: bool, telegram: bool)

  predicate Accepted(cfg: Channels) {
    cfg.discord || cfg.telegram
  }

  datatype Channel = Discord | Telegram

  predicate HasChannel(cfg: Channels, ch: Channel) {
    if ch == Discord then cfg.discord else cfg.telegram
  }

  predicate Acknowledges(acks: Acks, ch: Channel) {
    if ch == Discord then acks.discord else acks.telegram
  }

  /** Some enabled channel acknowledges. */
  predicate Delivered(cfg: Channels, acks: Acks) {
    exists ch :: HasChannel(cfg, ch) && Acknowledges(acks, ch)
  }

  lemma DeliveredBy(cfg: Channels, acks: Acks)
    ensures Delivered(cfg, acks) <==> (cfg.discord && acks.discord) || (cfg.telegram && acks.telegram)
  {
    assert HasChannel(cfg, Discord) == cfg.discord && HasChannel(cfg, Telegram) == cfg.telegram;
  }

  datatype Sender =
    | Unspawned
    | Sending         // in sendDiscord / sendTelegram
    | Failed          // about to write to `results`
    | Sent            // about to add to `sent`
    | Done            // wg.Done

  datatype Caller =
    | SpawnDiscord
    | SpawnTelegram
    | Waiting         // wg.Wait
    | Draining        // ranges over the closed channel
    | Returned(failed: bool)

  const CAPACITY := 2

  datatype State = State(
    caller: Caller,
    discord: Sender,
    telegram: Sender,
    results: seq<Channel>,   // the buffered channel
    sent: nat,
    errs: seq<Channel>)

  const START := State(SpawnDiscord, Unspawned, Unspawned, [], 0, [])

  function SenderOf(s: State, ch: Channel): Sender {
    if ch == Discord then s.discord else s.telegram
  }

  function WithSender(s: State, ch: Channel, sender: Sender): State {
    if ch == Discord then s.(discord := sender) else s.(telegram := sender)
  }

  datatype Step = Spawn | FinishSend(ch: Channel) | WriteResult(ch: Channel) | CountSent(ch: Channel) | Join | Drain | Return

  predicate AtRest(sender: Sender) {
    sender.Unspawned? || sender.Done?
  }

  predicate Enabled(s: State, step: Step) {
    match step
    case Spawn => s.caller.SpawnDiscord? || s.caller.SpawnTelegram?
    case FinishSend(ch) => SenderOf(s, ch).Sending?
    case WriteResult(ch) => SenderOf(s, ch).Failed? && |s.results| < CAPACITY
    case CountSent(ch) => SenderOf(s, ch).Sent?
    case Join => s.caller.Waiting? && AtRest(s.discord) && AtRest(s.telegram)
    case Drain => s.caller.Draining? && s.results != []
    case Return => s.caller.Draining? && s.results == []
  }

  function Apply(cfg: Channels, acks: Acks, s: State, step: Step): State
    requires Enabled(s, step)
  {
    match step
    case Spawn =>
      if s.caller.SpawnDiscord? then s.(caller := SpawnTelegram, discord := if cfg.discord then Sending else s.discord)
      else s.(caller := Waiting, telegram := if cfg.telegram then Sending else s.telegram)
    case FinishSend(ch) => WithSender(s, ch, if Acknowledges(acks, ch) then Sent else Failed)
    case WriteResult(ch) => WithSender(s, ch, Done).(results := s.results + [ch])
    case CountSent(ch) => WithSender(s, ch, Done).(sent := s.sent + 1)
    case Join => s.(caller := Draining)
    case Drain => s.(results := s.results[1..], errs := s.errs + [s.results[0]])
    case Return => s.(caller := Returned(s.errs != [] && s.sent == 0))
  }

  ghost predicate IsRun(cfg: Channels, acks: Acks, states: seq<State>, steps: seq<Step>) {
    && |states| == |steps| + 1 && states[0] == START
    && forall i | 0 <= i < |steps| :: Enabled(states[i], steps[i]) && states[i + 1] == Apply(cfg, acks, states[i], steps[i])
  }

  function AsNat(b: bool): nat {
    if b then 1 else 0
  }

  function EnabledChannels(cfg: Channels): nat {
    AsNat(cfg.discord) + AsNat(cfg.telegram)
  }

  /** Where a sender may be, and what it has contributed so far. */
  predicate SenderOk(cfg: Channels, acks: Acks, s: State, ch: Channel) {
    var sender := SenderOf(s, ch);
    && (sender.Unspawned? || HasChannel(cfg, ch))
    && (sender.Sent? ==> Acknowledges(acks, ch))
    && (sender.Failed? ==> !Acknowledges(acks, ch))
    && (HasChannel(cfg, ch) && sender.Unspawned? ==> s.caller.SpawnDiscord? || (s.caller.SpawnTelegram? && ch == Telegram))
    && (s.caller.Draining? || s.caller.Returned? ==> AtRest(sender))
    && (s.caller.SpawnDiscord? ==> sender.Unspawned?) && (s.caller.SpawnTelegram? && ch == Telegram ==> sender.Unspawned?)
  }

  /** The errors queued or collected are those of the senders that failed. */
  ghost predicate Reported(acks: Acks, s: State) {
    forall ch :: ch in s.results || ch in s.errs <==> SenderOf(s, ch).Done? && !Acknowledges(acks, ch)
  }

  predicate SendersOk(cfg: Channels, acks: Acks, s: State) {
    SenderOk(cfg, acks, s, Discord) && SenderOk(cfg, acks, s, Telegram)
  }

  ghost predicate Inv(cfg: Channels, acks: Acks, s: State) {
    && SendersOk(cfg, acks, s)
    && s.sent == AsNat(s.discord.Done? && acks.discord) + AsNat(s.telegram.Done? && acks.telegram)
    && |s.results| + |s.errs| == AsNat(s.discord.Done? && !acks.discord) + AsNat(s.telegram.Done? && !acks.telegram)
    && (!s.caller.Draining? && !s.caller.Returned? ==> s.errs == [])
    && (s.caller.Returned? ==> s.results == [] && s.caller.failed == (s.errs != [] && s.sent == 0))
  }

  lemma StepInv(cfg: Channels, acks: Acks, s: State, step: Step)
    requires Inv(cfg, acks, s) && Enabled(s, step)
    ensures Inv(cfg, acks, Apply(cfg, acks, s, step))
  {
  }

  lemma StepReported(cfg: Channels, acks: Acks, s: State, step: Step)
    requires SendersOk(cfg, acks, s) && Enabled(s, step) && Reported(acks, s)
    ensures Reported(acks, Apply(cfg, acks, s, step))
  {
  }

  lemma {:induction false} RunInv(cfg: Channels, acks: Acks, states: seq<State>, steps: seq<Step>, i: nat)
    requires IsRun(cfg, acks, states, steps) && i < |states|
    ensures Inv(cfg, acks, states[i])
    ensures Reported(acks, states[i])
  {
    if i > 0 {
      RunInv(cfg, acks, states, steps, i - 1);
      StepReported(cfg, acks, states[i - 1], steps[i - 1]);
      StepInv(cfg, acks, states[i - 1], steps[i - 1]);
    }
  }

  /**
   Acknowledgements plus queued and collected errors never exceed the enabled channels, and equal them once
   the wait is over; a sender with an error to report is never blocked by the buffered channel.
   */
  lemma Conservation(cfg: Channels, acks: Acks, states: seq<State>, steps: seq<Step>, i: nat)
    requires IsRun(cfg, acks, states, steps) && i < |states|
    ensures var s := states[i];
      && s.sent + |s.results| + |s.errs| <= EnabledChannels(cfg)
      && (s.caller.Draining? || s.caller.Returned? ==> s.sent + |s.results| + |s.errs| == EnabledChannels(cfg))
      && (forall ch :: SenderOf(s, ch).Failed? ==> Enabled(s, WriteResult(ch)))
  {
    RunInv(cfg, acks, states, steps, i);
  }

  /** Some channel is enabled and none acknowledges. */
  predicate NotifyFails(cfg: Channels, acks: Acks) {
    Accepted(cfg) && !Delivered(cfg, acks)
  }

  /** The verdict, and which channels the error names, do not depend on the interleaving. */
  lemma VerdictIsFixed(cfg: Channels, acks: Acks, states: seq<State>, steps: seq<Step>, i: nat)
    requires IsRun(cfg, acks, states, steps) && i < |states| && states[i].caller.Returned?
    ensures states[i].caller.failed <==> NotifyFails(cfg, acks)
    ensures forall ch :: ch in states[i].errs <==> HasChannel(cfg, ch) && !Acknowledges(acks, ch)
    ensures |states[i].errs| + states[i].sent == EnabledChannels(cfg)
  {
    RunInv(cfg, acks, states, steps, i);
    DeliveredBy(cfg, acks);
  }

  // --- The calls to the channels ---

  /** The order in which the channels are called. */
  function SendOrder(steps: seq<Step>): seq<Channel> {
    if steps == [] then []
    else
      var last := steps[|steps| - 1];
      SendOrder(steps[..|steps| - 1]) + if last.FinishSend? then [last.ch] else []
  }

  ghost predicate Distinct(order: seq<Channel>) {
    forall i, j | 0 <= i < j < |order| :: order[i] != order[j]
  }

  predicate HasSent(sender: Sender) {
    !sender.Unspawned? && !sender.Sending?
  }

  lemma StepSends(cfg: Channels, acks: Acks, s: State, step: Step, ch: Channel)
    requires SendersOk(cfg, acks, s) && Enabled(s, step)
    ensures HasSent(SenderOf(Apply(cfg, acks, s, step), ch)) <==> HasSent(SenderOf(s, ch)) || step == FinishSend(ch)
    ensures step == FinishSend(ch) ==> !HasSent(SenderOf(s, ch))
  {
  }

  lemma {:induction false} OrderInRun(cfg: Channels, acks: Acks, states: seq<State>, steps: seq<Step>, i: nat)
    requires IsRun(cfg, acks, states, steps) && i < |states|
    ensures Distinct(SendOrder(steps[..i]))
    ensures forall ch :: ch in SendOrder(steps[..i]) <==> HasSent(SenderOf(states[i], ch))
  {
    if i == 0 {
      assert steps[..0] == [];
    } else {
      OrderInRun(cfg, acks, states, steps, i - 1);
      assert steps[..i][..i - 1] == steps[..i - 1] && steps[..i][i - 1] == steps[i - 1];
      RunInv(cfg, acks, states, steps, i - 1);
      forall ch
        ensures HasSent(SenderOf(states[i], ch)) <==> HasSent(SenderOf(states[i - 1], ch)) || steps[i - 1] == FinishSend(ch)
        ensures steps[i - 1] == FinishSend(ch) ==> !HasSent(SenderOf(states[i - 1], ch))
      {
        StepSends(cfg, acks, states[i - 1], steps[i - 1], ch);
      }
    }
  }

  /** In every completed run each enabled channel is called exactly once, and no other is. */
  lemma EachSendsOnce(cfg: Channels, acks: Acks, states: seq<State>, steps: seq<Step>)
    requires IsRun(cfg, acks, states, steps) && states[|steps|].caller.Returned?
    ensures Distinct(SendOrder(steps))
    ensures forall ch :: ch in SendOrder(steps) <==> HasChannel(cfg, ch)
  {
    OrderInRun(cfg, acks, states, steps, |steps|);
    RunInv(cfg, acks, states, steps, |steps|);
    assert steps[..|steps|] == steps;
    forall ch
      ensures HasSent(SenderOf(states[|steps|], ch)) <==> HasChannel(cfg, ch)
    {
      assert SenderOk(cfg, acks, states[|steps|], ch);
    }
  }

  // --- The run in which one channel is called after the other ---

  datatype Run = Run(states: seq<State>, steps: seq<Step>)

  ghost predicate IsRunTo(cfg: Channels, acks: Acks, run: Run, s: State, order: seq<Channel>) {
    IsRun(cfg, acks, run.states, run.steps) && run.states[|run.steps|] == s && SendOrder(run.steps) == order
  }

  lemma Then(cfg: Channels, acks: Acks, run: Run, step: Step, s: State, order: seq<Channel>) returns (longer: Run)
    requires IsRunTo(cfg, acks, run, s, order) && Enabled(s, step)
    ensures IsRunTo(cfg, acks, longer, Apply(cfg, acks, s, step), order + if step.FinishSend? then [step.ch] else [])
  {
    longer := Run(run.states + [Apply(cfg, acks, s, step)], run.steps + [step]);
    assert longer.steps[..|longer.steps| - 1] == run.steps;
  }

  /** The caller spawns the sender of `ch`, which does all its steps at once. */
  lemma SendAtOnce(cfg: Channels, acks: Acks, run: Run, s: State, order: seq<Channel>, ch: Channel)
    returns (longer: Run, t: State)
    requires IsRunTo(cfg, acks, run, s, order) && |s.results| < CAPACITY && SenderOf(s, ch).Unspawned?
    requires s.caller == if ch == Discord then SpawnDiscord else SpawnTelegram
    ensures IsRunTo(cfg, acks, longer, t, order + if HasChannel(cfg, ch) then [ch] else [])
    ensures t.caller == (if ch == Discord then SpawnTelegram else Waiting) && |t.results| <= |s.results| + 1
    ensures AtRest(SenderOf(t, ch)) && forall other | other != ch :: SenderOf(t, other) == SenderOf(s, other)
  {
    hide IsRunTo;
    longer := Then(cfg, acks, run, Spawn, s, order);
    t := Apply(cfg, acks, s, Spawn);
    if HasChannel(cfg, ch) {
      longer := Then(cfg, acks, longer, FinishSend(ch), t, order + []);
      t := Apply(cfg, acks, t, FinishSend(ch));
      var report := if Acknowledges(acks, ch) then CountSent(ch) else WriteResult(ch);
      longer := Then(cfg, acks, longer, report, t, order + [] + [ch]);
      t := Apply(cfg, acks, t, report);
      assert order + [] + [ch] + [] == order + [ch];
    }
  }

  lemma SequentialRun(cfg: Channels, acks: Acks) returns (states: seq<State>, steps: seq<Step>)
    ensures IsRun(cfg, acks, states, steps) && states[|steps|].caller.Returned?
    ensures SendOrder(steps) == (if cfg.discord then [Discord] else []) + (if cfg.telegram then [Telegram] else [])
  {
    var run, s := Run([START], []), START;
    run, s := SendAtOnce(cfg, acks, run, s, [], Discord);
    run, s := SendAtOnce(cfg, acks, run, s, SendOrder(run.steps), Telegram);
    ghost var order := SendOrder(run.steps);
    run := Then(cfg, acks, run, Join, s, order);
    s := Apply(cfg, acks, s, Join);
    while s.results != []
      invariant IsRunTo(cfg, acks, run, s, order) && s.caller.Draining?
      decreases |s.results|
    {
      run := Then(cfg, acks, run, Drain, s, order);
      s := Apply(cfg, acks, s, Drain);
    }
    run := Then(cfg, acks, run, Return, s, order);
    states, steps := run.states, run.steps;
  }

  // --- Every interleaving ends ---

  function Work(sender: Sender): nat {
    match sender
    case Unspawned => 4
    case Sending => 3
    case Failed => 2
    case Sent => 1
    case Done => 0
  }

  function CallerWork(caller: Caller): nat {
    match caller
    case SpawnDiscord => 4
    case SpawnTelegram => 3
    case Waiting => 2
    case Draining => 1
    case Returned(_) => 0
  }

  function Measure(s: State): nat {
    Work(s.discord) + Work(s.telegram) + CallerWork(s.caller) + |s.results|
  }

  lemma StepProgress(cfg: Channels, acks: Acks, s: State, step: Step)
    requires Enabled(s, step) && SendersOk(cfg, acks, s)
    ensures Measure(Apply(cfg, acks, s, step)) < Measure(s)
  {
  }

  /** The call never deadlocks: until it has returned, some goroutine can take a step. */
  lemma NoDeadlock(cfg: Channels, acks: Acks, states: seq<State>, steps: seq<Step>, i: nat) returns (step: Step)
    requires IsRun(cfg, acks, states, steps) && i < |states| && !states[i].caller.Returned?
    ensures Enabled(states[i], step)
  {
    var s := states[i];
    RunInv(cfg, acks, states, steps, i);
    if s.caller.SpawnDiscord? || s.caller.SpawnTelegram? {
      step := Spawn;
    } else if s.caller.Draining? {
      step := if s.results == [] then Return else Drain;
    } else if AtRest(s.discord) && AtRest(s.telegram) {
      step := Join;
    } else {
      var ch := if AtRest(s.discord) then Telegram else Discord;
      step := if SenderOf(s, ch).Sending? then FinishSend(ch)
              else if SenderOf(s, ch).Sent? then CountSent(ch)
              else WriteResult(ch);
    }
  }

  /** No interleaving takes more than twelve steps, so with NoDeadlock every call returns. */
  lemma {:induction false} RunsAreShort(cfg: Channels, acks: Acks, states: seq<State>, steps: seq<Step>, i: nat)
    requires IsRun(cfg, acks, states, steps) && i < |states|
    ensures i + Measure(states[i]) <= Measure(START) == 12
  {
    if i > 0 {
      RunsAreShort(cfg, acks, states, steps, i - 1);
      RunInv(cfg, acks, states, steps, i - 1);
      StepProgress(cfg, acks, states[i - 1], steps[i - 1]);
    }
  }
}
