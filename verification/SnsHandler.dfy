/**
 `HandleSNS` (internal/alarmnotifier/handler.go): the loop over the records of one event, and what happens
 when Lambda re-invokes it for as long as it returns an error.
 */
module SnsHandler {
  import opened FanOut
  import AlarmText

  /** What `json.Unmarshal` makes of a message. */
  datatype Message = NotJson | Json(alarm: AlarmText.Alarm)

  datatype Error = NoRecords | ParseFailed(record: nat) | NotifyFailed(record: nat)

  /** One call to a channel for one record. */
  datatype Delivery = Delivery(record: nat, ch: Channel, acknowledged: bool)

  /** ParseAlarmMessage succeeds. */
  predicate Parses(message: Message) {
    message.Json? && message.alarm.alarmName != ""
  }

  function ToUpper(c: char): char {
    if 'a' <= c <= 'z' then (c as int - 32) as char else c
  }

  /** `strings.EqualFold(s, "ALARM")`; none of these letters has a case variant outside ASCII. */
  predicate IsAlarmState(s: string) {
    |s| == 5 && forall i | 0 <= i < 5 :: ToUpper(s[i]) == "ALARM"[i]
  }

  /** The record is passed to Notify. */
  predicate Alerts(message: Message) {
    Parses(message) && IsAlarmState(message.alarm.newStateValue)
  }

  /** A named alarm in the state ALARM, in any mixture of upper and lower case. */
  predicate IsAlarm(message: Message) {
    && message.Json? && message.alarm.alarmName != ""
    && var s := message.alarm.newStateValue;
    && |s| == 5
    && (s[0] == 'A' || s[0] == 'a') && (s[1] == 'L' || s[1] == 'l') && (s[2] == 'A' || s[2] == 'a')
    && (s[3] == 'R' || s[3] == 'r') && (s[4] == 'M' || s[4] == 'm')
  }

  /** Case folding lets through exactly the spellings of ALARM. */
  lemma AlertsExactly(message: Message)
    ensures Alerts(message) <==> IsAlarm(message)
  {
    if Parses(message) && |message.alarm.newStateValue| == 5 {
      var s, folded := message.alarm.newStateValue, "ALARM";
      assert folded[0] == 'A' && folded[1] == 'L' && folded[2] == 'A' && folded[3] == 'R' && folded[4] == 'M';
      assert IsAlarmState(s) <==>
        ToUpper(s[0]) == 'A' && ToUpper(s[1]) == 'L' && ToUpper(s[2]) == 'A' && ToUpper(s[3]) == 'R' && ToUpper(s[4]) == 'M';
    }
  }

  /** The record adds no error: it parses, and if it alerts then some channel acknowledges it. */
  predicate Handled(cfg: Channels, message: Message, acks: Acks) {
    Parses(message) && (Alerts(message) ==> !NotifyFails(cfg, acks))
  }

  /** A record adds an error if it is not a named alarm, or if it is alarming and every channel there is refuses it. */
  lemma HandledExactly(cfg: Channels, message: Message, acks: Acks)
    ensures Handled(cfg, message, acks) <==>
      && message.Json? && message.alarm.alarmName != ""
      && (IsAlarm(message) ==>
        (cfg.discord && acks.discord) || (cfg.telegram && acks.telegram) || (!cfg.discord && !cfg.telegram))
  {
    AlertsExactly(message);
    DeliveredBy(cfg, acks);
  }

  /** With a configuration LoadConfig accepts, an alarming record must be acknowledged by some channel. */
  lemma HandledMeansDelivered(cfg: Channels, message: Message, acks: Acks)
    requires Accepted(cfg)
    ensures Handled(cfg, message, acks) <==>
      && message.Json? && message.alarm.alarmName != ""
      && (IsAlarm(message) ==> Delivered(cfg, acks))
  {
    AlertsExactly(message);
  }

  /** `added` has one call per enabled channel for the record, with the channel's verdict. */
  ghost predicate LoggedFor(cfg: Channels, record: nat, acks: Acks, added: seq<Delivery>) {
    && (forall d :: d in added <==>
      d.record == record && HasChannel(cfg, d.ch) && (d.acknowledged <==> Acknowledges(acks, d.ch)))
    && (forall i, j | 0 <= i < j < |added| :: added[i].ch != added[j].ch)
  }

  /** `added` has exactly these calls for each alerting record among the first `n`, and no other. */
  ghost predicate Logged(cfg: Channels, records: seq<Message>, acks: seq<Acks>, added: seq<Delivery>, n: nat)
    requires n <= |records| == |acks|
  {
    && (forall d :: d in added <==>
      && d.record < n && Alerts(records[d.record]) && HasChannel(cfg, d.ch)
      && (d.acknowledged <==> Acknowledges(acks[d.record], d.ch)))
    && (forall i, j | 0 <= i < j < |added| :: added[i].record != added[j].record || added[i].ch != added[j].ch)
  }

  /** The channel calls a run makes for a record, in their order. */
  function Deliveries(record: nat, acks: Acks, order: seq<Channel>): seq<Delivery> {
    seq(|order|, i requires 0 <= i < |order| => Delivery(record, order[i], Acknowledges(acks, order[i])))
  }

  /** A completed run of Notify that makes these channel calls and has this verdict. */
  ghost predicate Explains(
      cfg: Channels, record: nat, acks: Acks, states: seq<State>, steps: seq<Step>, added: seq<Delivery>, failed: bool) {
    && IsRun(cfg, acks, states, steps) && states[|steps|].caller == FanOut.Returned(failed)
    && added == Deliveries(record, acks, SendOrder(steps))
  }

  ghost predicate Explained(cfg: Channels, record: nat, acks: Acks, added: seq<Delivery>, failed: bool) {
    exists states, steps :: Explains(cfg, record, acks, states, steps, added, failed)
  }

  /** Every completed run, whatever the interleaving, calls each enabled channel once and has the same verdict. */
  lemma AnyRunLogs(
      cfg: Channels, record: nat, acks: Acks, states: seq<State>, steps: seq<Step>, added: seq<Delivery>, failed: bool)
    requires Explains(cfg, record, acks, states, steps, added, failed)
    ensures Explained(cfg, record, acks, added, failed)
    ensures failed <==> NotifyFails(cfg, acks)
    ensures LoggedFor(cfg, record, acks, added)
  {
    VerdictIsFixed(cfg, acks, states, steps, |steps|);
    EachSendsOnce(cfg, acks, states, steps);
    forall d
      ensures d in added <==>
        d.record == record && HasChannel(cfg, d.ch) && (d.acknowledged <==> Acknowledges(acks, d.ch))
    {
      if d.record == record && HasChannel(cfg, d.ch) && (d.acknowledged <==> Acknowledges(acks, d.ch)) {
        var i :| 0 <= i < |SendOrder(steps)| && SendOrder(steps)[i] == d.ch;
        assert added[i] == d;
      }
    }
  }

  /** Exactly the alarms among the records are sent, each to every enabled channel. */
  lemma AlarmsAreSent(cfg: Channels, records: seq<Message>, acks: seq<Acks>, added: seq<Delivery>)
    requires |records| == |acks| && Logged(cfg, records, acks, added, |records|)
    ensures forall d | d in added :: d.record < |records| && IsAlarm(records[d.record])
    ensures forall i, ch | 0 <= i < |records| && IsAlarm(records[i]) && HasChannel(cfg, ch) ::
      Delivery(i, ch, Acknowledges(acks[i], ch)) in added
  {
    forall message: Message
      ensures Alerts(message) <==> IsAlarm(message)
    {
      AlertsExactly(message);
    }
  }

  lemma EmptyLogged(cfg: Channels, records: seq<Message>, acks: seq<Acks>)
    requires |records| == |acks|
    ensures Logged(cfg, records, acks, [], 0)
  {
  }

  lemma ExtendLogged(
      cfg: Channels, records: seq<Message>, acks: seq<Acks>, before: seq<Delivery>, added: seq<Delivery>, i: nat)
    requires i < |records| == |acks| && Logged(cfg, records, acks, before, i)
    requires Alerts(records[i]) && LoggedFor(cfg, i, acks[i], added)
    ensures Logged(cfg, records, acks, before + added, i + 1)
  {
    assert forall d :: d in before + added <==> d in before || d in added;
    assert forall d | d in before :: d.record < i;
    assert forall k | 0 <= k < |before| :: before[k] in before;
    assert forall k | 0 <= k < |added| :: added[k] in added;
  }

  lemma SkipLogged(cfg: Channels, records: seq<Message>, acks: seq<Acks>, before: seq<Delivery>, i: nat)
    requires i < |records| == |acks| && Logged(cfg, records, acks, before, i) && !Alerts(records[i])
    ensures Logged(cfg, records, acks, before, i + 1)
  {
  }

  class Notifier {
    const cfg: Channels
    var log: seq<Delivery>     // every channel call so far

    constructor (cfg: Channels)
      ensures this.cfg == cfg && log == []
    {
      this.cfg, log := cfg, [];
    }

    /** Notify with one channel called after the other, one of the runs that FanOut allows. */
    method Notify(record: nat, acks: Acks) returns (failed: bool)
      modifies this
      ensures failed <==> NotifyFails(cfg, acks)
      ensures old(log) <= log
      ensures LoggedFor(cfg, record, acks, log[|old(log)|..])
      ensures Explained(cfg, record, acks, log[|old(log)|..], failed)
    {
      var errs, sent := 0, 0;
      if cfg.discord {
        log := log + [Delivery(record, Discord, acks.discord)];
        if acks.discord { sent := sent + 1; } else { errs := errs + 1; }
      }
      if cfg.telegram {
        log := log + [Delivery(record, Telegram, acks.telegram)];
        if acks.telegram { sent := sent + 1; } else { errs := errs + 1; }
      }
      failed := errs > 0 && sent == 0;
      DeliveredBy(cfg, acks);
      ghost var states, steps := SequentialRun(cfg, acks);
      VerdictIsFixed(cfg, acks, states, steps, |steps|);
      assert log[|old(log)|..] == Deliveries(record, acks, SendOrder(steps));
      AnyRunLogs(cfg, record, acks, states, steps, log[|old(log)|..], failed);
    }

    /**
     The loop over the records. The returned error joins one entry per record that is not handled, in order,
     and every alerting record is notified, whatever happened to the records before it.
     */
    method HandleSNS(records: seq<Message>, acks: seq<Acks>) returns (errs: seq<Error>)
      requires |acks| == |records|
      modifies this
      ensures records == [] ==> errs == [NoRecords] && log == old(log)
      ensures records != [] ==>
        (errs == [] <==> forall i | 0 <= i < |records| :: Handled(cfg, records[i], acks[i]))
      ensures records != [] ==> forall e :: e in errs <==>
        || (e.ParseFailed? && e.record < |records| && !Parses(records[e.record]))
        || (e.NotifyFailed? && e.record < |records| && Alerts(records[e.record]) && NotifyFails(cfg, acks[e.record]))
      ensures old(log) <= log
      ensures Logged(cfg, records, acks, log[|old(log)|..], |records|)
      ensures forall d | d in log[|old(log)|..] :: d.record < |records| && IsAlarm(records[d.record])
      ensures forall i, ch | 0 <= i < |records| && IsAlarm(records[i]) && HasChannel(cfg, ch) ::
        Delivery(i, ch, Acknowledges(acks[i], ch)) in log[|old(log)|..]
      ensures forall i | 0 <= i < |records| && records[i].Json? && records[i].alarm.alarmName != "" && !IsAlarm(records[i]) ::
        ParseFailed(i) !in errs && NotifyFailed(i) !in errs
    {
      hide NotifyFails, IsAlarmState, ToUpper, Logged, LoggedFor, IsAlarm;
      errs := [];
      EmptyLogged(cfg, records, acks);
      assert log[|old(log)|..] == [];
      if records == [] {
        AlarmsAreSent(cfg, records, acks, []);
        return [NoRecords];
      }
      for i := 0 to |records|
        invariant errs == [] <==> forall k | 0 <= k < i :: Handled(cfg, records[k], acks[k])
        invariant forall e :: e in errs <==>
          || (e.ParseFailed? && e.record < i && !Parses(records[e.record]))
          || (e.NotifyFailed? && e.record < i && Alerts(records[e.record]) && NotifyFails(cfg, acks[e.record]))
        invariant old(log) <= log
        invariant Logged(cfg, records, acks, log[|old(log)|..], i)
      {
        if !Parses(records[i]) {
          errs := errs + [ParseFailed(i)];
          SkipLogged(cfg, records, acks, log[|old(log)|..], i);
          continue;
        }
        if !IsAlarmState(records[i].alarm.newStateValue) {
          SkipLogged(cfg, records, acks, log[|old(log)|..], i);
          continue;
        }
        ghost var before := log;
        var failed := Notify(i, acks[i]);
        assert log[|old(log)|..] == before[|old(log)|..] + log[|before|..];
        ExtendLogged(cfg, records, acks, before[|old(log)|..], log[|before|..], i);
        if failed {
          errs := errs + [NotifyFailed(i)];
        }
      }
      AlarmsAreSent(cfg, records, acks, log[|old(log)|..]);
      forall i | 0 <= i < |records|
        ensures Alerts(records[i]) <==> IsAlarm(records[i])
      {
        AlertsExactly(records[i]);
      }
    }

    /**
     An event with one record, re-invoked while HandleSNS returns an error, at most as often as `worlds`
     has entries. No channel that acknowledged is called again, and an acknowledgement is in the last
     invocation.
     */
    method Redeliver(record: Message, worlds: seq<Acks>) returns (invocations: nat, failing: bool)
      requires Accepted(cfg)
      modifies this
      ensures invocations <= |worlds|
      ensures failing ==> invocations == |worlds|
      ensures old(log) <= log
      ensures forall i, j | |old(log)| <= i < j < |log| && log[i].acknowledged :: log[j].ch != log[i].ch
      ensures forall k | 0 <= k < invocations :: Handled(cfg, record, worlds[k]) <==> k == invocations - 1 && !failing
      ensures forall k | 0 <= k < invocations && IsAlarm(record) && Delivered(cfg, worlds[k]) ::
        k == invocations - 1 && !failing
      ensures IsAlarm(record) && !failing && 0 < invocations ==> Delivered(cfg, worlds[invocations - 1])
    {
      AlertsExactly(record);
      invocations, failing := 0, true;
      while failing && invocations < |worlds|
        invariant invocations <= |worlds|
        invariant old(log) <= log
        invariant !failing ==> 0 < invocations
        invariant failing ==> forall i | |old(log)| <= i < |log| :: !log[i].acknowledged
        invariant forall i, j | |old(log)| <= i < j < |log| && log[i].acknowledged :: log[j].ch != log[i].ch
        invariant forall k | 0 <= k < invocations :: Handled(cfg, record, worlds[k]) <==> k == invocations - 1 && !failing
      {
        ghost var before := log;
        var acks := worlds[invocations];
        invocations := invocations + 1;
        var errs := HandleSNS([record], [acks]);
        failing := errs != [];
        assert !failing <==> Handled(cfg, [record][0], [acks][0]);
        forall i | |before| <= i < |log|
          ensures log[i].acknowledged <==> Acknowledges(acks, log[i].ch)
        {
          assert log[i] == log[|before|..][i - |before|];
        }
      }
    }
  }
}
