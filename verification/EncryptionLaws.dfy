/** What every run of an encryption change keeps, whatever the link does and however often it is retried. */
module EncryptionLaws {
  import opened Wrappers
  import opened Bytes
  import opened Logs
  import opened ConfigBlob
  import opened Thermometers
  import opened Encryption

  /**
   What one call may put on the air, in order: enabling sends one key and, only after the device echoed
   exactly that key, the configuration with the flag newly on; disabling sends at most the configuration
   with the flag newly off.
   */
  ghost predicate WellSent(d: Device, enable: bool, sends: seq<Send>) {
    && |sends| <= 2
    && (forall i | 0 <= i < |sends| :: sends[i].KeySent? || sends[i].ConfigSent?)
    && (forall i | 0 <= i < |sends| && sends[i].KeySent? :: i == 0 && enable)
    && (forall i | 0 <= i < |sends| && sends[i].ConfigSent? ::
          && i == |sends| - 1
          && FlagTwins(sends[i].blob, d.blob) && Encrypts(sends[i].blob) == enable && Encrypts(d.blob) != enable
          && (sends[i].stored == None || sends[i].stored == Some(sends[i].blob)))
    && (enable && sends != [] ==> sends[0].KeySent?)
    && (|sends| == 2 ==> Take(d, sends[0]).key == sends[0].echo == Some(sends[0].key))
  }

  /** The key a call put on the air, if it sent one. */
  function KeySentIn(sends: seq<Send>): Option<Key> {
    if sends != [] && sends[0].KeySent? then Some(sends[0].key) else None
  }

  /** What a verdict says about the sends and the device behind it. */
  ghost predicate Truthful(d: Device, enable: bool, sends: seq<Send>, dev: Device, verdict: Verdict) {
    match verdict
    case Refused(_) => sends == []
    case Unreachable(_) => sends == []
    case NotKept => false
    case Unsure(key) =>
      sends != [] && key == KeySentIn(sends)
    case Done(key, advType, after, afterKey) =>
      && after == dev.blob && FlagTwins(dev.blob, d.blob) && Encrypts(dev.blob) == enable
      && advType == FieldValue(AdvType, d.blob)
      && key == KeySentIn(sends)
      && (if enable then key.Some? && dev.key == afterKey == key else dev.key == d.key)
  }

  /** An attempt either raised with nothing sent, or returned a verdict true of what it sent. */
  ghost predicate AttemptHolds(d: Device, enable: bool, a: Attempt) {
    && (a.Raised? ==> a.dev == d && a.log == [])
    && (a.Returned? ==>
          && a.dev == TakeAll(d, a.log)
          && WellSent(d, enable, a.log)
          && Truthful(d, enable, a.log, a.dev, a.verdict))
  }

  lemma KeyInIsTruthful(r: Reply, key: Option<Key>)
    ensures KeyIn(r, key) == None || KeyIn(r, key) == key
    ensures r == Replies(Full) ==> KeyIn(r, key) == key
  {
    if r.Replies? {
      KeyReplyIsTruthful(r.form, key);
    }
  }

  lemma SendFlagFacts(d: Device, d1: Device, target: Config, enable: bool, key: Option<Key>, log: seq<Send>, l: Link)
    requires l.Connected? && d1.blob == d.blob && d1.fw == d.fw && d1.repeater == d.repeater
    requires FlagTwins(target, d.blob) && Encrypts(target) == enable
    requires target == d.blob <==> Encrypts(d.blob) == enable
    requires enable ==>
               && key.Some? && |log| == 1 && log[0].KeySent? && log[0].key == key.value && log[0].echo == key
               && d1.key == key
    requires !enable ==> key == None && log == [] && d1.key == d.key
    requires d1 == TakeAll(d, log)
    ensures AttemptHolds(d, enable, SendFlag(d1, target, enable, key, log, l, FieldValue(AdvType, d.blob)))
  {
    hide FlagTwins, Encrypts, KeyIn, FieldValue;
    var flag := ConfigSent(target, if l.flagLands then Some(target) else None);
    TakeAllConcat(d, log, [flag]);
    KeyInIsTruthful(l.keyBack, d1.key);
    assert TakeAll(d1, [flag]) == Take(d1, flag);
  }

  lemma AttemptFacts(d: Device, enable: bool, want: Option<Key>, l: Link)
    ensures AttemptHolds(d, enable, TryOnce(d, enable, want, l))
  {
    hide FlagTwins, Encrypts, KeyIn, FieldValue, SendFlag, WithAdvCrypto;
    SetFlag(d.blob, enable, d.fw);
    if l.Connected? && !d.repeater && l.answers && HasEncryption(d.fw) {
      var target := WithAdvCrypto(d.blob, enable, d.fw).value;
      if !enable {
        SendFlagFacts(d, d, target, enable, None, [], l);
      } else if ChooseKey(d, want, l).Some? {
        var key := ChooseKey(d, want, l).value;
        var d1 := if l.keyLands then d.(key := Some(key)) else d;
        KeyInIsTruthful(l.keyReply, d1.key);
        var sent := KeySent(key, l.keyLands, KeyIn(l.keyReply, d1.key));
        assert TakeAll(d, [sent]) == TakeAll(Take(d, sent), []) == d1;
        if sent.echo == Some(key) {
          SendFlagFacts(d, d1, target, enable, Some(key), [sent], l);
        }
      }
    }
  }

  // ----- whole runs

  /** Every attempt but the last sent nothing, and the verdict is true of everything that was sent. */
  ghost predicate RunHolds(d: Device, enable: bool, run: Run) {
    && (forall i | 0 <= i < |run.log| - 1 :: run.log[i] == [])
    && run.dev == TakeAll(d, Flat(run.log))
    && WellSent(d, enable, Flat(run.log))
    && Truthful(d, enable, Flat(run.log), run.dev, run.verdict)
  }

  lemma FlatOne(sends: seq<Send>)
    ensures Flat([sends]) == sends
  {
    assert [sends][1..] == [];
    assert sends + [] == sends;
  }

  lemma {:induction false} RetryHolds(d: Device, enable: bool, want: Option<Key>, links: seq<Link>, last: Failure)
    ensures RunHolds(d, enable, Retry(d, enable, want, links, last))
    ensures |Retry(d, enable, want, links, last).log| <= |links|
    decreases |links|
  {
    hide TryOnce, FlagTwins, Encrypts, FieldValue;
    if links != [] {
      AttemptFacts(d, enable, want, links[0]);
      var first := TryOnce(d, enable, want, links[0]);
      if first.Returned? {
        FlatOne(first.log);
      } else {
        RetryHolds(d, enable, want, links[1..], FailureOf(links[0]));
        var rest := Retry(d, enable, want, links[1..], FailureOf(links[0]));
        var log := [[]] + rest.log;
        assert log[1..] == rest.log && [] + Flat(rest.log) == Flat(rest.log);
      }
    }
  }

  lemma CallHolds(d: Device, enable: bool, text: string, links: seq<Link>)
    ensures RunHolds(d, enable, SetEncryption(d, enable, text, links))
  {
    hide Retry, ParseBindKey, FlagTwins, Encrypts, FieldValue, WellSent;
    RetryHolds(d, enable, None, links, NoAttempt);
    if ParseBindKey(text).Some? {
      RetryHolds(d, enable, ParseBindKey(text), links, NoAttempt);
    }
    assert WellSent(d, enable, []) by { NothingIsWellSent(d, enable); }
  }

  lemma NothingIsWellSent(d: Device, enable: bool)
    ensures WellSent(d, enable, [])
  {}

  /**
   However often a call is retried and whatever the link does, only its last attempt can have sent
   anything, so at most one key and at most one configuration go out in the whole call.
   */
  lemma OnlyOneAttemptSends(d: Device, enable: bool, text: string, links: seq<Link>)
    ensures var log := SetEncryption(d, enable, text, links).log;
            && (forall i | 0 <= i < |log| - 1 :: log[i] == [])
            && (forall i, j | 0 <= i < |Flat(log)| && 0 <= j < |Flat(log)| && Flat(log)[i].KeySent?
               && Flat(log)[j].KeySent? :: i == j)
            && (forall i, j | 0 <= i < |Flat(log)| && 0 <= j < |Flat(log)| && Flat(log)[i].ConfigSent?
               && Flat(log)[j].ConfigSent? :: i == j)
  {
    hide SetEncryption, FlagTwins, Encrypts, Truthful;
    CallHolds(d, enable, text, links);
  }

  /**
   The verdict is exact. Done: the device's flag is as asked and, when enabling, its key is the reported
   one. Unsure: something was sent, and it reports the key that was sent. Any other verdict: nothing was
   sent and the device is as it was. The "did not keep the setting" verdict never arises.
   */
  lemma VerdictIsExact(d: Device, enable: bool, text: string, links: seq<Link>)
    ensures var run := SetEncryption(d, enable, text, links);
            && (run.verdict.Done? ==>
                  && Encrypts(run.dev.blob) == enable && run.verdict.after == run.dev.blob
                  && run.verdict.key.Some? == enable
                  && (enable ==> run.dev.key == run.verdict.key))
            && (run.verdict.Unsure? ==> Flat(run.log) != [] && run.verdict.sentKey == KeySentIn(Flat(run.log)))
            && (!run.verdict.Done? && !run.verdict.Unsure? ==> Flat(run.log) == [] && run.dev == d)
            && !run.verdict.NotKept?
  {
    hide SetEncryption, FlagTwins, Encrypts, FieldValue;
    CallHolds(d, enable, text, links);
  }

  /** The key a verdict reports to the user. */
  function ReportedKey(v: Verdict): Option<Key> {
    match v
    case Unsure(key) => key
    case Done(key, _, _, _) => key
    case _ => None
  }

  lemma ShortPrefixes(d: Device, sends: seq<Send>, n: nat)
    requires n <= |sends| && n <= 2
    ensures TakeAll(d, sends[..n]) ==
            if n == 0 then d else if n == 1 then Take(d, sends[0]) else Take(Take(d, sends[0]), sends[1])
  {
    if n == 1 {
      assert sends[..1] == [sends[0]] && [sends[0]][1..] == [];
    } else if n == 2 {
      assert sends[..2] == [sends[0], sends[1]] && [sends[0], sends[1]][1..] == [sends[1]] && [sends[1]][1..] == [];
      assert TakeAll(Take(d, sends[0]), [sends[1]]) == Take(Take(d, sends[0]), sends[1]);
    }
  }

  lemma WellSentKeys(d: Device, enable: bool, sends: seq<Send>, n: nat)
    requires WellSent(d, enable, sends) && n <= |sends|
    ensures TakeAll(d, sends[..n]).key == d.key || TakeAll(d, sends[..n]).key == KeySentIn(sends)
    ensures enable && sends != [] ==> KeySentIn(sends).Some?
    ensures !enable ==> KeySentIn(sends) == None && TakeAll(d, sends[..n]).key == d.key
  {
    hide FlagTwins, Encrypts;
    if sends != [] {
      assert sends[0].KeySent? || sends[0].ConfigSent?;
    }
    if |sends| == 2 {
      assert sends[0].KeySent? && sends[1].ConfigSent?;
    }
    ShortPrefixes(d, sends, n);
  }

  /** No key is lost: the device's key is the one it had or the one in the result, and disabling leaves it. */
  lemma NoKeyIsLost(d: Device, enable: bool, text: string, links: seq<Link>)
    ensures var run := SetEncryption(d, enable, text, links);
            && (run.dev.key != d.key ==> enable && run.dev.key.Some? && run.dev.key == ReportedKey(run.verdict))
  {
    hide SetEncryption, FlagTwins, Encrypts, FieldValue;
    CallHolds(d, enable, text, links);
    var run := SetEncryption(d, enable, text, links);
    var sends := Flat(run.log);
    assert sends[..|sends|] == sends;
    WellSentKeys(d, enable, sends, |sends|);
  }

  lemma WellSentStates(d: Device, enable: bool, sends: seq<Send>, n: nat)
    requires WellSent(d, enable, sends) && n <= |sends|
    ensures var s := TakeAll(d, sends[..n]);
            && s.fw == d.fw && s.repeater == d.repeater
            && FlagTwins(s.blob, d.blob)
            && (Encrypts(s.blob) == Encrypts(d.blob) || Encrypts(s.blob) == enable)
            && (Encrypts(s.blob) && !Encrypts(d.blob) ==> enable && s.key.Some? && s.key == KeySentIn(sends))
  {
    hide Encrypts;
    assert FlagTwins(d.blob, d.blob) by {
      assert d.blob[1 := d.blob[1]] == d.blob;
    }
    ShortPrefixes(d, sends, n);
  }

  /**
   Through every intermediate state of every run the configuration is the initial one but for the flag,
   and a device that encrypts without having done so before does it under the key that is reported.
   */
  lemma EveryStateIsSafe(d: Device, enable: bool, text: string, links: seq<Link>, n: nat)
    requires n <= |Flat(SetEncryption(d, enable, text, links).log)|
    ensures var run := SetEncryption(d, enable, text, links);
            var s := TakeAll(d, Flat(run.log)[..n]);
            && FlagTwins(s.blob, d.blob)
            && (s.key == d.key || (enable && s.key == ReportedKey(run.verdict)))
            && (Encrypts(s.blob) && !Encrypts(d.blob) ==> enable && s.key.Some? && s.key == ReportedKey(run.verdict))
  {
    hide SetEncryption, FlagTwins, Encrypts, FieldValue;
    CallHolds(d, enable, text, links);
    var sends := Flat(SetEncryption(d, enable, text, links).log);
    WellSentStates(d, enable, sends, n);
    WellSentKeys(d, enable, sends, n);
  }

  /** The flag goes newly on only after the device itself echoed the key that goes with it. */
  lemma FlagFollowsEcho(d: Device, enable: bool, text: string, links: seq<Link>, n: nat)
    requires var sends := Flat(SetEncryption(d, enable, text, links).log);
             n < |sends| && sends[n].ConfigSent? && Encrypts(sends[n].blob)
    ensures var sends := Flat(SetEncryption(d, enable, text, links).log);
            && enable && n == 1 && sends[0].KeySent?
            && sends[0].echo == Some(sends[0].key) == TakeAll(d, sends[..1]).key
            && !Encrypts(d.blob) && FlagTwins(sends[1].blob, d.blob)
  {
    hide SetEncryption, FlagTwins, Encrypts, FieldValue;
    CallHolds(d, enable, text, links);
    var sends := Flat(SetEncryption(d, enable, text, links).log);
    ShortPrefixes(d, sends, 1);
  }

  // ----- running the same call again

  /** Every write lands, every await succeeds, and the replies to the writes arrive in full. */
  predicate Undisturbed(l: Link) {
    && l.Connected? && l.answers && l.query.Replies? && l.keyReply == l.keyBack == Replies(Full)
    && l.keyLands && l.flagLands && !l.flagRaises && l.readsBack
  }

  predicate FaultFree(l: Link) {
    Undisturbed(l) && l.query == Replies(Full)
  }

  /** The key a fault-free enable leaves on a device. */
  function SettledKey(d: Device, want: Option<Key>, drawn: Key): Option<Key> {
    if want.Some? then want
    else if Encrypts(d.blob) && d.key.Some? then d.key
    else Some(drawn)
  }

  lemma FaultFreeKey(d: Device, want: Option<Key>, l: Link)
    requires FaultFree(l)
    ensures ChooseKey(d, want, l) == SettledKey(d, want, l.drawn)
  {
    hide KeyIn, Encrypts;
    KeyInIsTruthful(l.query, d.key);
  }

  lemma UndisturbedAttempt(d: Device, enable: bool, want: Option<Key>, l: Link)
    requires Undisturbed(l) && !d.repeater && HasEncryption(d.fw)
    ensures var a := TryOnce(d, enable, want, l);
            && a.Returned? && a.verdict.Done?
            && a.dev.fw == d.fw && a.dev.repeater == d.repeater
            && FlagTwins(a.dev.blob, d.blob) && Encrypts(a.dev.blob) == enable
            && a.dev.key == (if enable then ChooseKey(d, want, l) else d.key)
            && a.verdict.key == (if enable then a.dev.key else None)
            && a.verdict.advType == FieldValue(AdvType, d.blob)
  {
    hide FlagTwins, Encrypts, KeyIn, FieldValue, WithAdvCrypto, ChooseKey;
    SetFlag(d.blob, enable, d.fw);
    assert ChooseKey(d, want, l).Some? by { ChoosesSomeKey(d, want, l); }
    var key := ChooseKey(d, want, l);
    KeyInIsTruthful(l.keyReply, key);
    KeyInIsTruthful(l.keyBack, key);
    KeyInIsTruthful(l.keyBack, d.key);
    if Encrypts(d.blob) == enable {
      assert WithAdvCrypto(d.blob, enable, d.fw).value == d.blob;
    }
  }

  lemma ChoosesSomeKey(d: Device, want: Option<Key>, l: Link)
    requires l.Connected? && l.query.Replies?
    ensures ChooseKey(d, want, l).Some?
  {}

  lemma UndisturbedCall(d: Device, enable: bool, text: string, l: Link)
    requires Undisturbed(l) && !d.repeater && HasEncryption(d.fw)
    requires text == "" || ParseBindKey(text).Some?
    ensures var run := SetEncryption(d, enable, text, [l]);
            && run.verdict.Done? && Encrypts(run.dev.blob) == enable && FlagTwins(run.dev.blob, d.blob)
            && run.dev.fw == d.fw && run.dev.repeater == d.repeater
            && run.dev.key == (if enable then ChooseKey(d, ParseBindKeyOrNone(text), l) else d.key)
            && run.verdict.key == (if enable then run.dev.key else None)
            && run.verdict.advType == FieldValue(AdvType, d.blob)
  {
    hide FlagTwins, Encrypts, TryOnce, ParseBindKey, ChooseKey, FieldValue;
    UndisturbedAttempt(d, enable, ParseBindKeyOrNone(text), l);
  }

  function ParseBindKeyOrNone(text: string): Option<Key> {
    if text == "" then None else ParseBindKey(text)
  }

  lemma InterruptedIsSameKind(d: Device, enable: bool, text: string, links: seq<Link>)
    ensures var dev := SetEncryption(d, enable, text, links).dev;
            dev.fw == d.fw && dev.repeater == d.repeater && FlagTwins(dev.blob, d.blob)
  {
    hide SetEncryption, FlagTwins, Encrypts;
    CallHolds(d, enable, text, links);
    var sends := Flat(SetEncryption(d, enable, text, links).log);
    assert sends[..|sends|] == sends;
    WellSentStates(d, enable, sends, |sends|);
  }

  /**
   Convergence: whatever a call left behind, running the same call once more over an undisturbed link
   finishes it, a device that already encrypts keeps its key when none was given, and a further
   undisturbed run changes nothing.
   */
  lemma RerunFinishes(d: Device, enable: bool, text: string, links: seq<Link>, l: Link, m: Link)
    requires FaultFree(l) && FaultFree(m) && !d.repeater && HasEncryption(d.fw)
    requires text == "" || ParseBindKey(text).Some?
    ensures var left := SetEncryption(d, enable, text, links).dev;
            var second := SetEncryption(left, enable, text, [l]);
            var third := SetEncryption(second.dev, enable, text, [m]);
            && second.verdict.Done? && Encrypts(second.dev.blob) == enable && FlagTwins(second.dev.blob, d.blob)
            && (enable && text == "" && Encrypts(left.blob) && left.key.Some? ==> second.dev.key == left.key)
            && third.verdict.Done? && third.dev == second.dev
  {
    hide SetEncryption, FlagTwins, Encrypts, ParseBindKey;
    InterruptedIsSameKind(d, enable, text, links);
    var left := SetEncryption(d, enable, text, links).dev;
    UndisturbedCall(left, enable, text, l);
    FaultFreeKey(left, ParseBindKeyOrNone(text), l);
    var second := SetEncryption(left, enable, text, [l]);
    UndisturbedCall(second.dev, enable, text, m);
    FaultFreeKey(second.dev, ParseBindKeyOrNone(text), m);
    var third := SetEncryption(second.dev, enable, text, [m]);
    TwinsTransitive(second.dev.blob, left.blob, d.blob);
    TwinsWithSameFlag(third.dev.blob, second.dev.blob);
  }

  /**
   The key an unsure enable reported is the key an undisturbed rerun ends with, whenever the first run
   switched the flag on: the user never has to enter a second key.
   */
  lemma RerunKeepsReportedKey(d: Device, links: seq<Link>, l: Link)
    requires FaultFree(l) && !d.repeater && HasEncryption(d.fw) && !Encrypts(d.blob)
    requires var first := SetEncryption(d, true, "", links); first.verdict.Unsure? && Encrypts(first.dev.blob)
    ensures var first := SetEncryption(d, true, "", links);
            var second := SetEncryption(first.dev, true, "", [l]);
            second.verdict.Done? && second.verdict.key == first.verdict.sentKey == second.dev.key
  {
    hide SetEncryption, FlagTwins, Encrypts;
    var first := SetEncryption(d, true, "", links);
    InterruptedIsSameKind(d, true, "", links);
    var n := |Flat(first.log)|;
    CallHolds(d, true, "", links);
    assert Flat(first.log)[..n] == Flat(first.log);
    EveryStateIsSafe(d, true, "", links, n);
    UndisturbedCall(first.dev, true, "", l);
    FaultFreeKey(first.dev, None, l);
  }
}
