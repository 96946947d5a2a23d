/**
 What a restore keeps: the target's flag and, for a clone, its key; what can be put back afterwards; and what
 the report of each part is worth.
 */
module RestoreLaws {
  import opened Wrappers
  import opened Bytes
  import opened Logs
  import opened ConfigBlob
  import opened ConfigLaws
  import opened Thermometers
  import opened Restore

  // ----- what a restore never does

  /** Every configuration sent carries the target's own flag, and a key is sent only if asked for, to its own device. */
  ghost predicate Considerate(d: Device, o: Order, sends: seq<Send>) {
    forall i | 0 <= i < |sends| ::
      && (sends[i].ConfigSent? ==>
            && o.config.Some? && sends[i].blob == WithOwnFlag(o.config.value, d.blob)
            && (sends[i].stored == None || sends[i].stored == Some(sends[i].blob)))
      && (sends[i].KeySent? ==> o.keyAsked && !o.clone && o.key == Some(sends[i].key))
  }

  /** The same device, but for the hardware byte. */
  ghost predicate Near(a: Device, b: Device) {
    a.repeater == b.repeater && a.fw == b.fw && a.key == b.key && SameConfig(a.blob, b.blob)
  }

  /** The states an attempt can leave the target in. */
  ghost predicate Within(d: Device, o: Order, dev: Device) {
    && dev.repeater == d.repeater && dev.fw == d.fw
    && (SameConfig(dev.blob, d.blob)
        || (o.config.Some? && SameConfig(dev.blob, WithOwnFlag(o.config.value, d.blob))))
    && (dev.key == d.key || (o.keyAsked && !o.clone && o.key.Some? && dev.key == o.key))
  }

  ghost predicate OnTrack(d: Device, o: Order, p: Progress) {
    Considerate(d, o, p.log) && Near(p.dev, TakeAll(d, p.log)) && Within(d, o, p.dev)
  }

  lemma NearTransitive(a: Device, b: Device, c: Device)
    requires Near(a, b) && Near(b, c)
    ensures Near(a, c)
  {}

  lemma ShownIsNear(d: Device, hw: Byte)
    ensures Near(Shown(d, hw), d)
  {}

  lemma NearTake(a: Device, b: Device, s: Send)
    requires Near(a, b)
    ensures Near(Take(a, s), Take(b, s))
  {}

  lemma {:induction false} NearTakeAll(a: Device, b: Device, sends: seq<Send>)
    requires Near(a, b)
    ensures Near(TakeAll(a, sends), TakeAll(b, sends))
    decreases |sends|
  {
    hide Near;
    if sends != [] {
      NearTake(a, b, sends[0]);
      NearTakeAll(Take(a, sends[0]), Take(b, sends[0]), sends[1..]);
    }
  }

  /** The flag does not lie in the hardware byte. */
  lemma SameFlag(config: Config, a: Config, b: Config)
    requires SameConfig(a, b)
    ensures Encrypts(a) == Encrypts(b) && WithOwnFlag(config, a) == WithOwnFlag(config, b)
  {
    hide WithAdvCrypto;
    assert a[1] == b[1];
  }

  lemma TakeOneMore(d: Device, sends: seq<Send>, s: Send)
    ensures TakeAll(d, sends + [s]) == Take(TakeAll(d, sends), s)
  {
    TakeAllConcat(d, sends, [s]);
    assert TakeAll(TakeAll(d, sends), [s]) == TakeAll(Take(TakeAll(d, sends), s), [s][1..]);
    assert [s][1..] == [];
  }

  lemma ConfigKeepsTrack(d: Device, o: Order, p: Progress, l: Link)
    requires l.Connected? && OnTrack(d, o, p)
    ensures OnTrack(d, o, DoConfig(p, o, SeenBefore(d, l), l))
  {
    hide WithOwnFlag, KeyIn, ConfigWrite.Verifies, SameConfig, Considerate, Within, Near;
    if p.Going? && o.config.Some? && l.seesBefore {
      ConfigIsOwn(d, o, l);
      var blob := WithOwnFlag(o.config.value, d.blob);
      var sent := ConfigSent(blob, if l.configLands then Some(blob) else None);
      ConfigIsWithin(d, o, p.dev, l);
      OneMoreIsConsiderate(d, o, p.log, sent);
      TakeOneMore(d, p.log, sent);
      NearTake(p.dev, TakeAll(d, p.log), sent);
      var dev := Take(p.dev, sent);
      ShownIsNear(dev, l.hwAfter);
      NearTransitive(Shown(dev, l.hwAfter), dev, TakeAll(d, p.log + [sent]));
    }
  }

  lemma ConfigIsOwn(d: Device, o: Order, l: Link)
    requires l.Connected? && o.config.Some? && l.seesBefore
    ensures WithOwnFlag(o.config.value, SeenBefore(d, l).value.blob) == WithOwnFlag(o.config.value, d.blob)
  {
    hide WithOwnFlag, KeyIn;
    SameFlag(o.config.value, Shown(d, l.hw).blob, d.blob);
  }

  lemma OneMoreIsConsiderate(d: Device, o: Order, sends: seq<Send>, s: Send)
    requires Considerate(d, o, sends) && Considerate(d, o, [s])
    ensures Considerate(d, o, sends + [s])
  {
    hide WithOwnFlag;
    assert [s][0] == s;
  }

  lemma ConfigIsWithin(d: Device, o: Order, dev: Device, l: Link)
    requires l.Connected? && o.config.Some? && Within(d, o, dev)
    ensures var w := WithOwnFlag(o.config.value, d.blob);
            var left := if l.configLands then dev.(blob := w) else dev;
            Within(d, o, left) && Within(d, o, Shown(left, l.hwAfter))
              && Considerate(d, o, [ConfigSent(w, if l.configLands then Some(w) else None)])
  {
    hide WithOwnFlag;
  }

  lemma SettingKeepsTrack(d: Device, o: Order, p: Progress, asked: bool, part: Part, setting: Setting, r: CmdResult)
    requires OnTrack(d, o, p)
    ensures OnTrack(d, o, DoSetting(p, asked, part, setting, r))
  {
    hide WithOwnFlag, SameConfig;
    if p.Going? {
      TakeOneMore(d, p.log, SettingSent(setting));
    }
  }

  lemma KeyKeepsTrack(d: Device, o: Order, p: Progress, l: Link)
    requires l.Connected? && OnTrack(d, o, p)
    ensures OnTrack(d, o, DoKey(p, o, l))
  {
    hide WithOwnFlag, KeyIn, SameConfig;
    if p.Going? && o.key.Some? {
      var dev := if l.keyLands then p.dev.(key := o.key) else p.dev;
      TakeOneMore(d, p.log, KeySent(o.key.value, l.keyLands, KeyIn(l.keyReply, dev.key)));
    }
  }

  lemma AttemptKeepsTrack(d: Device, o: Order, l: Link)
    ensures var a := TryRestore(d, o, l);
            && Considerate(d, o, a.log) && Near(a.dev, TakeAll(d, a.log)) && Within(d, o, a.dev)
            && (d.repeater ==> a.log == [])
  {
    if l.Connected? && !d.repeater {
      var p0 := Going(Shown(d, l.hw), [], map[]);
      assert OnTrack(d, o, p0);
      hide DoConfig, DoSetting, DoKey, WithOwnFlag, SeenBefore, Near, Within, Considerate;
      ConfigKeepsTrack(d, o, p0, l);
      var p1 := DoConfig(p0, o, SeenBefore(d, l), l);
      SettingKeepsTrack(d, o, p1, o.name, NamePart, DeviceName, l.name);
      var p2 := DoSetting(p1, o.name, NamePart, DeviceName, l.name);
      SettingKeepsTrack(d, o, p2, o.comfort, ComfortPart, Comfort, l.comfort);
      var p3 := DoSetting(p2, o.comfort, ComfortPart, Comfort, l.comfort);
      KeyKeepsTrack(d, o, p3, l);
      var p4 := DoKey(p3, o, l);
      SettingKeepsTrack(d, o, p4, o.sensor, SensorPart, Sensor, l.sensor);
    }
  }

  /** The flag a configuration gets is the target's, and putting it in twice changes nothing more. */
  lemma OwnFlag(config: Config, target: Config)
    ensures Encrypts(WithOwnFlag(config, target)) == Encrypts(target)
    ensures FlagTwins(WithOwnFlag(config, target), config)
    ensures WithOwnFlag(config, WithOwnFlag(config, target)) == WithOwnFlag(config, target)
    ensures Encrypts(config) == Encrypts(target) ==> WithOwnFlag(config, target) == config
  {
    hide WithAdvCrypto, Encrypts, FlagTwins;
    SetFlag(config, Encrypts(target), 0);
  }

  lemma OwnFlagAfter(d: Device, o: Order, dev: Device)
    requires o.config.Some? && Within(d, o, dev)
    ensures WithOwnFlag(o.config.value, dev.blob) == WithOwnFlag(o.config.value, d.blob)
    ensures Encrypts(dev.blob) == Encrypts(d.blob)
  {
    hide WithOwnFlag, Encrypts;
    var w := WithOwnFlag(o.config.value, d.blob);
    OwnFlag(o.config.value, d.blob);
    if SameConfig(dev.blob, d.blob) {
      SameFlag(o.config.value, dev.blob, d.blob);
    } else {
      SameFlag(o.config.value, dev.blob, w);
    }
  }

  lemma WithinTwice(d: Device, o: Order, middle: Device, dev: Device)
    requires Within(d, o, middle) && Within(middle, o, dev)
    ensures Within(d, o, dev)
  {
    hide WithOwnFlag;
    if o.config.Some? {
      OwnFlagAfter(d, o, middle);
    }
  }

  lemma ConsiderateTwice(d: Device, o: Order, middle: Device, first: seq<Send>, rest: seq<Send>)
    requires Within(d, o, middle) && Considerate(d, o, first) && Considerate(middle, o, rest)
    ensures Considerate(d, o, first + rest)
  {
    hide WithOwnFlag, SameConfig;
    if o.config.Some? {
      OwnFlagAfter(d, o, middle);
    }
  }

  lemma {:induction false} RetryKeepsTrack(d: Device, o: Order, links: seq<Link>, last: Failure)
    ensures var run := Retry(d, o, links, last);
            && Considerate(d, o, Flat(run.log)) && Near(run.dev, TakeAll(d, Flat(run.log))) && Within(d, o, run.dev)
            && (d.repeater ==> Flat(run.log) == [])
    decreases |links|
  {
    hide TryRestore, Within, Considerate, Near;
    if links != [] {
      AttemptKeepsTrack(d, o, links[0]);
      var a := TryRestore(d, o, links[0]);
      if a.Returned? {
        assert [a.log][1..] == [] && a.log + [] == a.log;
      } else {
        RetryKeepsTrack(a.dev, o, links[1..], FailureOf(links[0]));
        var rest := Retry(a.dev, o, links[1..], FailureOf(links[0]));
        assert ([a.log] + rest.log)[1..] == rest.log;
        ConsiderateTwice(d, o, a.dev, a.log, Flat(rest.log));
        WithinTwice(d, o, a.dev, rest.dev);
        TakeAllConcat(d, a.log, Flat(rest.log));
        NearTakeAll(a.dev, TakeAll(d, a.log), Flat(rest.log));
        NearTransitive(rest.dev, TakeAll(a.dev, Flat(rest.log)), TakeAll(d, a.log + Flat(rest.log)));
        assert d.repeater == a.dev.repeater by { WithinIsSameKind(d, o, a.dev); }
      }
    } else {
      NothingIsWithin(d, o);
    }
  }

  lemma NothingIsWithin(d: Device, o: Order)
    ensures Within(d, o, d) && Considerate(d, o, []) && Near(d, d)
  {}

  lemma WithinIsSameKind(d: Device, o: Order, dev: Device)
    requires Within(d, o, dev)
    ensures dev.repeater == d.repeater
  {}

  lemma {:induction false} ConsiderateStates(d: Device, o: Order, sends: seq<Send>, n: nat)
    requires Considerate(d, o, sends) && n <= |sends|
    ensures Within(d, o, TakeAll(d, sends[..n]))
  {
    hide WithOwnFlag;
    if n > 0 {
      ConsiderateStates(d, o, sends, n - 1);
      assert sends[..n] == sends[..n - 1] + [sends[n - 1]];
      TakeOneMore(d, sends[..n - 1], sends[n - 1]);
    }
  }

  /**
   Whatever the snapshot, the parts asked for, the link and the number of retries: every configuration
   sent carries the target's own flag and the flag stays what it was through every intermediate state; a
   clone sends no key and leaves the target's; a repeater is sent nothing. What is sent is all that changes
   the target, but for the hardware byte.
   */
  lemma RestoreIsConsiderate(d: Device, mac: string, snap: Snapshot, parts: set<Part>, links: seq<Link>, n: nat)
    requires snap.kind == ThermometerKind
    requires n <= |Flat(RestoreSnapshot(d, mac, snap, parts, links).log)|
    ensures var sends := Flat(RestoreSnapshot(d, mac, snap, parts, links).log);
            && Encrypts(TakeAll(d, sends[..n]).blob) == Encrypts(d.blob)
            && (forall i | 0 <= i < |sends| && sends[i].ConfigSent? :: Encrypts(sends[i].blob) == Encrypts(d.blob))
            && (Upper(snap.mac) != Upper(mac) ==>
                  TakeAll(d, sends[..n]).key == d.key && forall i | 0 <= i < |sends| :: !sends[i].KeySent?)
            && (d.repeater ==> sends == [])
    ensures var run := RestoreSnapshot(d, mac, snap, parts, links); Near(run.dev, TakeAll(d, Flat(run.log)))
  {
    hide Retry, Encrypts, WithOwnFlag, SnapshotConfig, SnapshotKey;
    var o := OrderOf(mac, snap, parts);
    RetryKeepsTrack(d, o, links, NoAttempt);
    NothingIsWithin(d, o);
    var sends := Flat(RestoreSnapshot(d, mac, snap, parts, links).log);
    assert Considerate(d, o, sends);
    ConsiderateStates(d, o, sends, n);
    if o.config.Some? {
      OwnFlag(o.config.value, d.blob);
      OwnFlagAfter(d, o, TakeAll(d, sends[..n]));
    } else {
      SameFlag(d.blob, TakeAll(d, sends[..n]).blob, d.blob);
    }
  }

  /** A repeater snapshot sends nothing to a thermometer, and never claims to have restored anything. */
  lemma {:induction false} RepeaterSnapshotIsRefused(d: Device, links: seq<Link>, rediscovered: bool, last: Failure)
    requires !d.repeater
    ensures var run := RefuseRepeaterSnapshot(d, links, rediscovered, last);
            run.dev == d && Flat(run.log) == [] && !run.verdict.Restored?
    decreases |links|
  {
    if links != [] {
      var one: seq<seq<Send>> := [[]];
      assert one[1..] == [];
      var onward := rediscovered || links[0].Connected?;
      var failure := if links[0].Connected? then last else FailureOf(links[0]);
      RepeaterSnapshotIsRefused(d, links[1..], onward, failure);
      var rest := RefuseRepeaterSnapshot(d, links[1..], onward, failure);
      assert ([[]] + rest.log)[1..] == rest.log;
    }
  }

  // ----- undoing a restore with the state it captured

  /** A restore that got through and knows what the target held before. */
  predicate Captured(run: Run) {
    run.verdict.Restored? && run.verdict.before.Some?
  }

  /** Whether one of these sends put a configuration on the device. */
  predicate ConfigLanded(sends: seq<Send>) {
    exists i | 0 <= i < |sends| :: sends[i].ConfigSent? && sends[i].stored.Some?
  }

  lemma {:induction false} BlobAfterSends(d: Device, o: Order, sends: seq<Send>)
    requires Considerate(d, o, sends)
    ensures TakeAll(d, sends).blob ==
            if ConfigLanded(sends) then WithOwnFlag(o.config.value, d.blob) else d.blob
    decreases |sends|
  {
    hide WithOwnFlag;
    if sends != [] {
      var init, last := sends[..|sends| - 1], sends[|sends| - 1];
      assert sends == init + [last];
      BlobAfterSends(d, o, init);
      TakeOneMore(d, init, last);
      if ConfigLanded(init) {
        var i :| 0 <= i < |init| && init[i].ConfigSent? && init[i].stored.Some?;
        assert sends[i] == init[i];
      }
      if ConfigLanded(sends) {
        var i :| 0 <= i < |sends| && sends[i].ConfigSent? && sends[i].stored.Some?;
        assert i < |init| ==> init[i] == sends[i];
      }
    }
  }

  lemma {:induction false} CapturedBeforeLastAttempt(d: Device, o: Order, links: seq<Link>, last: Failure)
    requires Captured(Retry(d, o, links, last))
    ensures var run := Retry(d, o, links, last);
            && run.log != []
            && Considerate(d, o, Flat(run.log[..|run.log| - 1]))
            && SameConfig(run.verdict.before.value.blob, TakeAll(d, Flat(run.log[..|run.log| - 1])).blob)
    decreases |links|
  {
    hide AllParts, Considerate, Within, KeyIn;
    AttemptKeepsTrack(d, o, links[0]);
    var a := TryRestore(d, o, links[0]);
    var run := Retry(d, o, links, last);
    if a.Returned? {
      assert run.log[..0] == [];
      NothingIsWithin(d, o);
    } else {
      CapturedBeforeLastAttempt(a.dev, o, links[1..], FailureOf(links[0]));
      var rest := Retry(a.dev, o, links[1..], FailureOf(links[0]));
      var early := rest.log[..|rest.log| - 1];
      assert run.log[..|run.log| - 1] == [a.log] + early && ([a.log] + early)[1..] == early;
      ConsiderateTwice(d, o, a.dev, a.log, Flat(early));
      TakeAllConcat(d, a.log, Flat(early));
      NearTakeAll(a.dev, TakeAll(d, a.log), Flat(early));
      SameConfigTransitive(run.verdict.before.value.blob, TakeAll(a.dev, Flat(early)).blob,
        TakeAll(d, a.log + Flat(early)).blob);
    }
  }

  /** The safety backup of a device, as far as its configuration goes. */
  function BackupOf(mac: string, before: Before): Snapshot {
    Snapshot(mac, ThermometerKind, Hex(before.blob), "", false, false)
  }

  predicate FaultFree(l: Link) {
    l.Connected? && l.seesBefore && l.configLands && !l.configRaises && l.readsBack
  }

  lemma BackupConfig(mac: string, before: Before)
    ensures OrderOf(mac, BackupOf(mac, before), {ConfigPart})
            == Order(Some(before.blob), false, false, false, None, false, false)
    ensures SnapshotConfig(Hex(before.blob)) == Some(before.blob) && Hex(before.blob) != ""
  {
    FromHexOfHex(before.blob);
    assert before.blob[..CONFIG_LENGTH] == before.blob;
  }

  /** An undisturbed attempt to restore nothing but a configuration. */
  lemma ConfigOnly(d: Device, o: Order, l: Link)
    requires FaultFree(l) && !d.repeater && o.config.Some? && !o.name && !o.comfort && !o.keyAsked && !o.sensor
    ensures var w := WithOwnFlag(o.config.value, d.blob);
            TryRestore(d, o, l) == Returned(d.(blob := w[9 := l.hwAfter]), [ConfigSent(w, Some(w))],
                                            Restored(true, map[ConfigPart := true], SeenBefore(d, l)))
  {
    hide WithOwnFlag, KeyIn, ConfigWrite.Verifies;
    ConfigIsOwn(d, o, l);
    var w := WithOwnFlag(o.config.value, d.blob);
    ConfigWrite.VerifiesMeansSame(w[9 := l.hwAfter], w);
    var none: map<Part, bool> := map[];
    assert none[ConfigPart := true] == map[ConfigPart := true];
    var empty: seq<Send> := [];
    assert empty + [ConfigSent(w, Some(w))] == [ConfigSent(w, Some(w))];
    var parts := none[ConfigPart := true];
    assert ConfigPart in parts && parts != none;
    assert AllParts(d, o, l) == Going(d.(blob := w[9 := l.hwAfter]), [ConfigSent(w, Some(w))], parts);
  }

  /** Writing the captured configuration back over an undisturbed link leaves that configuration. */
  lemma BackupGoesBack(d: Device, mac: string, before: Before, l: Link)
    requires FaultFree(l) && !d.repeater && Encrypts(before.blob) == Encrypts(d.blob)
    ensures var run := RestoreSnapshot(d, mac, BackupOf(mac, before), {ConfigPart}, [l]);
            && run.verdict.Restored? && run.verdict.ok
            && run.dev == d.(blob := before.blob[9 := l.hwAfter])
  {
    hide Encrypts, SnapshotConfig, WithOwnFlag, Upper, SnapshotKey;
    BackupConfig(mac, before);
    OwnFlag(before.blob, d.blob);
    var o := OrderOf(mac, BackupOf(mac, before), {ConfigPart});
    assert RestoreSnapshot(d, mac, BackupOf(mac, before), {ConfigPart}, [l]) == Retry(d, o, [l], NoAttempt);
    ConfigOnly(d, o, l);
    assert WithOwnFlag(o.config.value, d.blob) == before.blob;
    assert Retry(d, o, [l], NoAttempt).verdict == TryRestore(d, o, l).verdict;
    assert Retry(d, o, [l], NoAttempt).dev == TryRestore(d, o, l).dev;
  }

  /** The device once a restore is undone: its captured state restored over one more link. */
  function Undo(d: Device, mac: string, snap: Snapshot, parts: set<Part>, links: seq<Link>, l: Link): Run
    requires snap.kind == ThermometerKind && Captured(RestoreSnapshot(d, mac, snap, parts, links))
  {
    var run := RestoreSnapshot(d, mac, snap, parts, links);
    RestoreSnapshot(run.dev, mac, BackupOf(mac, run.verdict.before.value), {ConfigPart}, [l])
  }

  /**
   Restoring the captured state puts that state back, byte for byte but for the hardware byte. It is the state
   before the restore exactly when no attempt before the last had already put the snapshot's configuration on
   the device (or it changed nothing). A restore that needed only one attempt can always be undone; one that
   was retried may have captured its own work.
   */
  lemma UndoIsExact(d: Device, mac: string, snap: Snapshot, parts: set<Part>, links: seq<Link>, l: Link)
    requires snap.kind == ThermometerKind && FaultFree(l)
    requires Captured(RestoreSnapshot(d, mac, snap, parts, links))
    ensures var run, undo := RestoreSnapshot(d, mac, snap, parts, links), Undo(d, mac, snap, parts, links, l);
            var o, captured := OrderOf(mac, snap, parts), run.verdict.before.value.blob;
            && run.log != [] && undo.verdict.Restored? && undo.verdict.ok
            && SameConfig(undo.dev.blob, captured)
            && (SameConfig(captured, d.blob) <==>
                  !ConfigLanded(Flat(run.log[..|run.log| - 1]))
                  || (o.config.Some? && SameConfig(WithOwnFlag(o.config.value, d.blob), d.blob)))
            && (|run.log| == 1 ==> SameConfig(captured, d.blob))
  {
    hide Encrypts, SnapshotConfig, WithOwnFlag, Considerate, AllParts, SnapshotKey, ConfigLanded, BackupOf, Within,
         Retry;
    var o := OrderOf(mac, snap, parts);
    var run := RestoreSnapshot(d, mac, snap, parts, links);
    assert run == Retry(d, o, links, NoAttempt);
    CapturedBeforeLastAttempt(d, o, links, NoAttempt);
    var early := Flat(run.log[..|run.log| - 1]);
    BlobAfterSends(d, o, early);
    if ConfigLanded(early) {
      LandedMeansConfig(d, o, early);
    }
    if |run.log| == 1 {
      NothingLanded(run.log);
    }
    NotARepeater(d, o, links, NoAttempt);
    CapturedHasOwnFlag(d, o, links, early);
    BackupGoesBack(run.dev, mac, run.verdict.before.value, l);
  }

  lemma CapturedHasOwnFlag(d: Device, o: Order, links: seq<Link>, early: seq<Send>)
    requires Captured(Retry(d, o, links, NoAttempt)) && Considerate(d, o, early)
    requires SameConfig(Retry(d, o, links, NoAttempt).verdict.before.value.blob, TakeAll(d, early).blob)
    ensures var run := Retry(d, o, links, NoAttempt);
            Encrypts(run.verdict.before.value.blob) == Encrypts(run.dev.blob) && run.dev.repeater == d.repeater
  {
    hide Encrypts, WithOwnFlag, Considerate, SameConfig, Retry;
    var run := Retry(d, o, links, NoAttempt);
    RetryKeepsTrack(d, o, links, NoAttempt);
    ConsiderateStates(d, o, early, |early|);
    assert early[..|early|] == early;
    FlagWithin(d, o, run.dev);
    FlagWithin(d, o, TakeAll(d, early));
    SameFlag(d.blob, run.verdict.before.value.blob, TakeAll(d, early).blob);
  }

  lemma FlagWithin(d: Device, o: Order, dev: Device)
    requires Within(d, o, dev)
    ensures Encrypts(dev.blob) == Encrypts(d.blob)
  {
    hide Encrypts, WithOwnFlag;
    if o.config.Some? {
      OwnFlagAfter(d, o, dev);
    } else {
      SameFlag(d.blob, dev.blob, d.blob);
    }
  }

  lemma LandedMeansConfig(d: Device, o: Order, sends: seq<Send>)
    requires Considerate(d, o, sends) && ConfigLanded(sends)
    ensures o.config.Some?
  {}

  lemma NothingLanded(log: seq<seq<Send>>)
    requires |log| == 1
    ensures !ConfigLanded(Flat(log[..|log| - 1]))
  {
    assert log[..0] == [];
  }

  lemma {:induction false} NotARepeater(d: Device, o: Order, links: seq<Link>, last: Failure)
    requires Captured(Retry(d, o, links, last))
    ensures !d.repeater
    decreases |links|
  {
    hide AllParts, Near, Considerate, WithOwnFlag, SameConfig;
    if d.repeater {
      AttemptKeepsTrack(d, o, links[0]);
      var a := TryRestore(d, o, links[0]);
      if a.Raised? {
        NotARepeater(a.dev, o, links[1..], FailureOf(links[0]));
      }
    }
  }

  /** Nothing that was asked for is cut off on the way. */
  predicate GetsThrough(o: Order, l: Link)
    requires l.Connected?
  {
    && (o.config.Some? && l.seesBefore ==> !l.configRaises && l.readsBack)
    && (o.name ==> l.name.CmdDone?) && (o.comfort ==> l.comfort.CmdDone?)
    && (o.keyAsked && !o.clone && o.key.Some? ==> l.keyReply.Replies?) && (o.sensor ==> l.sensor.CmdDone?)
  }

  lemma ThroughIsGoing(d: Device, o: Order, l: Link)
    requires l.Connected?
    ensures AllParts(d, o, l).Going? <==> GetsThrough(o, l)
  {
    hide WithOwnFlag, KeyIn, ConfigWrite.Verifies;
  }

  /**
   On every thermometer and whatever else is restored with it, a restore of a different configuration whose
   first link drops after the write captures its own work.
   */
  lemma RetriedRestoreCapturesItself(d: Device, o: Order, l1: Link, l2: Link)
    requires !d.repeater && o.config.Some? && !SameConfig(WithOwnFlag(o.config.value, d.blob), d.blob)
    requires l1.Connected? && l1.seesBefore && l1.configLands && l1.configRaises
    requires l2.Connected? && l2.seesBefore && GetsThrough(o, l2)
    ensures var run := Retry(d, o, [l1, l2], NoAttempt);
            && Captured(run) && SameConfig(run.verdict.before.value.blob, WithOwnFlag(o.config.value, d.blob))
            && !SameConfig(run.verdict.before.value.blob, d.blob)
  {
    hide Encrypts, WithOwnFlag, KeyIn, AllParts, GetsThrough, DoSetting, DoKey;
    var w := WithOwnFlag(o.config.value, d.blob);
    var d1 := d.(blob := w);
    CutAfterConfig(d, o, l1);
    ThroughIsGoing(d1, o, l2);
    assert TryRestore(d1, o, l2).Returned?;
    assert [l1, l2][1..] == [l2];
    assert Retry(d, o, [l1, l2], NoAttempt).verdict == Retry(d1, o, [l2], FailureOf(l1)).verdict;
    assert Retry(d1, o, [l2], FailureOf(l1)).verdict == TryRestore(d1, o, l2).verdict;
  }

  lemma CutAfterConfig(d: Device, o: Order, l: Link)
    requires !d.repeater && o.config.Some? && l.Connected? && l.seesBefore && l.configLands && l.configRaises
    ensures var w := WithOwnFlag(o.config.value, d.blob);
            TryRestore(d, o, l) == Raised(d.(blob := w), [ConfigSent(w, Some(w))])
  {
    hide WithOwnFlag, KeyIn;
    ConfigIsOwn(d, o, l);
  }

  const CUT_AFTER_CONFIG :=
    Connected(0, true, Raises, true, true, false, 0, CmdRaises, CmdRaises, false, Raises, CmdRaises)

  const QUIET :=
    Connected(0, true, Replies(Full), true, false, true, 0, CmdDone(true), CmdDone(true), true, Replies(Full),
      CmdDone(true))

  /** Whether a restore can change the target's configuration at all. */
  ghost predicate ChangesNothing(d: Device, o: Order) {
    d.repeater || o.config == None || SameConfig(WithOwnFlag(o.config.value, d.blob), d.blob)
  }

  lemma OrderIsRestored(d: Device, mac: string, snap: Snapshot, parts: set<Part>, links: seq<Link>)
    requires snap.kind == ThermometerKind
    ensures var o, run := OrderOf(mac, snap, parts), RestoreSnapshot(d, mac, snap, parts, links);
            && (o.config.Some? || run.verdict.Restored? ==> run == Retry(d, o, links, NoAttempt))
            && (run == Retry(d, o, links, NoAttempt) || run.dev == d)
  {
    hide SnapshotConfig, SnapshotKey, Retry;
  }

  lemma NothingIsChanged(d: Device, mac: string, snap: Snapshot, parts: set<Part>, links: seq<Link>)
    requires snap.kind == ThermometerKind && ChangesNothing(d, OrderOf(mac, snap, parts))
    ensures SameConfig(RestoreSnapshot(d, mac, snap, parts, links).dev.blob, d.blob)
  {
    hide SnapshotConfig, SnapshotKey, WithOwnFlag, Considerate, RestoreSnapshot, Retry, OrderOf;
    var o := OrderOf(mac, snap, parts);
    OrderIsRestored(d, mac, snap, parts, links);
    RetryKeepsTrack(d, o, links, NoAttempt);
    if d.repeater {
      assert TakeAll(d, []) == d;
    }
  }

  /**
   Over the two attempts there are, every captured state undoes its restore exactly when there is nothing to
   undo: the target is a repeater, no configuration is restored, or the snapshot's under the target's own flag
   is what the target holds. Any other configuration has a run whose backup is the restored one itself.
   */
  lemma UndoIsSafeIff(d: Device, mac: string, snap: Snapshot, parts: set<Part>)
    requires snap.kind == ThermometerKind
    ensures (forall links, l | |links| <= 2 && FaultFree(l) && Captured(RestoreSnapshot(d, mac, snap, parts, links)) ::
               SameConfig(Undo(d, mac, snap, parts, links, l).dev.blob, d.blob))
            <==> ChangesNothing(d, OrderOf(mac, snap, parts))
  {
    hide WithOwnFlag, RestoreSnapshot, Retry, OrderOf, ConfigLanded, Undo, SameConfig;
    var o := OrderOf(mac, snap, parts);
    if ChangesNothing(d, o) {
      forall links, l | |links| <= 2 && FaultFree(l) && Captured(RestoreSnapshot(d, mac, snap, parts, links))
        ensures SameConfig(Undo(d, mac, snap, parts, links, l).dev.blob, d.blob)
      {
        NothingToUndo(d, mac, snap, parts, links, l);
      }
    } else {
      var links := [CUT_AFTER_CONFIG, QUIET];
      RetriedRestoreCapturesItself(d, o, CUT_AFTER_CONFIG, QUIET);
      OrderIsRestored(d, mac, snap, parts, links);
      UndoIsExact(d, mac, snap, parts, links, QUIET);
      var undone := Undo(d, mac, snap, parts, links, QUIET).dev.blob;
      var captured := RestoreSnapshot(d, mac, snap, parts, links).verdict.before.value.blob;
      if SameConfig(undone, d.blob) {
        SameConfigSymmetric(undone, captured);
        SameConfigTransitive(captured, undone, d.blob);
      }
    }
  }

  lemma NothingToUndo(d: Device, mac: string, snap: Snapshot, parts: set<Part>, links: seq<Link>, l: Link)
    requires snap.kind == ThermometerKind && FaultFree(l) && Captured(RestoreSnapshot(d, mac, snap, parts, links))
    requires ChangesNothing(d, OrderOf(mac, snap, parts))
    ensures SameConfig(Undo(d, mac, snap, parts, links, l).dev.blob, d.blob)
  {
    hide WithOwnFlag, Considerate, RestoreSnapshot, Retry, ConfigLanded, OrderOf, SameConfig, Undo;
    var o := OrderOf(mac, snap, parts);
    OrderIsRestored(d, mac, snap, parts, links);
    NotARepeater(d, o, links, NoAttempt);
    CapturedBeforeLastAttempt(d, o, links, NoAttempt);
    var run := RestoreSnapshot(d, mac, snap, parts, links);
    var early := Flat(run.log[..|run.log| - 1]);
    if ConfigLanded(early) {
      LandedMeansConfig(d, o, early);
    }
    UndoIsExact(d, mac, snap, parts, links, l);
    SameConfigTransitive(Undo(d, mac, snap, parts, links, l).dev.blob, run.verdict.before.value.blob, d.blob);
  }

  /** The configuration the target had is still on it, or has been handed over as a backup. */
  ghost predicate StillThere(d: Device, run: Run) {
    SameConfig(run.dev.blob, d.blob) || (Captured(run) && SameConfig(run.verdict.before.value.blob, d.blob))
  }

  /**
   Over all links up to the two attempts there are, the configuration a target had is either still on it or in
   the backup the caller gets, exactly when the restore cannot change it anyway. Any other configuration has a
   run in which both attempts are cut off after the write: it is gone, and nothing is handed over at all.
   */
  lemma OldConfigIsKeptIff(d: Device, mac: string, snap: Snapshot, parts: set<Part>)
    requires snap.kind == ThermometerKind
    ensures (forall links | |links| <= 2 :: StillThere(d, RestoreSnapshot(d, mac, snap, parts, links)))
            <==> ChangesNothing(d, OrderOf(mac, snap, parts))
  {
    hide WithOwnFlag, RestoreSnapshot, Retry, OrderOf, SameConfig;
    var o := OrderOf(mac, snap, parts);
    if ChangesNothing(d, o) {
      forall links | |links| <= 2
        ensures StillThere(d, RestoreSnapshot(d, mac, snap, parts, links))
      {
        NothingIsChanged(d, mac, snap, parts, links);
      }
    } else {
      var links := [CUT_AFTER_CONFIG, CUT_AFTER_CONFIG];
      CutTwice(d, o);
      OrderIsRestored(d, mac, snap, parts, links);
      assert !StillThere(d, RestoreSnapshot(d, mac, snap, parts, links));
    }
  }

  /** Both attempts cut off after the write: the target is changed, and the caller has no backup of it. */
  lemma CutTwice(d: Device, o: Order)
    requires !d.repeater && o.config.Some?
    ensures var run := Retry(d, o, [CUT_AFTER_CONFIG, CUT_AFTER_CONFIG], NoAttempt);
            run.dev.blob == WithOwnFlag(o.config.value, d.blob) && run.verdict == Unreachable(Failed(true))
  {
    hide WithOwnFlag, TryRestore, Encrypts;
    var w := WithOwnFlag(o.config.value, d.blob);
    CutAfterConfig(d, o, CUT_AFTER_CONFIG);
    OwnFlag(o.config.value, d.blob);
    var d1 := d.(blob := w);
    CutAfterConfig(d1, o, CUT_AFTER_CONFIG);
    var one := [CUT_AFTER_CONFIG];
    assert [CUT_AFTER_CONFIG, CUT_AFTER_CONFIG] == [CUT_AFTER_CONFIG] + one && one == one + [];
    NextAttempt(d, o, CUT_AFTER_CONFIG, one, NoAttempt);
    NextAttempt(d1, o, CUT_AFTER_CONFIG, [], Failed(true));
  }

  lemma NextAttempt(d: Device, o: Order, l: Link, rest: seq<Link>, last: Failure)
    requires TryRestore(d, o, l).Raised?
    ensures var run, later := Retry(d, o, [l] + rest, last), Retry(TryRestore(d, o, l).dev, o, rest, FailureOf(l));
            run.dev == later.dev && run.verdict == later.verdict
  {
    hide TryRestore;
    assert ([l] + rest)[0] == l && ([l] + rest)[1..] == rest;
  }

  // ----- what is reported, part by part

  /** What an attempt that got through says of each part. */
  ghost predicate ReportsExactly(d: Device, o: Order, l: Link, dev: Device, parts: map<Part, bool>)
    requires l.Connected?
  {
    && (ConfigPart in parts <==> o.config.Some?)
    && (o.config.Some? ==>
          (parts[ConfigPart] <==> l.seesBefore && SameConfig(dev.blob, WithOwnFlag(o.config.value, d.blob))))
    && (NamePart in parts <==> o.name) && (o.name ==> l.name == CmdDone(parts[NamePart]))
    && (ComfortPart in parts <==> o.comfort) && (o.comfort ==> l.comfort == CmdDone(parts[ComfortPart]))
    && (KeyPart in parts <==> o.keyAsked && (o.clone || o.key.Some?))
    && (KeyPart in parts ==> (parts[KeyPart] <==> !o.clone && l.keyReply.Replies? && l.keyReply.form != Silent))
    && (SensorPart in parts <==> o.sensor) && (o.sensor ==> l.sensor == CmdDone(parts[SensorPart]))
  }

  lemma SettingIsReported(p: Progress, asked: bool, part: Part, setting: Setting, r: CmdResult)
    ensures var q := DoSetting(p, asked, part, setting, r);
            && q.dev == p.dev
            && (q.Going? ==>
                  p.Going? && (asked ==> r.CmdDone?)
                  && q.parts == if asked then p.parts[part := r.confirmed] else p.parts)
  {}

  lemma KeyIsReported(p: Progress, o: Order, l: Link)
    requires l.Connected?
    ensures var q := DoKey(p, o, l);
            && q.dev.blob == p.dev.blob
            && (q.Going? ==>
                  && p.Going? && (o.keyAsked && !o.clone && o.key.Some? ==> l.keyReply.Replies?)
                  && q.parts == if !o.keyAsked then p.parts
                                else if o.clone then p.parts[KeyPart := false]
                                else if o.key.Some? then p.parts[KeyPart := l.keyReply.form != Silent]
                                else p.parts)
  {
    hide KeyIn;
  }

  lemma ConfigIsReported(d: Device, o: Order, l: Link)
    requires l.Connected?
    ensures var p := DoConfig(Going(Shown(d, l.hw), [], map[]), o, SeenBefore(d, l), l);
            p.Going? ==>
              && p.parts.Keys == (if o.config.Some? then {ConfigPart} else {})
              && (o.config.Some? ==>
                    (p.parts[ConfigPart] <==>
                     l.seesBefore && SameConfig(p.dev.blob, WithOwnFlag(o.config.value, d.blob))))
  {
    hide WithOwnFlag, KeyIn, SameConfig, ConfigWrite.Verifies;
    if o.config.Some? && l.seesBefore {
      ConfigIsOwn(d, o, l);
      var w := WithOwnFlag(o.config.value, d.blob);
      var left := if l.configLands then w else Shown(d, l.hw).blob;
      ConfigWrite.VerifiesMeansSame(left[9 := l.hwAfter], w);
    }
  }

  /** An attempt that got through reports each part it was asked for, and nothing else, as the device answered. */
  lemma AttemptReportsExactly(d: Device, o: Order, l: Link)
    requires l.Connected? && AllParts(d, o, l).Going?
    ensures ReportsExactly(d, o, l, AllParts(d, o, l).dev, AllParts(d, o, l).parts)
  {
    hide WithOwnFlag, SameConfig, DoConfig, DoSetting, DoKey, SeenBefore;
    ConfigIsReported(d, o, l);
    var p1 := DoConfig(Going(Shown(d, l.hw), [], map[]), o, SeenBefore(d, l), l);
    var p2 := DoSetting(p1, o.name, NamePart, DeviceName, l.name);
    var p3 := DoSetting(p2, o.comfort, ComfortPart, Comfort, l.comfort);
    var p4 := DoKey(p3, o, l);
    SettingIsReported(p1, o.name, NamePart, DeviceName, l.name);
    SettingIsReported(p2, o.comfort, ComfortPart, Comfort, l.comfort);
    KeyIsReported(p3, o, l);
    SettingIsReported(p4, o.sensor, SensorPart, Sensor, l.sensor);
  }

  /**
   A restore reported ok holds the snapshot's configuration under the target's own flag, up to byte 9, however
   often it was retried; and it was asked for something.
   */
  lemma {:induction false} OkRestoreHoldsConfig(d: Device, o: Order, links: seq<Link>, last: Failure)
    requires var v := Retry(d, o, links, last).verdict; v.Restored? && v.ok
    ensures var run := Retry(d, o, links, last);
            && run.verdict.parts != map[]
            && (o.config.Some? ==> SameConfig(run.dev.blob, WithOwnFlag(o.config.value, d.blob)))
    decreases |links|
  {
    hide AllParts, WithOwnFlag, SameConfig, Within, Considerate;
    AttemptKeepsTrack(d, o, links[0]);
    var a := TryRestore(d, o, links[0]);
    if a.Raised? {
      OkRestoreHoldsConfig(a.dev, o, links[1..], FailureOf(links[0]));
      if o.config.Some? {
        OwnFlagAfter(d, o, a.dev);
      }
    } else {
      AttemptReportsExactly(d, o, links[0]);
    }
  }

  /** A run that reports the key as restored. */
  predicate KeyReported(run: Run) {
    run.verdict.Restored? && KeyPart in run.verdict.parts && run.verdict.parts[KeyPart]
  }

  /** A restored key is not read back: a key that was lost is reported as restored on any answer that is not empty. */
  lemma LostKeyReportedAsRestored(d: Device, o: Order, l: Link)
    requires !d.repeater && o.keyAsked && !o.clone && o.key.Some?
    requires l.Connected? && GetsThrough(o, l) && !l.keyLands && l.keyReply.form != Silent
    ensures var run := Retry(d, o, [l], NoAttempt); KeyReported(run) && run.dev.key == d.key
  {
    hide KeyIn, WithOwnFlag, GetsThrough, SameConfig;
    ThroughIsGoing(d, o, l);
    hide AllParts;
    AttemptReportsExactly(d, o, l);
    LostKeyStays(d, o, l);
    assert Retry(d, o, [l], NoAttempt).verdict == TryRestore(d, o, l).verdict;
    assert Retry(d, o, [l], NoAttempt).dev == TryRestore(d, o, l).dev;
  }

  lemma LostKeyStays(d: Device, o: Order, l: Link)
    requires l.Connected? && !l.keyLands
    ensures AllParts(d, o, l).dev.key == d.key
  {
    hide KeyIn, WithOwnFlag, ConfigWrite.Verifies;
  }

  lemma {:induction false} KeyReportIsTrue(d: Device, o: Order, links: seq<Link>, last: Failure)
    requires d.repeater || !o.keyAsked || o.clone || o.key == None || d.key == o.key
    ensures var run := Retry(d, o, links, last); KeyReported(run) ==> run.dev.key == o.key
    decreases |links|
  {
    hide AllParts, WithOwnFlag, SameConfig, Considerate;
    if links != [] {
      AttemptKeepsTrack(d, o, links[0]);
      var a := TryRestore(d, o, links[0]);
      if a.Raised? {
        KeyReportIsTrue(a.dev, o, links[1..], FailureOf(links[0]));
      } else if links[0].Connected? && AllParts(d, o, links[0]).Going? {
        AttemptReportsExactly(d, o, links[0]);
      }
    }
  }

  const KEY_IS_LOST :=
    Connected(0, false, Raises, false, false, true, 0, CmdDone(true), CmdDone(true), false, Replies(AckOnly),
      CmdDone(true))

  /**
   Over the two attempts there are, a key reported as restored is on the device exactly when the report cannot
   be made or cannot be wrong: the target is a repeater, no key is asked for, it is a clone's or no key at all,
   or the device holds it already.
   */
  lemma RestoredKeyIsHeldIff(d: Device, o: Order)
    ensures (forall links | |links| <= 2 && KeyReported(Retry(d, o, links, NoAttempt)) ::
            Retry(d, o, links, NoAttempt).dev.key == o.key)
            <==> d.repeater || !o.keyAsked || o.clone || o.key == None || d.key == o.key
  {
    hide Retry, KeyReported;
    if d.repeater || !o.keyAsked || o.clone || o.key == None || d.key == o.key {
      forall links | |links| <= 2 && KeyReported(Retry(d, o, links, NoAttempt))
        ensures Retry(d, o, links, NoAttempt).dev.key == o.key
      {
        KeyReportIsTrue(d, o, links, NoAttempt);
      }
    } else {
      LostKeyReportedAsRestored(d, o, KEY_IS_LOST);
    }
  }
}
