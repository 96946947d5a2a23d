/**
 Restoring a snapshot onto a thermometer, or cloning another device's: the configuration goes in with the
 target's own encryption flag, a clone leaves the key alone, and what the target held is captured first.
 */
module Restore {
  import opened Wrappers
  import opened Bytes
  import opened Logs
  import opened ConfigBlob
  import opened Thermometers
  import ConfigWrite

  datatype Kind = ThermometerKind | RepeaterKind

  datatype Snapshot = Snapshot(mac: string, kind: Kind, raw: string, bindKey: string, hasComfort: bool, hasSensor: bool)

  datatype Part = ConfigPart | NamePart | ComfortPart | KeyPart | SensorPart

  datatype CmdResult = CmdRaises | CmdDone(confirmed: bool)

  /** One attempt, as far as the link and the device decide it. */
  datatype Link =
    | NoDevice
    | NoConnection
    | StaleTable(refused: bool) // connected, with the service table of the firmware the device had before; and
                                // whether a repeater snapshot is refused before its first command
    | Connected(
        hw: Byte,            // the hardware byte the device shows on this connection
        seesBefore: bool,    // the full read before anything is written succeeds
        keyBefore: Reply,
        configLands: bool,
        configRaises: bool,
        readsBack: bool,
        hwAfter: Byte,       // the hardware byte at the read-back
        name: CmdResult,
        comfort: CmdResult,
        keyLands: bool,
        keyReply: Reply,
        sensor: CmdResult)

  /** What the target held before the attempt wrote anything. */
  datatype Before = Before(blob: Config, key: Option<Key>)

  datatype Failure = NoAttempt | NoConnectable | Failed(reached: bool)

  datatype Verdict =
    | BadSnapshot
    | KindMismatch
    | PayloadRefused
    | Restored(ok: bool, parts: map<Part, bool>, before: Option<Before>)
    | Unreachable(last: Failure)

  /** The configuration a snapshot carries, or none if its text is not hex or too short. */
  function SnapshotConfig(raw: string): Option<Config> {
    match FromHex(raw)
    case Some(b) => if |b| >= CONFIG_LENGTH then Some(b[..CONFIG_LENGTH]) else None
    case None => None
  }

  function SnapshotKey(text: string): Option<Key> {
    match FromHex(text)
    case Some(b) => if |b| == 16 then Some(b) else None
    case None => None
  }

  /** What is asked for: the parts that can be written at all, once the snapshot has been looked at. */
  datatype Order = Order(config: Option<Config>, name: bool, comfort: bool, keyAsked: bool, key: Option<Key>,
    clone: bool, sensor: bool)

  function OrderOf(mac: string, snap: Snapshot, parts: set<Part>): Order {
    Order(if ConfigPart in parts && snap.raw != "" then SnapshotConfig(snap.raw) else None,
          NamePart in parts,
          ComfortPart in parts && snap.hasComfort,
          KeyPart in parts,
          if snap.bindKey != "" then SnapshotKey(snap.bindKey) else None,
          Upper(snap.mac) != Upper(mac),
          SensorPart in parts && snap.hasSensor)
  }

  /** Where an attempt stands: still going with the parts dealt with so far, or cut off. */
  datatype Progress = Going(dev: Device, log: seq<Send>, parts: map<Part, bool>) | CutOff(dev: Device, log: seq<Send>)

  /** The snapshot's configuration with the target's own flag. */
  function WithOwnFlag(config: Config, target: Config): Config {
    WithAdvCrypto(config, Encrypts(target), 0).value
  }

  /** The device with the hardware byte it shows now; it rewrites that byte on its own. */
  function Shown(d: Device, hw: Byte): Device {
    d.(blob := d.blob[9 := hw])
  }

  function DoConfig(p: Progress, o: Order, before: Option<Before>, l: Link): Progress
    requires l.Connected?
  {
    if p.CutOff? || o.config == None then p
    else if before == None then p.(parts := p.parts[ConfigPart := false]) // the flag is unknown: nothing is written
    else
      var blob := WithOwnFlag(o.config.value, before.value.blob);
      var dev := if l.configLands then p.dev.(blob := blob) else p.dev;
      var log := p.log + [ConfigSent(blob, if l.configLands then Some(blob) else None)];
      if l.configRaises || !l.readsBack then CutOff(dev, log)
      else
        var after := Shown(dev, l.hwAfter);
        Going(after, log, p.parts[ConfigPart := ConfigWrite.Verifies(after.blob, blob)])
  }

  function DoSetting(p: Progress, asked: bool, part: Part, setting: Setting, r: CmdResult): Progress {
    if p.CutOff? || !asked then p
    else
      var log := p.log + [SettingSent(setting)];
      if r.CmdRaises? then CutOff(p.dev, log) else Going(p.dev, log, p.parts[part := r.confirmed])
  }

  function DoKey(p: Progress, o: Order, l: Link): Progress
    requires l.Connected?
  {
    if p.CutOff? || !o.keyAsked then p
    else if o.clone then p.(parts := p.parts[KeyPart := false]) // each device needs its own key
    else if o.key == None then p
    else
      var dev := if l.keyLands then p.dev.(key := o.key) else p.dev;
      var log := p.log + [KeySent(o.key.value, l.keyLands, KeyIn(l.keyReply, dev.key))];
      if l.keyReply.Raises? then CutOff(dev, log)
      else Going(dev, log, p.parts[KeyPart := l.keyReply.form != Silent])
  }

  datatype Attempt =
    | Raised(dev: Device, log: seq<Send>)
    | Returned(dev: Device, log: seq<Send>, verdict: Verdict)

  function SeenBefore(d: Device, l: Link): Option<Before>
    requires l.Connected?
  {
    if l.seesBefore then Some(Before(Shown(d, l.hw).blob, KeyIn(l.keyBefore, d.key))) else None
  }

  function AllParts(d: Device, o: Order, l: Link): Progress
    requires l.Connected?
  {
    var p1 := DoConfig(Going(Shown(d, l.hw), [], map[]), o, SeenBefore(d, l), l);
    var p2 := DoSetting(p1, o.name, NamePart, DeviceName, l.name);
    var p3 := DoSetting(p2, o.comfort, ComfortPart, Comfort, l.comfort);
    var p4 := DoKey(p3, o, l);
    DoSetting(p4, o.sensor, SensorPart, Sensor, l.sensor)
  }

  /**
   A table that shows the other kind of device: a thermometer is taken for a repeater and refused, a repeater
   for a thermometer. The handles in that table are gone, so every command fails before it reaches anything.
   */
  function ThroughStaleTable(d: Device, o: Order): Attempt {
    if !d.repeater then Returned(d, [], KindMismatch)
    else if o.name || o.comfort || (o.keyAsked && !o.clone && o.key.Some?) || o.sensor then Raised(d, [])
    else
      var none: map<Part, bool> := map[];
      var config := if o.config.Some? then none[ConfigPart := false] else none;
      var parts := if o.keyAsked && o.clone then config[KeyPart := false] else config;
      Returned(d, [], Restored(false, parts, None))
  }

  function TryRestore(d: Device, o: Order, l: Link): Attempt {
    if l.StaleTable? then ThroughStaleTable(d, o)
    else if !l.Connected? then Raised(d, [])
    else if d.repeater then Returned(d, [], KindMismatch)
    else match AllParts(d, o, l)
      case CutOff(dev, log) => Raised(dev, log)
      case Going(dev, log, parts) =>
        var ok := parts != map[] && forall part | part in parts :: parts[part];
        Returned(dev, log, Restored(ok, parts, SeenBefore(d, l)))
  }

  function FailureOf(l: Link): Failure {
    match l
    case NoDevice => NoConnectable
    case NoConnection => Failed(false)
    case StaleTable(_) => Failed(true)
    case Connected(_, _, _, _, _, _, _, _, _, _, _, _) => Failed(true)
  }

  datatype Run = Run(dev: Device, log: seq<seq<Send>>, verdict: Verdict)

  function Retry(d: Device, o: Order, links: seq<Link>, last: Failure): Run
    decreases |links|
  {
    if links == [] then Run(d, [], Unreachable(last))
    else match TryRestore(d, o, links[0])
      case Returned(dev, log, verdict) => Run(dev, [log], verdict)
      case Raised(dev, log) =>
        var rest := Retry(dev, o, links[1..], FailureOf(links[0]));
        Run(rest.dev, [log] + rest.log, rest.verdict)
  }

  /**
   A repeater snapshot aimed at a thermometer: the connection insists on the repeater service, rediscovers
   the service table once in case it was stale, and then refuses. If the table still offers the service the
   restore goes ahead, up to the first command.
   */
  function RefuseRepeaterSnapshot(d: Device, links: seq<Link>, rediscovered: bool, last: Failure): Run
    requires !d.repeater
    decreases |links|
  {
    if links == [] then Run(d, [], Unreachable(last))
    else if links[0].StaleTable? && links[0].refused then Run(d, [[]], PayloadRefused)
    else if links[0].Connected? && rediscovered then Run(d, [[]], KindMismatch)
    else
      var rest := RefuseRepeaterSnapshot(d, links[1..], rediscovered || links[0].Connected?,
                                         if links[0].Connected? then last else FailureOf(links[0]));
      Run(rest.dev, [[]] + rest.log, rest.verdict)
  }

  /** The configuration is asked for and the snapshot's is no configuration. */
  predicate Unusable(snap: Snapshot, parts: set<Part>) {
    ConfigPart in parts && snap.raw != "" && SnapshotConfig(snap.raw) == None
  }

  /** A whole restore onto a thermometer, or of a thermometer snapshot onto whatever answers. */
  function RestoreSnapshot(d: Device, mac: string, snap: Snapshot, parts: set<Part>, links: seq<Link>): Run
    requires snap.kind == RepeaterKind ==> !d.repeater
  {
    if snap.kind == RepeaterKind then RefuseRepeaterSnapshot(d, links, false, NoAttempt)
    else if Unusable(snap, parts) then Run(d, [], BadSnapshot)
    else Retry(d, OrderOf(mac, snap, parts), links, NoAttempt)
  }

  // ----- the same call, changing the device step by step

  /** Progress, as a running attempt keeps it: cut off, or the parts dealt with so far. */
  ghost predicate At(d: Device, sent: seq<Send>, parts: Option<map<Part, bool>>, before: seq<Send>, p: Progress) {
    && d == p.dev && sent == before + p.log
    && parts == (if p.Going? then Some(p.parts) else None)
  }

  method WriteConfigPart(t: Thermometer, o: Order, seen: Option<Before>, l: Link, done: map<Part, bool>,
                         ghost p: Progress, ghost before: seq<Send>)
    returns (parts: Option<map<Part, bool>>)
    requires l.Connected? && At(t.State(), t.sent, Some(done), before, p)
    modifies t
    ensures At(t.State(), t.sent, parts, before, DoConfig(p, o, seen, l))
  {
    hide ConfigWrite.Verifies, Encrypts, WithAdvCrypto;
    if o.config == None {
      return Some(done);
    }
    if seen == None {
      return Some(done[ConfigPart := false]);
    }
    SetFlag(o.config.value, Encrypts(seen.value.blob), 0);
    var flagged := WithAdvCryptoInPlace(o.config.value, Encrypts(seen.value.blob), 0);
    var blob: Config := flagged.value;
    t.WriteConfig(blob, if l.configLands then Some(blob) else None);
    if l.configRaises || !l.readsBack {
      return None;
    }
    t.RewriteHwVer(l.hwAfter);
    var verified := ConfigWrite.Verifies(t.blob, blob);
    return Some(done[ConfigPart := verified]);
  }

  method WriteSettingPart(t: Thermometer, asked: bool, part: Part, setting: Setting, r: CmdResult,
                          done: map<Part, bool>, ghost p: Progress, ghost before: seq<Send>)
    returns (parts: Option<map<Part, bool>>)
    requires At(t.State(), t.sent, Some(done), before, p)
    modifies t
    ensures At(t.State(), t.sent, parts, before, DoSetting(p, asked, part, setting, r))
  {
    if !asked {
      return Some(done);
    }
    t.WriteSetting(setting);
    return if r.CmdRaises? then None else Some(done[part := r.confirmed]);
  }

  method WriteKeyPart(t: Thermometer, o: Order, l: Link, done: map<Part, bool>, ghost p: Progress,
                      ghost before: seq<Send>)
    returns (parts: Option<map<Part, bool>>)
    requires l.Connected? && At(t.State(), t.sent, Some(done), before, p)
    modifies t
    ensures At(t.State(), t.sent, parts, before, DoKey(p, o, l))
  {
    hide KeyIn;
    if !o.keyAsked {
      return Some(done);
    }
    if o.clone {
      return Some(done[KeyPart := false]);
    }
    if o.key == None {
      return Some(done);
    }
    var _ := t.WriteKey(o.key.value, l.keyLands, l.keyReply);
    if l.keyReply.Raises? {
      return None;
    }
    return Some(done[KeyPart := l.keyReply.form != Silent]);
  }

  method AllPartsOn(t: Thermometer, o: Order, l: Link)
    returns (parts: Option<map<Part, bool>>, seen: Option<Before>)
    requires l.Connected?
    modifies t
    ensures At(t.State(), t.sent, parts, old(t.sent), AllParts(old(t.State()), o, l))
    ensures seen == SeenBefore(old(t.State()), l)
  {
    hide DoConfig, DoSetting, DoKey, KeyIn;
    t.RewriteHwVer(l.hw);
    // what the target holds now, so that the caller can keep it as a backup
    seen := if l.seesBefore then Some(Before(t.blob, KeyIn(l.keyBefore, t.key))) else None;
    ghost var p := Going(t.State(), [], map[]);
    ghost var before := t.sent;
    assert before + [] == before;
    parts := WriteConfigPart(t, o, seen, l, map[], p, before);
    p := DoConfig(p, o, seen, l);
    if parts == None { CutOffStays(p, o, l); return; }
    parts := WriteSettingPart(t, o.name, NamePart, DeviceName, l.name, parts.value, p, before);
    p := DoSetting(p, o.name, NamePart, DeviceName, l.name);
    if parts == None { CutOffStays(p, o, l); return; }
    parts := WriteSettingPart(t, o.comfort, ComfortPart, Comfort, l.comfort, parts.value, p, before);
    p := DoSetting(p, o.comfort, ComfortPart, Comfort, l.comfort);
    if parts == None { CutOffStays(p, o, l); return; }
    parts := WriteKeyPart(t, o, l, parts.value, p, before);
    p := DoKey(p, o, l);
    if parts == None { CutOffStays(p, o, l); return; }
    parts := WriteSettingPart(t, o.sensor, SensorPart, Sensor, l.sensor, parts.value, p, before);
  }

  /** Once an attempt is cut off, no later part touches the device. */
  lemma CutOffStays(p: Progress, o: Order, l: Link)
    requires l.Connected? && p.CutOff?
    ensures DoKey(p, o, l) == p
    ensures forall asked: bool, part: Part, setting: Setting, r: CmdResult :: DoSetting(p, asked, part, setting, r) == p
  {}

  /** The work done on an open connection; None means it raised and the wrapper may try again. */
  method RestoreOnConnection(t: Thermometer, o: Order, l: Link) returns (verdict: Option<Verdict>)
    requires l.Connected? || l.StaleTable?
    modifies t
    ensures var a := TryRestore(old(t.State()), o, l);
            && t.State() == a.dev && t.sent == old(t.sent) + a.log
            && verdict == (if a.Returned? then Some(a.verdict) else None)
  {
    hide AllParts, KeyIn;
    assert t.sent + [] == t.sent;
    if t.repeater != l.StaleTable? {
      return Some(KindMismatch); // what the service table shows is a repeater
    }
    if l.StaleTable? {
      var parts: map<Part, bool> := map[];
      if o.config.Some? {
        parts := parts[ConfigPart := false];
      }
      if o.name || o.comfort || (o.keyAsked && !o.clone && o.key.Some?) || o.sensor {
        return None;
      }
      if o.keyAsked && o.clone {
        parts := parts[KeyPart := false];
      }
      return Some(Restored(false, parts, None));
    }
    var parts, seen := AllPartsOn(t, o, l);
    if parts == None {
      return None;
    }
    var ok := parts.value != map[] && forall part | part in parts.value :: parts.value[part];
    return Some(Restored(ok, parts.value, seen));
  }

  method RestoreWithRetries(t: Thermometer, o: Order, links: seq<Link>) returns (verdict: Verdict)
    modifies t
    ensures var run := Retry(old(t.State()), o, links, NoAttempt);
            t.State() == run.dev && verdict == run.verdict && t.sent == old(t.sent) + Flat(run.log)
  {
    hide TryRestore, Retry;
    ghost var whole := Retry(t.State(), o, links, NoAttempt);
    ghost var log: seq<seq<Send>> := [];
    var last := NoAttempt;
    assert links[0..] == links;
    for i := 0 to |links|
      invariant whole == Prefixed(log, Retry(t.State(), o, links[i..], last))
      invariant t.sent == old(t.sent) + Flat(log)
    {
      RetryStep(t.State(), o, links, i, last, log);
      ghost var sends := TryRestore(t.State(), o, links[i]).log;
      FlatSnoc(log, sends);
      log := log + [sends];
      if !links[i].Connected? && !links[i].StaleTable? {
        NoLinkNoSend(t.State(), o, links[i]);
      } else {
        var outcome := RestoreOnConnection(t, o, links[i]);
        if outcome.Some? {
          return outcome.value;
        }
      }
      last := FailureOf(links[i]);
    }
    RetryEnd(t.State(), o, links, last, log);
    return Unreachable(last);
  }

  function Prefixed(log: seq<seq<Send>>, run: Run): Run {
    Run(run.dev, log + run.log, run.verdict)
  }

  lemma RetryStep(d: Device, o: Order, links: seq<Link>, i: nat, last: Failure, log: seq<seq<Send>>)
    requires i < |links|
    ensures Prefixed(log, Retry(d, o, links[i..], last)) ==
            match TryRestore(d, o, links[i])
            case Returned(d1, sends, verdict) => Run(d1, log + [sends], verdict)
            case Raised(d1, sends) => Prefixed(log + [sends], Retry(d1, o, links[i + 1..], FailureOf(links[i])))
  {
    hide TryRestore;
    assert links[i..][0] == links[i] && links[i..][1..] == links[i + 1..];
    var a := TryRestore(d, o, links[i]);
    if a.Raised? {
      var rest := Retry(a.dev, o, links[i + 1..], FailureOf(links[i]));
      assert log + ([a.log] + rest.log) == (log + [a.log]) + rest.log;
    }
  }

  lemma RetryEnd(d: Device, o: Order, links: seq<Link>, last: Failure, log: seq<seq<Send>>)
    ensures Prefixed(log, Retry(d, o, links[|links|..], last)) == Run(d, log, Unreachable(last))
  {
    assert links[|links|..] == [];
  }

  lemma NoLinkNoSend(d: Device, o: Order, l: Link)
    requires !l.Connected? && !l.StaleTable?
    ensures TryRestore(d, o, l) == Raised(d, [])
  {}
}
