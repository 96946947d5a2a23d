/**
 Devices and Home Assistant side by side. An encryption call changes a device under its lock; nothing is
 awaited between giving up that lock and storing the key in the device's BTHome entry, so the two are one
 step. What remains of the call, the reload and the report, can come at any later time, after any steps of
 other calls on the same device or others.
 */
module Agreement {
  import opened Wrappers
  import opened Bytes
  import opened ConfigBlob
  import opened Thermometers
  import opened Encryption
  import opened EncryptionLaws
  import opened BthomeSync

  const ADV_TYPE_BTHOME := 3

  datatype World = World(devices: map<string, Device>, entries: seq<Entry>)

  datatype HaStatus = NotBthome | Followed(status: Status)

  datatype Outcome = Outcome(verdict: Verdict, ha: Option<HaStatus>)

  datatype Call = Call(mac: string, enable: bool, text: string, links: seq<Link>, updateRaises: bool, c: Circumstances)

  /** The part of a call that runs under the device's lock. An address no device answers to is unreachable. */
  function DevicePhase(w: World, call: Call): (World, Verdict) {
    var mac := Upper(call.mac);
    if mac in w.devices then
      var run := SetEncryption(w.devices[mac], call.enable, call.text, call.links);
      (w.(devices := w.devices[mac := run.dev]), run.verdict)
    else if call.text != "" && ParseBindKey(call.text) == None then (w, Refused(BadKeyText))
    else (w, Unreachable(NoConnectable))
  }

  /** What a call has in hand once its lock is released. */
  datatype Hand = NotConfirmed | OtherFormat | Handed(found: StoreResult)

  datatype Released = Released(world: World, verdict: Verdict, hand: Hand)

  function KeyFor(enable: bool, verdict: Verdict): Option<Key> {
    if enable && verdict.Done? then verdict.key else None
  }

  /** One step: the device as its lock is released, and on a confirmed change of one that sends BTHome its entry. */
  function Release(w: World, call: Call): Released {
    var (w1, verdict) := DevicePhase(w, call);
    if !verdict.Done? then Released(w1, verdict, NotConfirmed)
    else if verdict.advType != ADV_TYPE_BTHOME then Released(w1, verdict, OtherFormat)
    else
      var s := StoreKey(w1.entries, Upper(call.mac), KeyFor(call.enable, verdict), call.updateRaises);
      Released(w1.(entries := s.entries), verdict, Handed(s.found))
  }

  /** The rest of a call, which changes neither device nor entry. */
  function Conclude(verdict: Verdict, hand: Hand, enable: bool, c: Circumstances): Outcome {
    match hand
    case NotConfirmed => Outcome(verdict, None)
    case OtherFormat => Outcome(verdict, Some(NotBthome))
    case Handed(found) => Outcome(verdict, Some(Followed(EndSync(found, KeyFor(enable, verdict) == None, c).status)))
  }

  // ----- calls interleaved

  datatype Stage = Asked | AtEntry(verdict: Verdict, hand: Hand) | Over(outcome: Outcome)

  datatype Office = Office(world: World, stages: seq<Stage>)

  /** A call gives up its lock or reports; or any other command gives up a device's lock, the device being this now. */
  datatype Event = Unlock(n: nat) | Answer(n: nat) | Other(mac: string, dev: Device)

  predicate Enabled(o: Office, calls: seq<Call>, e: Event) {
    && |o.stages| == |calls|
    && match e
       case Unlock(n) => n < |calls| && o.stages[n].Asked?
       case Answer(n) => n < |calls| && o.stages[n].AtEntry?
       case Other(mac, _) => mac in o.world.devices
  }

  function Apply(o: Office, calls: seq<Call>, e: Event): Office
    requires Enabled(o, calls, e)
  {
    match e
    case Unlock(n) =>
      var r := Release(o.world, calls[n]);
      Office(r.world, o.stages[n := AtEntry(r.verdict, r.hand)])
    case Answer(n) =>
      o.(stages := o.stages[n := Over(Conclude(o.stages[n].verdict, o.stages[n].hand, calls[n].enable, calls[n].c))])
    case Other(mac, dev) => o.(world := o.world.(devices := o.world.devices[mac := dev]))
  }

  predicate Runs(o: Office, calls: seq<Call>, events: seq<Event>)
    decreases |events|
  {
    events == [] || (Enabled(o, calls, events[0]) && Runs(Apply(o, calls, events[0]), calls, events[1..]))
  }

  function After(o: Office, calls: seq<Call>, events: seq<Event>): Office
    requires Runs(o, calls, events)
    decreases |events|
  {
    if events == [] then o else After(Apply(o, calls, events[0]), calls, events[1..])
  }

  // ----- agreement

  /** The key Home Assistant holds for a device is the device's own if it encrypts, and none if it does not. */
  ghost predicate Agrees(w: World, mac: string) {
    && mac in w.devices
    && FindEntry(w.entries, mac).Some?
    && var data := w.entries[FindEntry(w.entries, mac).value].data;
       var d := w.devices[mac];
       if Encrypts(d.blob) then d.key.Some? && CONF_BINDKEY in data && data[CONF_BINDKEY] == Hex(d.key.value)
       else CONF_BINDKEY !in data
  }

  predicate SaysUpdated(o: Outcome) {
    o.verdict.Done? && o.ha == Some(Followed(Updated))
  }

  /** Nothing outside one device and the key of its entry has moved. */
  ghost predicate OnlyAbout(before: World, after: World, mac: string) {
    && before.devices.Keys == after.devices.Keys
    && (forall m | m in before.devices && m != mac :: after.devices[m] == before.devices[m])
    && OnlyKeyOf(before.entries, after.entries, mac)
  }

  lemma SameEntries(entries: seq<Entry>, mac: string)
    ensures OnlyKeyOf(entries, entries, mac)
  {}

  /** A call concerns one device and one key, and an entry moves only after a read-back confirmed the change. */
  lemma CallIsLocal(w: World, call: Call)
    ensures var r := Release(w, call);
            && OnlyAbout(w, r.world, Upper(call.mac))
            && FindEntry(r.world.entries, Upper(call.mac)) == FindEntry(w.entries, Upper(call.mac))
            && (r.world.entries != w.entries ==>
               r.verdict.Done? && r.verdict.advType == ADV_TYPE_BTHOME && r.hand.Handed?)
  {
    hide SetEncryption, StoreKey, EndSync, OnlyKeyOf, FindEntry, Encrypts;
    var (w1, verdict) := DevicePhase(w, call);
    SameEntries(w.entries, Upper(call.mac));
    SyncTouchesOneKey(w.entries, Upper(call.mac), KeyFor(call.enable, verdict), call.updateRaises, call.c);
  }

  lemma KeyStored(data: map<string, string>, key: Option<Key>)
    ensures var after := WithKey(data, key);
            && (key.Some? ==> CONF_BINDKEY in after && after[CONF_BINDKEY] == Hex(key.value))
            && (key == None ==> CONF_BINDKEY !in after)
  {}

  /** A call that says "updated" put device and entry in agreement when it gave up the lock. */
  lemma UpdatedMeansAgreement(w: World, call: Call)
    requires var r := Release(w, call); SaysUpdated(Conclude(r.verdict, r.hand, call.enable, call.c))
    ensures Agrees(Release(w, call).world, Upper(call.mac))
    ensures Encrypts(Release(w, call).world.devices[Upper(call.mac)].blob) == call.enable
  {
    hide SetEncryption, StoreKey, EndSync, FindEntry, Encrypts, WithKey, OnlyKeyOf;
    var mac := Upper(call.mac);
    var (w1, verdict) := DevicePhase(w, call);
    VerdictIsExact(w.devices[mac], call.enable, call.text, call.links);
    var key := KeyFor(call.enable, verdict);
    SyncTouchesOneKey(w1.entries, mac, key, call.updateRaises, call.c);
    KeyStored(w1.entries[FindEntry(w1.entries, mac).value].data, key);
  }

  lemma OtherEntriesStay(before: seq<Entry>, after: seq<Entry>, mac: string, other: string)
    requires OnlyKeyOf(before, after, mac) && Upper(mac) != Upper(other)
    ensures FindEntry(after, other) == FindEntry(before, other)
    ensures FindEntry(before, other).Some? ==>
              after[FindEntry(before, other).value] == before[FindEntry(before, other).value]
  {
    hide FindEntry;
    FindEntryIgnoresData(before, after, other);
  }

  /** A call about one device leaves the agreement of every other as it was. */
  lemma AgreementSurvivesOtherCalls(w: World, call: Call, mac: string)
    requires Agrees(w, mac) && Upper(mac) == mac && Upper(call.mac) != mac
    ensures Agrees(Release(w, call).world, mac)
  {
    hide Release, FindEntry, Encrypts, OnlyKeyOf;
    CallIsLocal(w, call);
    UpperTwice(call.mac);
    OtherEntriesStay(w.entries, Release(w, call).world.entries, Upper(call.mac), mac);
  }

  lemma AgreementSurvivesOtherDevices(o: Office, calls: seq<Call>, e: Event, mac: string)
    requires Enabled(o, calls, e) && !e.Unlock? && !Concerns(calls, e, mac) && Agrees(o.world, mac)
    ensures Agrees(Apply(o, calls, e).world, mac)
  {
    hide FindEntry, Encrypts;
  }

  predicate Concerns(calls: seq<Call>, e: Event, mac: string) {
    match e
    case Unlock(n) => n < |calls| && Upper(calls[n].mac) == mac
    case Answer(_) => false
    case Other(m, _) => m == mac
  }

  /** No event here gives up the lock of this device. */
  predicate Leaves(calls: seq<Call>, events: seq<Event>, mac: string) {
    forall i | 0 <= i < |events| :: !Concerns(calls, events[i], mac)
  }

  lemma LeavesRest(calls: seq<Call>, events: seq<Event>, mac: string)
    requires events != [] && Leaves(calls, events, mac)
    ensures Leaves(calls, events[1..], mac)
  {
    forall i | 0 <= i < |events[1..]|
      ensures !Concerns(calls, events[1..][i], mac)
    {
      assert events[1..][i] == events[i + 1];
    }
  }

  /** Agreement lasts until the device's lock is next given up, whatever calls begin, end or overlap meanwhile. */
  lemma {:induction false} AgreementSurvivesOtherRuns(o: Office, calls: seq<Call>, events: seq<Event>, mac: string)
    requires Runs(o, calls, events) && Agrees(o.world, mac) && Upper(mac) == mac && Leaves(calls, events, mac)
    ensures Agrees(After(o, calls, events).world, mac)
    decreases |events|
  {
    hide Release, Conclude, Agrees;
    if events != [] {
      LeavesRest(calls, events, mac);
      if events[0].Unlock? {
        assert !Concerns(calls, events[0], mac);
        AgreementSurvivesOtherCalls(o.world, calls[events[0].n], mac);
      } else {
        AgreementSurvivesOtherDevices(o, calls, events[0], mac);
      }
      AgreementSurvivesOtherRuns(Apply(o, calls, events[0]), calls, events[1..], mac);
    }
  }

  /** What a call has in hand does not change until it reports, and its report is made from nothing else. */
  lemma {:induction false} HandStays(o: Office, calls: seq<Call>, events: seq<Event>, n: nat)
    requires Runs(o, calls, events) && |o.stages| == |calls| && n < |calls| && !o.stages[n].Asked?
    ensures var now := After(o, calls, events).stages;
            && |now| == |calls|
            && (o.stages[n].Over? ==> now[n] == o.stages[n])
            && (o.stages[n].AtEntry? ==>
                  now[n] == o.stages[n]
                  || now[n] == Over(Conclude(o.stages[n].verdict, o.stages[n].hand, calls[n].enable, calls[n].c)))
    decreases |events|
  {
    hide Release, Conclude;
    if events != [] {
      HandStays(Apply(o, calls, events[0]), calls, events[1..], n);
    }
  }

  /**
   Over every interleaving of any calls on any devices, also of calls that overlap on one device, and with any
   other commands among them: a call that says "updated" leaves the device's entry with exactly its key if it
   encrypts and no key if it does not, from the moment it gives up the device's lock until that lock is next
   given up, by whatever command.
   */
  lemma {:induction false} LatestUpdateAgrees(o: Office, calls: seq<Call>, events: seq<Event>, k: nat)
    requires Runs(o, calls, events) && |o.stages| == |calls|
    requires k < |events| && events[k].Unlock? && events[k].n < |calls|
    requires Leaves(calls, events[k + 1..], Upper(calls[events[k].n].mac))
    requires var now := After(o, calls, events).stages;
             |now| == |calls| && now[events[k].n].Over? && SaysUpdated(now[events[k].n].outcome)
    ensures Agrees(After(o, calls, events).world, Upper(calls[events[k].n].mac))
    decreases |events|
  {
    hide Release, Conclude, Agrees, SaysUpdated, Leaves;
    var o1 := Apply(o, calls, events[0]);
    if k == 0 {
      var n := events[0].n;
      HandStays(o1, calls, events[1..], n);
      UpdatedMeansAgreement(o.world, calls[n]);
      UpperTwice(calls[n].mac);
      AgreementSurvivesOtherRuns(o1, calls, events[1..], Upper(calls[n].mac));
    } else {
      assert events[1..][k - 1] == events[k] && events[1..][k..] == events[k + 1..];
      LatestUpdateAgrees(o1, calls, events[1..], k - 1);
    }
  }

  // ----- one call, changing the device and the entries in place

  method AsyncSetEncryption(t: Thermometer, ha: HomeAssistant, call: Call) returns (out: Outcome)
    modifies t, ha
    ensures var before := World(map[Upper(call.mac) := old(t.State())], old(ha.entries));
            var r := Release(before, call);
            && r.world == World(map[Upper(call.mac) := t.State()], ha.entries)
            && out == Conclude(r.verdict, r.hand, call.enable, call.c)
  {
    hide SetEncryption, StoreKey, EndSync;
    var mac := Upper(call.mac);
    ghost var before := World(map[mac := t.State()], ha.entries);
    var verdict := CallOn(t, call.enable, call.text, call.links);
    assert before.devices[mac := t.State()] == map[mac := t.State()];
    assert DevicePhase(before, call) == (World(map[mac := t.State()], ha.entries), verdict);
    if !verdict.Done? {
      return Outcome(verdict, None);
    }
    if verdict.advType != ADV_TYPE_BTHOME {
      return Outcome(verdict, Some(NotBthome));
    }
    var status := ha.SyncBthome(mac, KeyFor(call.enable, verdict), call.updateRaises, call.c);
    return Outcome(verdict, Some(Followed(status)));
  }
}
