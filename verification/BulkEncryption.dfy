/**
 The bulk job that turns encryption on or off for a fleet: the workers' steps interleaved with what each
 one's call leaves as it gives up its device's lock, and with what it reports some time later. Any number of
 workers may be at work on one device.
 */
module BulkEncryption {
  import opened Wrappers
  import opened Bytes
  import opened Encryption
  import opened EncryptionLaws
  import opened BthomeSync
  import opened Agreement
  import BulkJob
  import BulkLaws

  function ReasonOf(ha: HaStatus): string {
    match ha
    case NotBthome => "not_bthome"
    case Followed(NoEntry) => "no_entry"
    case Followed(SyncFailed) => "failed"
    case Followed(Updated) => "updated"
  }

  /** What one device's call counts as, and the key the user has to take care of, if any. */
  function EncryptOne(mac: string, enable: bool, o: Outcome): BulkJob.OneResult {
    match o.verdict
    case Unsure(key) =>
      BulkJob.OneResult(false, "may have changed",
                        if key.Some? then Some(BulkJob.Manual(mac, key.value, "maybe_changed")) else None)
    case Done(key, _, _, _) =>
      var ha := if o.ha.Some? then o.ha.value else NotBthome;
      var manual := if enable && ha != Followed(Updated) && key.Some?
                    then Some(BulkJob.Manual(mac, key.value, ReasonOf(ha))) else None;
      if ha == Followed(SyncFailed) then BulkJob.OneResult(false, "BTHome entry not updated", manual)
      else BulkJob.OneResult(true, "", manual)
    case _ => BulkJob.OneResult(false, "failed", None)
  }

  /** What a worker's call has in hand between giving up its device's lock and being done. */
  datatype Pending = Pending(verdict: Verdict, hand: Hand)

  /** The job, the world, and what each worker's call has in hand. */
  datatype Fleet = Fleet(s: BulkJob.State, world: World, pending: seq<Option<Pending>>)

  datatype Event =
    | Begin(w: nat)
    | GiveUpLock(w: nat, links: seq<Link>, updateRaises: bool)
    | Report(w: nat, c: Circumstances)
    | Leave(w: nat)
    | Finish
    | Cancel

  function DeviceOf(f: Fleet, w: nat): string
    requires w < |f.s.workers| && f.s.workers[w].pos < |f.s.workers[w].devs|
  {
    f.s.workers[w].devs[f.s.workers[w].pos]
  }

  predicate AtWork(f: Fleet, w: nat) {
    w < |f.s.workers| == |f.pending| && f.s.workers[w].busy && f.s.workers[w].pos < |f.s.workers[w].devs|
  }

  predicate Enabled(f: Fleet, e: Event) {
    |f.pending| == |f.s.workers| &&
    match e
    case Begin(w) => BulkJob.Enabled(f.s, BulkJob.Begin(w))
    case GiveUpLock(w, _, _) => AtWork(f, w) && f.pending[w] == None
    case Report(w, _) => AtWork(f, w) && f.pending[w].Some?
    case Leave(w) => BulkJob.Enabled(f.s, BulkJob.Leave(w))
    case Finish => BulkJob.Enabled(f.s, BulkJob.Finish)
    case Cancel => true
  }

  const NO_TROUBLE := Circumstances(false, false, false, false)

  function CallOf(mac: string, enable: bool, links: seq<Link>, updateRaises: bool): Call {
    Call(mac, enable, "", links, updateRaises, NO_TROUBLE)
  }

  function OutcomeOf(f: Fleet, enable: bool, w: nat, c: Circumstances): Outcome
    requires w < |f.pending| && f.pending[w].Some?
  {
    Conclude(f.pending[w].value.verdict, f.pending[w].value.hand, enable, c)
  }

  function Apply(f: Fleet, enable: bool, e: Event): Fleet
    requires Enabled(f, e)
  {
    match e
    case Begin(w) => f.(s := BulkJob.Apply(f.s, BulkJob.Begin(w)))
    case GiveUpLock(w, links, updateRaises) =>
      var r := Release(f.world, CallOf(DeviceOf(f, w), enable, links, updateRaises));
      f.(world := r.world, pending := f.pending[w := Some(Pending(r.verdict, r.hand))])
    case Report(w, c) =>
      var res := EncryptOne(DeviceOf(f, w), enable, OutcomeOf(f, enable, w, c));
      f.(s := BulkJob.Apply(f.s, BulkJob.End(w, res)), pending := f.pending[w := None])
    case Leave(w) => f.(s := BulkJob.Apply(f.s, BulkJob.Leave(w)))
    case Finish => f.(s := BulkJob.Apply(f.s, BulkJob.Finish))
    case Cancel => f.(s := BulkJob.Apply(f.s, BulkJob.Cancel))
  }

  predicate Runs(f: Fleet, enable: bool, events: seq<Event>)
    decreases |events|
  {
    events == [] || (Enabled(f, events[0]) && Runs(Apply(f, enable, events[0]), enable, events[1..]))
  }

  function After(f: Fleet, enable: bool, events: seq<Event>): Fleet
    requires Runs(f, enable, events)
    decreases |events|
  {
    if events == [] then f else After(Apply(f, enable, events[0]), enable, events[1..])
  }

  // ----- where a device's key can be found

  ghost predicate Listed(f: Fleet, mac: string, key: Key) {
    exists i | 0 <= i < |f.s.job.manual| :: f.s.job.manual[i].mac == mac && f.s.job.manual[i].bindKey == key
  }

  ghost predicate InEntry(world: World, mac: string, key: Key) {
    && FindEntry(world.entries, mac).Some?
    && var data := world.entries[FindEntry(world.entries, mac).value].data;
       CONF_BINDKEY in data && data[CONF_BINDKEY] == Hex(key)
  }

  /** Worker `w` still has to report this device's key, and will list it: no entry took it over. */
  ghost predicate WillList(f: Fleet, enable: bool, w: nat, mac: string, key: Key) {
    && AtWork(f, w) && DeviceOf(f, w) == mac && f.pending[w].Some?
    && var p := f.pending[w].value;
       ReportedKey(p.verdict) == Some(key) && !(p.hand.Handed? && p.hand.found.InStore?) && (p.verdict.Done? ==> enable)
  }

  /** A device's key is the one it started with, or it is listed, in its entry, or about to be listed. */
  ghost predicate KeyIsKnown(f: Fleet, enable: bool, before: World, mac: string)
    requires mac in f.world.devices && mac in before.devices
  {
    var key := f.world.devices[mac].key;
    || key == before.devices[mac].key
    || (enable && key.Some? &&
        (Listed(f, mac, key.value) || InEntry(f.world, mac, key.value)
         || exists w :: WillList(f, enable, w, mac, key.value)))
  }

  ghost predicate UpperDevs(workers: seq<BulkJob.Worker>) {
    forall w, i | 0 <= w < |workers| && 0 <= i < |workers[w].devs| :: Upper(workers[w].devs[i]) == workers[w].devs[i]
  }

  ghost predicate Inv(f: Fleet, enable: bool, before: World) {
    && |f.pending| == |f.s.workers|
    && UpperDevs(f.s.workers)
    && (forall w | 0 <= w < |f.s.workers| && !f.s.workers[w].busy :: f.pending[w] == None)
    && f.world.devices.Keys == before.devices.Keys
    && forall mac | mac in f.world.devices && Upper(mac) == mac :: KeyIsKnown(f, enable, before, mac)
  }

  // ----- every step keeps every key within reach

  lemma SameDevs(a: seq<BulkJob.Worker>, b: seq<BulkJob.Worker>)
    requires |a| == |b| && forall w | 0 <= w < |a| :: a[w].devs == b[w].devs
    ensures UpperDevs(a) == UpperDevs(b)
  {}

  lemma StillListed(f: Fleet, g: Fleet, mac: string, key: Key)
    requires f.s.job.manual <= g.s.job.manual && Listed(f, mac, key)
    ensures Listed(g, mac, key)
  {
    var i :| 0 <= i < |f.s.job.manual| && f.s.job.manual[i].mac == mac && f.s.job.manual[i].bindKey == key;
    assert g.s.job.manual[i] == f.s.job.manual[i];
  }

  /** A step that moves no device or entry, and only adds to the list, loses no key unless a worker lets go of it. */
  lemma SameHandsSameKey(f: Fleet, g: Fleet, enable: bool, before: World, mac: string)
    requires mac in f.world.devices && mac in before.devices && KeyIsKnown(f, enable, before, mac)
    requires g.world == f.world && f.s.job.manual <= g.s.job.manual
    requires forall w, key | WillList(f, enable, w, mac, key) :: WillList(g, enable, w, mac, key) || Listed(g, mac, key)
    ensures KeyIsKnown(g, enable, before, mac)
  {
    hide InEntry, WillList;
    var key := f.world.devices[mac].key;
    if key != before.devices[mac].key {
      if Listed(f, mac, key.value) {
        StillListed(f, g, mac, key.value);
      } else if w :| WillList(f, enable, w, mac, key.value) {
        assert WillList(g, enable, w, mac, key.value) || Listed(g, mac, key.value);
      }
    }
  }

  /** The steps that concern only the job record. */
  lemma JobStepKeepsInv(f: Fleet, enable: bool, before: World, e: Event)
    requires Inv(f, enable, before) && Enabled(f, e) && !e.GiveUpLock? && !e.Report?
    ensures Inv(Apply(f, enable, e), enable, before)
  {
    hide InEntry, UpperDevs, KeyIsKnown;
    var g := Apply(f, enable, e);
    assert g.world == f.world && g.pending == f.pending && g.s.job.manual == f.s.job.manual;
    assert |g.s.workers| == |f.s.workers|;
    assert forall w | 0 <= w < |f.s.workers| :: g.s.workers[w].devs == f.s.workers[w].devs
             && (f.pending[w].Some? ==> g.s.workers[w] == f.s.workers[w])
             && (!g.s.workers[w].busy ==> !f.s.workers[w].busy);
    SameDevs(f.s.workers, g.s.workers);
    forall mac | mac in g.world.devices && Upper(mac) == mac
      ensures KeyIsKnown(g, enable, before, mac)
    {
      SameHandsSameKey(f, g, enable, before, mac);
    }
  }

  lemma LockStepKeepsInv(f: Fleet, enable: bool, before: World, w: nat, links: seq<Link>, updateRaises: bool)
    requires Inv(f, enable, before) && Enabled(f, GiveUpLock(w, links, updateRaises))
    ensures Inv(Apply(f, enable, GiveUpLock(w, links, updateRaises)), enable, before)
  {
    hide InEntry, Release, KeyIsKnown, OnlyKeyOf;
    CallIsLocal(f.world, CallOf(DeviceOf(f, w), enable, links, updateRaises));
    var g := Apply(f, enable, GiveUpLock(w, links, updateRaises));
    assert Upper(DeviceOf(f, w)) == DeviceOf(f, w);
    forall mac | mac in g.world.devices && Upper(mac) == mac
      ensures KeyIsKnown(g, enable, before, mac)
    {
      if mac == DeviceOf(f, w) {
        LockStepKeepsOwnKey(f, enable, before, w, links, updateRaises);
      } else {
        LockStepKeepsOtherKey(f, enable, before, w, links, updateRaises, mac);
      }
    }
  }

  lemma LockStepKeepsOtherKey(f: Fleet, enable: bool, before: World, w: nat, links: seq<Link>, updateRaises: bool,
                              mac: string)
    requires Inv(f, enable, before) && Enabled(f, GiveUpLock(w, links, updateRaises))
    requires mac in f.world.devices && Upper(mac) == mac && mac != DeviceOf(f, w)
    ensures var g := Apply(f, enable, GiveUpLock(w, links, updateRaises));
            mac in g.world.devices && KeyIsKnown(g, enable, before, mac)
  {
    hide Release, OnlyKeyOf, FindEntry;
    var call := CallOf(DeviceOf(f, w), enable, links, updateRaises);
    CallIsLocal(f.world, call);
    var g := Apply(f, enable, GiveUpLock(w, links, updateRaises));
    assert Upper(DeviceOf(f, w)) == DeviceOf(f, w) && KeyIsKnown(f, enable, before, mac);
    OtherEntriesStay(f.world.entries, g.world.entries, DeviceOf(f, w), mac);
    var key := f.world.devices[mac].key;
    if key != before.devices[mac].key {
      if Listed(f, mac, key.value) {
        StillListed(f, g, mac, key.value);
      } else if v :| WillList(f, enable, v, mac, key.value) {
        assert WillList(g, enable, v, mac, key.value);
      }
    }
  }

  /** A new key is in the verdict, and either in the entry or to be listed; an old one keeps its place. */
  lemma ReleaseKeepsKey(world: World, mac: string, enable: bool, links: seq<Link>, updateRaises: bool)
    requires mac in world.devices && Upper(mac) == mac
    ensures var r := Release(world, CallOf(mac, enable, links, updateRaises));
            && mac in r.world.devices
            && var key := r.world.devices[mac].key;
               && (key != world.devices[mac].key ==> enable && key.Some? && ReportedKey(r.verdict) == key)
               && (r.hand.Handed? && r.hand.found.InStore? && enable && key.Some? ==> InEntry(r.world, mac, key.value))
               && (!(r.hand.Handed? && r.hand.found.InStore?) ==> r.world.entries == world.entries)
  {
    hide SetEncryption, StoreKey, EndSync, FindEntry, WithKey, OnlyKeyOf;
    var call := CallOf(mac, enable, links, updateRaises);
    NoKeyIsLost(world.devices[mac], enable, "", links);
    VerdictIsExact(world.devices[mac], enable, "", links);
    var (w1, verdict) := DevicePhase(world, call);
    var key := KeyFor(enable, verdict);
    SyncTouchesOneKey(w1.entries, mac, key, updateRaises, NO_TROUBLE);
    if verdict.Done? && StoreKey(w1.entries, mac, key, updateRaises).found.InStore? {
      KeyStored(w1.entries[FindEntry(w1.entries, mac).value].data, key);
    }
  }

  lemma LockStepKeepsOwnKey(f: Fleet, enable: bool, before: World, w: nat, links: seq<Link>, updateRaises: bool)
    requires Inv(f, enable, before) && Enabled(f, GiveUpLock(w, links, updateRaises))
    requires DeviceOf(f, w) in f.world.devices
    ensures var g := Apply(f, enable, GiveUpLock(w, links, updateRaises));
            DeviceOf(f, w) in g.world.devices && KeyIsKnown(g, enable, before, DeviceOf(f, w))
  {
    hide Release, FindEntry;
    var mac := DeviceOf(f, w);
    var g := Apply(f, enable, GiveUpLock(w, links, updateRaises));
    assert Upper(mac) == mac && KeyIsKnown(f, enable, before, mac);
    ReleaseKeepsKey(f.world, mac, enable, links, updateRaises);
    var p := g.pending[w].value;
    var key := g.world.devices[mac].key;
    var stored := p.hand.Handed? && p.hand.found.InStore?;
    if key != before.devices[mac].key && !(enable && key.Some? && InEntry(g.world, mac, key.value)) {
      if key != f.world.devices[mac].key {
        assert WillList(g, enable, w, mac, key.value);
      } else if Listed(f, mac, key.value) {
        StillListed(f, g, mac, key.value);
      } else {
        assert !stored && g.world.entries == f.world.entries;
        var v :| WillList(f, enable, v, mac, key.value);
        assert WillList(g, enable, v, mac, key.value);
      }
    }
  }

  /** A key that a call reports and no entry was confirmed to hold is listed as the call is done. */
  lemma UnfollowedKeyIsListed(f: Fleet, enable: bool, w: nat, c: Circumstances, key: Key)
    requires Enabled(f, Report(w, c)) && ReportedKey(f.pending[w].value.verdict) == Some(key)
    requires f.pending[w].value.verdict.Done? ==> enable
    ensures SaysUpdated(OutcomeOf(f, enable, w, c)) || Listed(Apply(f, enable, Report(w, c)), DeviceOf(f, w), key)
  {
    hide EndSync;
    var mac := DeviceOf(f, w);
    var g := Apply(f, enable, Report(w, c));
    var o := OutcomeOf(f, enable, w, c);
    if !SaysUpdated(o) {
      var res := EncryptOne(mac, enable, o);
      assert res.manual.Some? && res.manual.value.mac == mac && res.manual.value.bindKey == key;
      assert g.s.job.manual == f.s.job.manual + [res.manual.value];
      assert g.s.job.manual[|f.s.job.manual|] == res.manual.value;
    }
  }

  lemma ReportStepKeepsInv(f: Fleet, enable: bool, before: World, w: nat, c: Circumstances)
    requires Inv(f, enable, before) && Enabled(f, Report(w, c))
    ensures Inv(Apply(f, enable, Report(w, c)), enable, before)
  {
    hide InEntry, EncryptOne, KeyIsKnown, UpperDevs;
    var g := Apply(f, enable, Report(w, c));
    assert |g.s.workers| == |f.s.workers| && f.s.job.manual <= g.s.job.manual;
    assert forall v | 0 <= v < |f.s.workers| :: g.s.workers[v].devs == f.s.workers[v].devs
             && (v != w ==> g.s.workers[v] == f.s.workers[v] && g.pending[v] == f.pending[v]);
    SameDevs(f.s.workers, g.s.workers);
    forall mac | mac in g.world.devices && Upper(mac) == mac
      ensures KeyIsKnown(g, enable, before, mac)
    {
      forall v, key | WillList(f, enable, v, mac, key)
        ensures WillList(g, enable, v, mac, key) || Listed(g, mac, key)
      {
        if v == w {
          UnfollowedKeyIsListed(f, enable, w, c, key);
        }
      }
      SameHandsSameKey(f, g, enable, before, mac);
    }
  }

  lemma {:induction false} RunKeepsInv(f: Fleet, enable: bool, before: World, events: seq<Event>)
    requires Inv(f, enable, before) && Runs(f, enable, events)
    ensures Inv(After(f, enable, events), enable, before)
    decreases |events|
  {
    hide Inv, Apply, Enabled;
    if events != [] {
      match events[0] {
        case GiveUpLock(w, links, updateRaises) => LockStepKeepsInv(f, enable, before, w, links, updateRaises);
        case Report(w, c) => ReportStepKeepsInv(f, enable, before, w, c);
        case _ => JobStepKeepsInv(f, enable, before, events[0]);
      }
      RunKeepsInv(Apply(f, enable, events[0]), enable, before, events[1..]);
    }
  }

  // ----- whole jobs

  lemma {:induction false} NamedAreUpper(requests: seq<BulkJob.Request>)
    ensures forall i | 0 <= i < |BulkJob.Named(requests)| ::
            Upper(BulkJob.Named(requests)[i].mac) == BulkJob.Named(requests)[i].mac
  {
    if requests != [] {
      NamedAreUpper(requests[..|requests| - 1]);
      UpperTwice(requests[|requests| - 1].mac);
    }
  }

  lemma {:induction false} DevsAreNamed(named: seq<BulkJob.Request>, proxy: string, i: nat)
    requires i < |BulkJob.DevsOf(named, proxy)|
    ensures exists j | 0 <= j < |named| :: named[j].mac == BulkJob.DevsOf(named, proxy)[i]
  {
    var init, last := named[..|named| - 1], named[|named| - 1];
    if i < |BulkJob.DevsOf(init, proxy)| {
      DevsAreNamed(init, proxy, i);
      var j :| 0 <= j < |init| && init[j].mac == BulkJob.DevsOf(init, proxy)[i];
      assert named[j].mac == BulkJob.DevsOf(named, proxy)[i];
    } else {
      assert named[|named| - 1].mac == BulkJob.DevsOf(named, proxy)[i];
    }
  }

  lemma StartedDevsAreUpper(requests: seq<BulkJob.Request>)
    requires BulkJob.Started(requests).Some?
    ensures UpperDevs(BulkJob.Started(requests).value.workers)
  {
    var named := BulkJob.Named(requests);
    hide BulkJob.Named, BulkJob.DevsOf, BulkJob.Proxies;
    NamedAreUpper(requests);
    var workers := BulkJob.Started(requests).value.workers;
    forall w, i | 0 <= w < |workers| && 0 <= i < |workers[w].devs|
      ensures Upper(workers[w].devs[i]) == workers[w].devs[i]
    {
      DevsAreNamed(named, BulkJob.Proxies(named)[w], i);
    }
  }

  /** A job just started over a world nobody has touched yet. */
  function FleetOf(s: BulkJob.State, world: World): Fleet {
    Fleet(s, world, seq(|s.workers|, _ => None))
  }

  /**
   Over a whole bulk job, in every interleaving, for any list of devices, also with one device under several
   proxies, and whatever the links and Home Assistant do, no device's key gets out of reach: it is the key the
   device had before, or the job lists it or is about to, or the device's BTHome entry holds it. Once the job
   is over nothing is about to be listed any more. A bulk disable changes no key.
   */
  lemma NoKeyIsLostInBulk(requests: seq<BulkJob.Request>, enable: bool, world: World, events: seq<Event>, mac: string)
    requires BulkJob.Started(requests).Some?
    requires Runs(FleetOf(BulkJob.Started(requests).value, world), enable, events)
    requires mac in world.devices && Upper(mac) == mac
    ensures var f := After(FleetOf(BulkJob.Started(requests).value, world), enable, events);
            && mac in f.world.devices
            && KeyIsKnown(f, enable, world, mac)
            && (!f.s.job.active ==>
                  var key := f.world.devices[mac].key;
                  key == world.devices[mac].key
                  || (enable && key.Some? && (Listed(f, mac, key.value) || InEntry(f.world, mac, key.value))))
  {
    hide Runs, After, BulkJob.Started, InEntry;
    var s := BulkJob.Started(requests).value;
    var f0 := FleetOf(s, world);
    StartedDevsAreUpper(requests);
    BulkLaws.StartHoldsInv(requests);
    assert Inv(f0, enable, world);
    RunKeepsInv(f0, enable, world, events);
    var f := After(f0, enable, events);
    assert KeyIsKnown(f, enable, world, mac);
    if !f.s.job.active {
      JobRunKeepsInv(f0, enable, events);
    }
  }

  lemma JobInvOfStep(f: Fleet, enable: bool, e: Event)
    requires BulkLaws.Inv(f.s) && Enabled(f, e)
    ensures BulkLaws.Inv(Apply(f, enable, e).s)
    ensures f.s.job.manual <= Apply(f, enable, e).s.job.manual
  {
    hide BulkLaws.Inv, Release, EncryptOne;
    match e {
      case Begin(w) => BulkLaws.StepKeepsInv(f.s, BulkJob.Begin(w));
      case GiveUpLock(_, _, _) =>
      case Report(w, c) =>
        BulkLaws.StepKeepsInv(f.s, BulkJob.End(w, EncryptOne(DeviceOf(f, w), enable, OutcomeOf(f, enable, w, c))));
      case Leave(w) => BulkLaws.StepKeepsInv(f.s, BulkJob.Leave(w));
      case Finish => BulkLaws.StepKeepsInv(f.s, BulkJob.Finish);
      case Cancel => BulkLaws.StepKeepsInv(f.s, BulkJob.Cancel);
    }
  }

  lemma {:induction false} JobRunKeepsInv(f: Fleet, enable: bool, events: seq<Event>)
    requires BulkLaws.Inv(f.s) && Runs(f, enable, events)
    ensures BulkLaws.Inv(After(f, enable, events).s)
    ensures f.s.job.manual <= After(f, enable, events).s.job.manual
    decreases |events|
  {
    hide BulkLaws.Inv, Enabled, Apply;
    if events != [] {
      JobInvOfStep(f, enable, events[0]);
      JobRunKeepsInv(Apply(f, enable, events[0]), enable, events[1..]);
    }
  }

  /** A call that is in hand was made by this job: confirmed with a key only by an enable. */
  ghost predicate HandsAreOwn(f: Fleet, enable: bool) {
    forall w | 0 <= w < |f.pending| && f.pending[w].Some? && f.pending[w].value.verdict.Done? ::
      f.pending[w].value.verdict.key.Some? ==> enable
  }

  lemma StepKeepsHands(f: Fleet, enable: bool, e: Event)
    requires HandsAreOwn(f, enable) && Enabled(f, e)
    ensures HandsAreOwn(Apply(f, enable, e), enable)
  {
    if e.GiveUpLock? {
      hide SetEncryption, StoreKey;
      var mac := Upper(DeviceOf(f, e.w));
      if mac in f.world.devices {
        VerdictIsExact(f.world.devices[mac], enable, "", e.links);
      }
    }
  }

  /** The outcomes a run reports, with their devices, in order. */
  function Reports(f: Fleet, enable: bool, events: seq<Event>): seq<(string, Outcome)>
    requires Runs(f, enable, events)
    decreases |events|
  {
    if events == [] then []
    else
      var rest := Reports(Apply(f, enable, events[0]), enable, events[1..]);
      if events[0].Report? then [(DeviceOf(f, events[0].w), OutcomeOf(f, enable, events[0].w, events[0].c))] + rest
        else rest
  }

  lemma {:induction false} ReportedKeysAreListed(f: Fleet, enable: bool, events: seq<Event>, k: nat, key: Key)
    requires BulkLaws.Inv(f.s) && HandsAreOwn(f, enable) && Runs(f, enable, events)
    requires k < |Reports(f, enable, events)|
    requires var o := Reports(f, enable, events)[k].1; ReportedKey(o.verdict) == Some(key) && !SaysUpdated(o)
    ensures Listed(After(f, enable, events), Reports(f, enable, events)[k].0, key)
    decreases |events|
  {
    hide BulkLaws.Inv, Apply, SaysUpdated, Listed, HandsAreOwn;
    var e, g := events[0], Apply(f, enable, events[0]);
    StepKeepsHands(f, enable, e);
    JobInvOfStep(f, enable, e);
    if e.Report? && k == 0 {
      OwnReportIsListed(f, enable, e.w, e.c, key);
      JobRunKeepsInv(g, enable, events[1..]);
      StillListed(g, After(f, enable, events), DeviceOf(f, e.w), key);
    } else {
      ReportedKeysAreListed(g, enable, events[1..], if e.Report? then k - 1 else k, key);
    }
  }

  /**
   Over a whole job, in every interleaving: every key in the outcome of a call whose entry was not updated
   stands in the job's list at the end, under its device, and in the result once there is one.
   */
  lemma UnfollowedKeysAreListed(requests: seq<BulkJob.Request>, enable: bool, world: World, events: seq<Event>, k: nat,
                                key: Key)
    requires BulkJob.Started(requests).Some?
    requires var f := FleetOf(BulkJob.Started(requests).value, world);
             && Runs(f, enable, events) && k < |Reports(f, enable, events)|
             && var o := Reports(f, enable, events)[k].1; ReportedKey(o.verdict) == Some(key) && !SaysUpdated(o)
    ensures var f := FleetOf(BulkJob.Started(requests).value, world);
            var g := After(f, enable, events);
            && Listed(g, Reports(f, enable, events)[k].0, key)
            && (g.s.job.result.Some? ==> g.s.job.result.value.manual == g.s.job.manual)
  {
    hide Runs, After, Reports, BulkJob.Started, SaysUpdated, Listed;
    var f := FleetOf(BulkJob.Started(requests).value, world);
    BulkLaws.StartHoldsInv(requests);
    ReportedKeysAreListed(f, enable, events, k, key);
    JobRunKeepsInv(f, enable, events);
  }

  lemma OwnReportIsListed(f: Fleet, enable: bool, w: nat, c: Circumstances, key: Key)
    requires HandsAreOwn(f, enable) && Enabled(f, Report(w, c))
    requires var o := OutcomeOf(f, enable, w, c); ReportedKey(o.verdict) == Some(key) && !SaysUpdated(o)
    ensures Listed(Apply(f, enable, Report(w, c)), DeviceOf(f, w), key)
  {
    hide EndSync;
    UnfollowedKeyIsListed(f, enable, w, c, key);
  }
}
