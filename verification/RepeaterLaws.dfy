/**
 What a repeater job can come to: nothing is sent unless all of it can be, retries end where one
 undisturbed attempt would, and each part is reported as the device holds it.
 */
module RepeaterLaws {
  import opened Wrappers
  import opened Bytes
  import opened Logs
  import opened RepeaterConfig
  import opened RepeaterAddress
  import opened RepeaterWrite

  // ----- retries do not change where a job ends

  /** A device that keeps what it is sent, and answers a write only when it has it. */
  ghost predicate Honest(l: Link) {
    l.Connected? ==>
      && l.clamped == None
      && forall answered: bool ::
           && (Replies(answered, l.cfgWrite) ==> Lands(answered, l.cfgWrite))
           && (Replies(answered, l.sourceWrite) ==> Lands(answered, l.sourceWrite))
           && (Replies(answered, l.keyWrite) ==> Lands(answered, l.keyWrite))
  }

  ghost predicate AllHonest(links: seq<Link>) {
    forall i | 0 <= i < |links| :: Honest(links[i])
  }

  /** The device with everything that was ordered. */
  function Complete(d: Repeater, ps: Payloads): Repeater {
    Repeater(if ps.cfg.Some? then ps.cfg.value else d.cfg,
             if ps.source.Some? then ps.source.value else d.source,
             if ps.key.Some? then StoredKey(ps.key.value) else d.key)
  }

  /** Each of the three is either as it was or as ordered. */
  ghost predicate Between(d: Repeater, ps: Payloads, dev: Repeater) {
    var c := Complete(d, ps);
    (dev.cfg == d.cfg || dev.cfg == c.cfg) && (dev.source == d.source || dev.source == c.source)
      && (dev.key == d.key || dev.key == c.key)
  }

  /** Whether a configuration order stands on its own, so that it does not matter what the device held. */
  predicate Standalone(v: Values) {
    v == map[] || AllKnown(v)
  }

  predicate Sound(job: Job) {
    match job
    case Change(_) => true
    case Restoring(found) => found.Some? ==> Standalone(found.value.cfg)
  }

  lemma SnapshotIsSound(snap: RepeaterSnapshot, parts: set<Part>)
    ensures Sound(Restoring(SnapshotOrder(snap, parts)))
  {}

  lemma CurrentDoesNotMatter(a: Values, b: Values, v: Values)
    requires AllKnown(v)
    ensures BuildCfg(a, v) == BuildCfg(b, v)
  {
    hide Encode;
  }

  /** Wherever an attempt was cut off, the next one prepares the same payloads again. */
  lemma SamePayloads(d: Repeater, dev: Repeater, o: Order, ps: Payloads)
    requires Prepare(ParsePayload(d.cfg), o) == Ok(ps) && Between(d, ps, dev)
    ensures Prepare(ParsePayload(dev.cfg), o) == Ok(ps)
  {
    hide BuildCfg, MacToLe, KeyOf, SourceText, ParsePayload;
    if o.cfg != map[] && dev.cfg != d.cfg {
      BuildTwice(ParsePayload(d.cfg), o.cfg);
    }
  }

  /** What preparing means for a sound job: the same payloads, whatever of the device could be read. */
  lemma SoundPrepare(d: Repeater, o: Order)
    requires Standalone(o.cfg)
    ensures Prepare(map[], o) == Prepare(ParsePayload(d.cfg), o)
  {
    hide BuildCfg, MacToLe, KeyOf, SourceText, ParsePayload;
    if o.cfg != map[] {
      CurrentDoesNotMatter(map[], ParsePayload(d.cfg), o.cfg);
    }
  }

  /** The parts that were ordered, and whether each is confirmed once the device holds all of them. */
  function Confirmed(ps: Payloads): map<Part, bool> {
    var none: map<Part, bool> := map[];
    var cfg := if ps.cfg.Some? then none[ConfigPart := true] else none;
    var source := if ps.source.Some? then cfg[SourcePart := Canonical(ps.sourceText, 6)] else cfg;
    if ps.key.Some? then source[KeyPart := true] else source
  }

  lemma CfgStep(d: Repeater, ps: Payloads, dev: Repeater, l: Link)
    requires l.Connected? && Honest(l) && Between(d, ps, dev)
    ensures var p := DoCfg(Going(dev, [], false, map[]), ps, l);
            && Between(d, ps, p.dev)
            && (p.Going? ==> p.dev.cfg == Complete(d, ps).cfg && p.parts == Confirmed(ps.(source := None, key := None)))
  {
    hide Replies, Lands, TriesOf, Canonical, StoredKey;
  }

  lemma SourceStep(d: Repeater, ps: Payloads, p0: Progress, l: Link)
    requires l.Connected? && Honest(l) && Between(d, ps, p0.dev)
    requires ps.source.Some? ==> MacToLe(ps.sourceText) == ps.source
    requires p0.Going? ==> p0.dev.cfg == Complete(d, ps).cfg && p0.parts == Confirmed(ps.(source := None, key := None))
    ensures var p := DoSource(p0, ps, l);
            && Between(d, ps, p.dev)
            && (p.Going? ==> && p.dev.cfg == Complete(d, ps).cfg && p.dev.source == Complete(d, ps).source
                             && p.parts == Confirmed(ps.(key := None)))
  {
    hide Replies, Lands, TriesOf, Canonical, StoredKey, MacToLe, MacFromLe, Upper;
    ConfirmedIffCanonical(ps.sourceText);
  }

  lemma KeyStep(d: Repeater, ps: Payloads, p0: Progress, l: Link)
    requires l.Connected? && Honest(l) && Between(d, ps, p0.dev)
    requires p0.Going? ==> && p0.dev.cfg == Complete(d, ps).cfg && p0.dev.source == Complete(d, ps).source
                           && p0.parts == Confirmed(ps.(key := None))
    ensures var p := DoKey(p0, ps, l);
            && Between(d, ps, p.dev)
            && (p.Going? ==> p.dev == Complete(d, ps) && p.parts == Confirmed(ps))
  {
    hide Replies, Lands, TriesOf, Canonical;
  }

  lemma ApplyReachesTheEnd(d: Repeater, ps: Payloads, dev: Repeater, l: Link)
    requires l.Connected? && Honest(l) && Between(d, ps, dev)
    requires ps.source.Some? ==> MacToLe(ps.sourceText) == ps.source
    ensures var p := Apply(dev, ps, l);
            && Between(d, ps, p.dev)
            && (p.Going? ==> p.dev == Complete(d, ps) && p.parts == Confirmed(ps))
  {
    hide DoCfg, DoSource, DoKey, Between, Honest, Confirmed, MacToLe;
    if l.opensAgain {
      var p0 := Going(dev, [], false, map[]);
      CfgStep(d, ps, dev, l);
      SourceStep(d, ps, DoCfg(p0, ps, l), l);
      KeyStep(d, ps, DoSource(DoCfg(p0, ps, l), ps, l), l);
    }
  }

  // ----- whole runs

  /** The order behind a job, if its snapshot can be read at all. */
  function OrderBehind(job: Job): Option<Order> {
    match job case Change(o) => Some(o) case Restoring(found) => found
  }

  /** What a run that starts on this device can come to. */
  ghost predicate EndsWell(d: Repeater, ps: Payloads, run: Run) {
    && Between(d, ps, run.dev)
    && (run.verdict.Applied? ==>
          && run.dev == Complete(d, ps)
          && run.verdict.parts == Confirmed(ps)
          && (run.verdict.ok <==> Confirmed(ps) != map[] && (ps.source.Some? ==> Canonical(ps.sourceText, 6))))
  }

  lemma AllConfirmed(ps: Payloads)
    ensures (forall part | part in Confirmed(ps) :: Confirmed(ps)[part])
            <==> (ps.source.Some? ==> Canonical(ps.sourceText, 6))
  {
    hide Canonical;
    var m := Confirmed(ps);
    if ps.source.Some? {
      assert SourcePart in m && m[SourcePart] == Canonical(ps.sourceText, 6);
    }
  }

  lemma PreparedAddress(current: Values, o: Order)
    requires Prepare(current, o).Ok?
    ensures var ps := Prepare(current, o).value; ps.source.Some? ==> MacToLe(ps.sourceText) == ps.source
  {
    hide MacToLe, SourceText, KeyOf, BuildCfg;
  }

  lemma PreparedReachesTheEnd(d: Repeater, o: Order, ps: Payloads, dev: Repeater, current: Values, l: Link)
    requires l.Connected? && Honest(l) && Between(d, ps, dev) && Prepare(current, o) == Ok(ps)
    ensures var a := Prepared(dev, current, o, l);
            && Between(d, ps, a.dev)
            && (a.Returned? ==> a.verdict.Applied? && EndsWell(d, ps, Run(a.dev, [a.log], a.verdict)))
  {
    hide Apply, Between, Honest, Confirmed, MacToLe, Canonical, Prepare;
    PreparedAddress(current, o);
    ApplyReachesTheEnd(d, ps, dev, l);
    AllConfirmed(ps);
  }

  lemma TryReachesTheEnd(d: Repeater, job: Job, o: Order, ps: Payloads, dev: Repeater, l: Link)
    requires l.Connected? && Honest(l) && Sound(job) && OrderBehind(job) == Some(o)
    requires Prepare(ParsePayload(d.cfg), o) == Ok(ps) && Between(d, ps, dev)
    ensures var a := TryJob(dev, job, l);
            && Between(d, ps, a.dev)
            && (a.Returned? ==> EndsWell(d, ps, Run(a.dev, [a.log], a.verdict)))
  {
    hide Between, Honest, Confirmed, Canonical, Prepare, Prepared, Standalone, ParsePayload;
    SamePayloads(d, dev, o, ps);
    PreparedReachesTheEnd(d, o, ps, dev, ParsePayload(dev.cfg), l);
    if job.Restoring? {
      SoundPrepare(dev, o);
      PreparedReachesTheEnd(d, o, ps, dev, map[], l);
    }
  }

  lemma {:induction false} RunReachesTheEnd(d: Repeater, job: Job, o: Order, ps: Payloads, dev: Repeater,
                                            links: seq<Link>,
                                            rediscovered: bool, last: Failure)
    requires AllHonest(links) && Sound(job) && OrderBehind(job) == Some(o)
    requires Prepare(ParsePayload(d.cfg), o) == Ok(ps) && Between(d, ps, dev)
    ensures EndsWell(d, ps, Retry(dev, job, links, rediscovered, last))
    decreases |links|
  {
    hide Between, Honest, Confirmed, Canonical, Prepare, TryJob, Sound, ParsePayload;
    if links != [] {
      var l := links[0];
      assert AllHonest(links[1..]) by {
        forall i | 0 <= i < |links[1..]| ensures Honest(links[1..][i]) { assert links[1..][i] == links[i + 1]; }
      }
      if l.Connected? {
        TryReachesTheEnd(d, job, o, ps, dev, l);
      }
      var a := Once(dev, job, l, rediscovered);
      if a.Raised? {
        RunReachesTheEnd(d, job, o, ps, a.dev, links[1..], rediscovered || l.WrongTable?, FailureOf(l, last));
      }
    }
  }

  /** Nothing of this order can ever be sent: a payload is refused, or there is none. */
  predicate SendsNothing(d: Repeater, o: Order) {
    var prepared := Prepare(ParsePayload(d.cfg), o);
    prepared.Ok? ==> prepared.value.cfg == None && prepared.value.source == None && prepared.value.key == None
  }

  lemma TrySendsNothing(d: Repeater, job: Job, l: Link)
    requires l.Connected? && Sound(job)
    requires OrderBehind(job).Some? ==> SendsNothing(d, OrderBehind(job).value)
    ensures var a := TryJob(d, job, l);
            && a.log == [] && a.dev == d
            && (a.Returned? && a.verdict.Applied? ==> !a.verdict.ok)
  {
    hide ParsePayload, Prepare;
    if OrderBehind(job).Some? {
      var o := OrderBehind(job).value;
      if job.Restoring? {
        SoundPrepare(d, o);
      }
    }
  }

  /**
   If a payload is refused, nothing at all is sent, on any link and however often it is tried; and an
   order that comes to nothing is never reported as done.
   */
  lemma {:induction false} RefusedMeansUntouched(d: Repeater, job: Job, links: seq<Link>, rediscovered: bool,
                                                 last: Failure)
    requires Sound(job)
    requires OrderBehind(job).Some? ==> SendsNothing(d, OrderBehind(job).value)
    ensures var run := Retry(d, job, links, rediscovered, last);
            run.dev == d && Flat(run.log) == [] && (run.verdict.Applied? ==> !run.verdict.ok)
    decreases |links|
  {
    hide SendsNothing, TryJob, Sound;
    if links != [] {
      var l := links[0];
      if l.Connected? {
        TrySendsNothing(d, job, l);
      }
      var a := Once(d, job, l, rediscovered);
      if a.Raised? {
        RefusedMeansUntouched(d, job, links[1..], rediscovered || l.WrongTable?, FailureOf(l, last));
        FlatFirst(a.log, Retry(d, job, links[1..], rediscovered || l.WrongTable?, FailureOf(l, last)).log);
      } else {
        FlatFirst(a.log, []);
        assert [a.log] + [] == [a.log];
      }
    }
  }

  /**
   The same of a restored snapshot, whatever of the device could be read before: if its text is no
   configuration or one of its payloads is refused, nothing is sent on any link; and on an honest one each
   part is as it was or as in the snapshot, and all of them once the restore is reported as applied.
   */
  lemma RestoreReachesTheEnd(d: Repeater, snap: RepeaterSnapshot, parts: set<Part>, links: seq<Link>)
    ensures var run, found := RestoreRepeater(d, snap, parts, links), SnapshotOrder(snap, parts);
            && (found.Some? ==> (Prepare(map[], found.value) == Prepare(ParsePayload(d.cfg), found.value)))
            && (found == None || SendsNothing(d, found.value) ==>
                  run.dev == d && Flat(run.log) == [] && (run.verdict.Applied? ==> !run.verdict.ok))
            && (AllHonest(links) && found.Some? && Prepare(map[], found.value).Ok? ==>
                  EndsWell(d, Prepare(map[], found.value).value, run))
  {
    hide SnapshotOrder, Prepare, ParsePayload, Retry, EndsWell, AllHonest, Between, Standalone;
    SnapshotIsSound(snap, parts);
    var found := SnapshotOrder(snap, parts);
    if found.Some? {
      SoundPrepare(d, found.value);
    }
    if found == None || SendsNothing(d, found.value) {
      RefusedMeansUntouched(d, Restoring(found), links, false, NoAttempt);
    }
    if AllHonest(links) && found.Some? && Prepare(map[], found.value).Ok? {
      var ps := Prepare(map[], found.value).value;
      StartIsBetween(d, ps);
      RunReachesTheEnd(d, Restoring(found), found.value, ps, d, links, false, NoAttempt);
    }
  }

  /** Everything answers, and everything that is sent is kept. */
  ghost predicate FaultFree(l: Link) {
    && l.Connected? && l.opens && l.readsCfg && l.opensAgain && l.readsBack && Honest(l)
    && forall answered: bool ::
         && Replies(answered, l.cfgWrite) && Replies(answered, l.cfgRead)
         && Replies(answered, l.sourceWrite) && Replies(answered, l.sourceRead)
         && Replies(answered, l.keyWrite) && Replies(answered, l.keyRead)
  }

  lemma FaultFreeApplies(d: Repeater, ps: Payloads, l: Link)
    requires FaultFree(l)
    ensures Apply(d, ps, l).Going?
  {
    hide Honest, Replies, Lands, TriesOf, Take;
  }

  /**
   A change that was retried after any partial application ends with exactly the configuration, source and
   key of one that was not interrupted, if it ends at all.
   */
  lemma RetriedIsUninterrupted(d: Repeater, o: Order, links: seq<Link>, l: Link)
    requires AllHonest(links) && FaultFree(l) && Prepare(ParsePayload(d.cfg), o).Ok? && o != Order(map[], None, None)
    ensures var ps := Prepare(ParsePayload(d.cfg), o).value;
            var run := Retry(d, Change(o), links, false, NoAttempt);
            var whole := Retry(d, Change(o), [l], false, NoAttempt);
            var again := Retry(run.dev, Change(o), [l], false, NoAttempt);
            && whole.verdict.Applied? && whole.dev == Complete(d, ps)
            && again.verdict.Applied? && again.dev == whole.dev
            && Between(d, ps, run.dev)
            && (run.verdict.Applied? ==> run.dev == whole.dev && run.verdict == whole.verdict)
  {
    hide Between, Honest, Confirmed, Canonical, Prepare, Prepared, ParsePayload, FaultFree;
    var ps := Prepare(ParsePayload(d.cfg), o).value;
    assert Between(d, ps, d) by { StartIsBetween(d, ps); }
    RunReachesTheEnd(d, Change(o), o, ps, d, links, false, NoAttempt);
    var run := Retry(d, Change(o), links, false, NoAttempt);
    OneAttempt(d, Change(o), o, ps, d, l);
    OneAttempt(d, Change(o), o, ps, run.dev, l);
  }

  lemma StartIsBetween(d: Repeater, ps: Payloads)
    ensures Between(d, ps, d)
  {}

  lemma OneAttempt(d: Repeater, job: Job, o: Order, ps: Payloads, dev: Repeater, l: Link)
    requires FaultFree(l) && Sound(job) && OrderBehind(job) == Some(o) && o != Order(map[], None, None)
    requires Prepare(ParsePayload(d.cfg), o) == Ok(ps) && Between(d, ps, dev)
    ensures var run := Retry(dev, job, [l], false, NoAttempt);
            run.verdict.Applied? && run.dev == Complete(d, ps) && EndsWell(d, ps, run)
  {
    hide Between, Honest, Confirmed, Canonical, Prepare, ParsePayload, Replies, Apply, Standalone;
    SamePayloads(d, dev, o, ps);
    FaultFreeApplies(dev, ps, l);
    PreparedReachesTheEnd(d, o, ps, dev, ParsePayload(dev.cfg), l);
    assert Prepared(dev, ParsePayload(dev.cfg), o, l).Returned?;
    var run := Retry(dev, job, [l], false, NoAttempt);
    assert TryJob(dev, job, l) == Prepared(dev, ParsePayload(dev.cfg), o, l);
    assert run.dev == TryJob(dev, job, l).dev && run.verdict == TryJob(dev, job, l).verdict;
  }

  // ----- "nothing written"

  const QUIET := Wire(Try(false, Broken), Try(false, Broken))

  /** A link on which the first command reaches the device and is then cut. */
  const CUT_AFTER_FIRST :=
    Connected(true, true, true, None, Wire(Try(true, Broken), Try(false, Broken)), QUIET,
              Wire(Try(true, Broken), Try(false, Broken)), QUIET,
              Wire(Try(true, Broken), Try(false, Broken)), QUIET, true)

  /** A link on which the device connects but does not answer the first read. */
  const UNREADABLE := Connected(false, false, false, None, QUIET, QUIET, QUIET, QUIET, QUIET, QUIET, false)

  function FirstContent(ps: Payloads): Content
    requires ps.cfg.Some? || ps.source.Some? || ps.key.Some?
  {
    if ps.cfg.Some? then Cfg(ps.cfg.value, None) else if ps.source.Some? then Source(ps.source.value)
      else BindKey(ps.key.value)
  }

  lemma CutAfterFirst(d: Repeater, o: Order)
    requires !SendsNothing(d, o)
    ensures var c := FirstContent(Prepare(ParsePayload(d.cfg), o).value);
            TryJob(d, Change(o), CUT_AFTER_FIRST) == Raised(Take(d, c), [Sent(c, true)])
  {
    hide Prepare, ParsePayload, StoredKey;
    var ps := Prepare(ParsePayload(d.cfg), o).value;
    var none: seq<Sent> := [];
    assert forall c: Content :: none + [Sent(c, true)] == [Sent(c, true)];
  }

  /** One attempt cut off after its first command, the next unable to read: the report is wrong. */
  lemma NothingWrittenAfterAWrite(d: Repeater, o: Order)
    requires !SendsNothing(d, o)
    ensures var run := Retry(d, Change(o), [CUT_AFTER_FIRST, UNREADABLE], false, NoAttempt);
            var c := FirstContent(Prepare(ParsePayload(d.cfg), o).value);
            run.verdict == NothingWritten && run.dev == Take(d, c) && Flat(run.log) == [Sent(c, true)]
  {
    hide SendsNothing, Prepare, ParsePayload, FirstContent, Take;
    CutAfterFirst(d, o);
    var c := FirstContent(Prepare(ParsePayload(d.cfg), o).value);
    var links := [CUT_AFTER_FIRST, UNREADABLE];
    assert links[1..] == [UNREADABLE];
    var d1 := Take(d, c);
    var later := Retry(d1, Change(o), [UNREADABLE], false, FailureOf(CUT_AFTER_FIRST, NoAttempt));
    assert later == Run(d1, [[]], NothingWritten);
    FlatFirst([Sent(c, true)], later.log);
    FlatFirst<Sent>([], []);
    var one: seq<seq<Sent>> := [[]];
    assert [[]] + [] == one;
    assert [Sent(c, true)] + [] == [Sent(c, true)];
  }

  /**
   "Nothing written" can be relied on, for the three attempts there are, exactly for an order of which
   nothing can be sent anyway: any other order has a run in which it is reported after a write.
   */
  lemma NothingWrittenIsTrueIff(d: Repeater, o: Order)
    ensures (forall links | |links| <= 3 && Retry(d, Change(o), links, false, NoAttempt).verdict == NothingWritten ::
               Flat(Retry(d, Change(o), links, false, NoAttempt).log) == [])
            <==> SendsNothing(d, o)
  {
    hide SendsNothing, Prepare, ParsePayload, FirstContent, Take, Retry, Flat;
    if SendsNothing(d, o) {
      forall links | |links| <= 3
        ensures Flat(Retry(d, Change(o), links, false, NoAttempt).log) == []
      {
        RefusedMeansUntouched(d, Change(o), links, false, NoAttempt);
      }
    } else {
      NothingWrittenAfterAWrite(d, o);
    }
  }

  // ----- what is reported is what the device holds

  /** The reports of an attempt say what the device holds at its end, whatever it made of what it was sent. */
  lemma ReportsAreExact(d: Repeater, ps: Payloads, l: Link)
    requires l.Connected? && Apply(d, ps, l).Going?
    ensures var p := Apply(d, ps, l);
            && (ConfigPart in p.parts <==> ps.cfg.Some?)
            && (ps.cfg.Some? ==> p.parts[ConfigPart] == (p.dev.cfg == ps.cfg.value))
            && (SourcePart in p.parts <==> ps.source.Some?)
            && (ps.source.Some? ==> p.parts[SourcePart] == HoldsSource(p.dev, ps.sourceText))
            && (KeyPart in p.parts <==> ps.key.Some?)
            && (ps.key.Some? ==> p.parts[KeyPart] == HoldsKey(p.dev, ps.key.value))
  {
    hide Replies, Lands, TriesOf, HoldsKey, StoredKey;
  }

  /** How a requested setting reads once it is stored. */
  function StoredItem(i: Item, v: Option<int>): Option<int>
    requires v.Some?
  {
    match i
    case TempF => Some(if v.value != 0 then 1 else 0)
    case WindowMin => Some(Micros(Ticks(v.value)))
    case WindowMax => Some(Micros(Ticks(v.value)))
    case _ => v
  }

  /** Everything an order asked for is there, as far as the device can be read. */
  predicate Fulfilled(o: Order, dev: Repeater) {
    && (forall i | i in o.cfg ::
       o.cfg[i].Some? && i in ParsePayload(dev.cfg) && ParsePayload(dev.cfg)[i] == StoredItem(i, o.cfg[i]))
    && (o.source.Some? ==> HoldsSource(dev, SourceText(o.source.value)))
    && (o.key.Some? ==> KeyOf(o.key.value).Some? && HoldsKey(dev, KeyOf(o.key.value).value))
  }

  lemma PreparedParts(current: Values, o: Order)
    requires Prepare(current, o).Ok?
    ensures var ps := Prepare(current, o).value;
            && (o.cfg != map[] ==> BuildCfg(current, o.cfg).Ok? && ps.cfg == Some(BuildCfg(current, o.cfg).value))
            && (o.source.Some? ==> ps.source.Some? && ps.sourceText == SourceText(o.source.value))
            && (o.key.Some? ==> ps.key.Some? && KeyOf(o.key.value) == ps.key)
  {
    hide BuildCfg, MacToLe, SourceText, KeyOf;
  }

  lemma PreparedOkIsFulfilled(d: Repeater, current: Values, o: Order, l: Link)
    requires l.Connected?
    requires var a := Prepared(d, current, o, l); a.Returned? && a.verdict.Applied? && a.verdict.ok
    ensures Fulfilled(o, Prepared(d, current, o, l).dev)
  {
    hide Prepare, BuildCfg, ParsePayload, SourceText, KeyOf, HoldsSource, HoldsKey, Apply, Micros, Ticks;
    var ps := Prepare(current, o).value;
    ReportsAreExact(d, ps, l);
    PreparedParts(current, o);
    var dev := Apply(d, ps, l).dev;
    if o.cfg != map[] {
      BuildMeaning(current, o.cfg);
      forall i | i in o.cfg
        ensures o.cfg[i].Some? && i in ParsePayload(dev.cfg) && ParsePayload(dev.cfg)[i] == StoredItem(i, o.cfg[i])
      {
        assert (current + o.cfg)[i] == o.cfg[i];
        assert i.TempF? || i.Power? || i.Interval? || i.WindowMin? || i.WindowMax?;
      }
    }
  }

  /** A job reported as ok is fulfilled, however many attempts it took and whatever the device adjusts. */
  lemma {:induction false} OkMeansFulfilled(d: Repeater, job: Job, links: seq<Link>, rediscovered: bool, last: Failure)
    requires var v := Retry(d, job, links, rediscovered, last).verdict; v.Applied? && v.ok
    ensures OrderBehind(job).Some? && Fulfilled(OrderBehind(job).value, Retry(d, job, links, rediscovered, last).dev)
    decreases |links|
  {
    hide Prepared, Fulfilled, ParsePayload;
    var l := links[0];
    var a := Once(d, job, l, rediscovered);
    if a.Raised? {
      OkMeansFulfilled(a.dev, job, links[1..], rediscovered || l.WrongTable?, FailureOf(l, last));
    } else {
      var current := if l.opens && l.readsCfg then ParsePayload(d.cfg) else map[];
      PreparedOkIsFulfilled(d, current, OrderBehind(job).value, l);
    }
  }

  // ----- a snapshot of a repeater, restored

  const ALL_PARTS := {ConfigPart, SourcePart, KeyPart}

  /** What a full read of a repeater is saved as: the reply's bytes, the address as text, the key if there is one. */
  ghost predicate IsSnapshotOf(snap: RepeaterSnapshot, d: Repeater) {
    && snap.raw != "" && FromHex(snap.raw).Some?
    && |FromHex(snap.raw).value| == 9 && OctetsOf(FromHex(snap.raw).value)[1..] == d.cfg
    && MacFromLe(d.source) == Some(snap.source)
    && snap.key == (if d.key.Some? then Hex(d.key.value) else "")
  }

  lemma TrimKeeps(s: string)
    requires s != "" && !IsSpace(s[0]) && !IsSpace(s[|s| - 1])
    ensures Trim(s) == s
  {}

  lemma {:induction false} CanonicalEnds(text: string, n: nat)
    requires n > 0 && Canonical(text, n)
    ensures !IsSpace(text[0]) && !IsSpace(text[|text| - 1])
  {
    if n > 1 {
      CanonicalEnds(text[3..], n - 1);
    }
  }

  lemma HexDigitsAreNoSpace(b: Byte)
    ensures !IsSpace(HexDigit(b >> 4)) && !IsSpace(HexDigit(b & 15))
  {
    hide HexValue;
    NibblesJoin(b);
    HexValueOfDigit(b >> 4);
    HexValueOfDigit(b & 15);
  }

  lemma HexEnds(b: Blob)
    requires b != []
    ensures Hex(b) != "" && !IsSpace(Hex(b)[0]) && !IsSpace(Hex(b)[|Hex(b)| - 1])
  {
    hide HexDigit, IsSpace;
    HexDigitsAreNoSpace(b[0]);
    var last := b[|b| - 1];
    HexDigitsAreNoSpace(last);
    HexConcat(b[..|b| - 1], [last]);
    assert b == b[..|b| - 1] + [last];
    assert [last][1..] == [] && Hex([]) == "";
    assert Hex([last]) == [HexDigit(last >> 4), HexDigit(last & 15)];
  }

  /** The text of a key is read back as the key. */
  lemma KeyTextComesBack(k: Key)
    ensures Hex(k) != "" && KeyOf(Hex(k)) == Some(k)
  {
    hide Hex, FromHex, Trim, IsSpace;
    HexEnds(k);
    TrimKeeps(Hex(k));
    FromHexOfHex(k);
  }

  /** The text of an address is canonical, and is read back as the address. */
  lemma SourceTextComesBack(m: Mac)
    ensures MacFromLe(m).Some?
    ensures var text := MacFromLe(m).value;
            text != "" && SourceText(text) == text && MacToLe(text) == Some(m) && Canonical(text, 6)
  {
    hide MacToLe, Join, Trim, IsSpace, Upper;
    MacComesBack(m);
    assert m[..6] == m;
    var text := Join(Reversed(m));
    JoinIsUpper(Reversed(m));
    UpperOfJoin(text, Reversed(m));
    CanonicalEnds(text, 6);
    TrimKeeps(text);
  }

  lemma SnapshotTexts(snap: RepeaterSnapshot, d: Repeater)
    requires IsSnapshotOf(snap, d)
    ensures snap.source != "" && SourceText(snap.source) == snap.source && MacToLe(snap.source) == Some(d.source)
    ensures Canonical(snap.source, 6)
    ensures d.key.Some? ==> snap.key != "" && KeyOf(snap.key) == d.key
  {
    hide SourceText, KeyOf, MacToLe, MacFromLe, Canonical, Hex, FromHex;
    SourceTextComesBack(d.source);
    if d.key.Some? {
      KeyTextComesBack(d.key.value);
    }
  }

  lemma SnapshotAsks(snap: RepeaterSnapshot, d: Repeater)
    requires IsSnapshotOf(snap, d)
    ensures SnapshotOrder(snap, ALL_PARTS)
            == Some(Order(ParsePayload(d.cfg), Some(snap.source), if d.key.Some? then Some(snap.key) else None))
    ensures ParsePayload(d.cfg) != map[] && AllKnown(ParsePayload(d.cfg))
  {
    hide FromHex, Hex, SourceText, KeyOf, Canonical, MacToLe, MacFromLe, ParsePayload, AllKnown;
    SnapshotTexts(snap, d);
    ParseGivesAll(d.cfg);
    var raw := OctetsOf(FromHex(snap.raw).value);
    assert raw[1..9] == raw[1..];
  }

  lemma ParseGivesAll(p: Payload)
    ensures ParsePayload(p) != map[] && AllKnown(ParsePayload(p))
  {
    hide Micros, FromLe;
    assert TempF in ParsePayload(p);
  }

  /**
   A repeater's own snapshot brings it back, from whatever it was changed to, exactly when its
   configuration was legal and its radio power lies in the offered band.
   */
  lemma OwnSnapshotComesBack(d: Repeater, snap: RepeaterSnapshot, dev: Repeater, l: Link)
    requires IsSnapshotOf(snap, d) && FaultFree(l)
    ensures var run := RestoreRepeater(dev, snap, ALL_PARTS, [l]);
            run.verdict.Applied? && run.verdict.ok
              && run.dev == d.(key := if d.key.Some? then StoredKey(d.key.value) else dev.key)
            <==> Legal(d.cfg) && POWER_MIN <= d.cfg[1] <= POWER_MAX
  {
    hide IsSnapshotOf, SnapshotOrder, ParsePayload, BuildCfg, MacToLe, KeyOf, SourceText, Canonical, FaultFree, Retry,
         Legal, StoredKey;
    SnapshotTexts(snap, d);
    SnapshotAsks(snap, d);
    var o := SnapshotOrder(snap, ALL_PARTS).value;
    var current := ParsePayload(dev.cfg);
    OwnConfigCanBeRestored(current, d.cfg);
    var built := BuildCfg(current, ParsePayload(d.cfg));
    if built.Err? {
      RefusedMeansUntouched(dev, Restoring(Some(o)), [l], false, NoAttempt);
    } else {
      var ps := Payloads(Some(built.value), snap.source, Some(d.source), d.key);
      assert Prepare(current, o) == Ok(ps);
      StartIsBetween(dev, ps);
      OneAttempt(dev, Restoring(Some(o)), o, ps, dev, l);
      assert ConfigPart in Confirmed(ps);
    }
  }
}
