/**
 Changing a repeater: read what it holds, prepare every payload, and only then send configuration, source
 address and key, each read back, on a connection that may be cut at any point and is retried.
 */
module RepeaterWrite {
  import opened Wrappers
  import opened Bytes
  import opened Logs
  import opened RepeaterConfig
  import opened RepeaterAddress

  datatype Repeater = Repeater(cfg: Payload, source: Mac, key: Option<Key>)

  const NO_SOURCE := "00:00:00:00:00:00"
  const ZERO_KEY: Key := [0, 0, 0, 0, 0, 0, 0, 0, 0, 0, 0, 0, 0, 0, 0, 0]

  // ----- one command

  datatype End = Answered | TimedOut | Broken

  /** One time a command goes out: whether it reaches the device, and what comes back. */
  datatype Try = Try(lands: bool, end: End)

  /** A command as the link decides it; the second try is used only if it comes to that. */
  datatype Wire = Wire(first: Try, second: Try)

  /** A command is sent again only after silence, and only while nothing in the session has answered. */
  predicate TriesAgain(answered: bool, w: Wire) {
    !answered && w.first.end.TimedOut?
  }

  predicate Replies(answered: bool, w: Wire) {
    w.first.end.Answered? || (TriesAgain(answered, w) && w.second.end.Answered?)
  }

  predicate Lands(answered: bool, w: Wire) {
    w.first.lands || (TriesAgain(answered, w) && w.second.lands)
  }

  /** What a command carries; a device may keep a configuration other than the one it was sent. */
  datatype Content =
    | Cfg(p: Payload, clamped: Option<Payload>)
    | Source(m: Mac)
    | BindKey(k: Key)

  datatype Sent = Sent(content: Content, landed: bool)

  /** A key of all zeroes is no key. */
  function StoredKey(k: Key): Option<Key> {
    if k == ZERO_KEY then None else Some(k)
  }

  function Take(d: Repeater, c: Content): Repeater {
    match c
    case Cfg(p, clamped) => d.(cfg := if clamped.Some? then clamped.value else p)
    case Source(m) => d.(source := m)
    case BindKey(k) => d.(key := StoredKey(k))
  }

  function TriesOf(answered: bool, w: Wire, c: Content): seq<Sent> {
    [Sent(c, w.first.lands)] + if TriesAgain(answered, w) then [Sent(c, w.second.lands)] else []
  }

  // ----- what is sent, prepared in full before any of it is

  datatype Order = Order(cfg: Values, source: Option<string>, key: Option<string>)

  datatype Payloads = Payloads(cfg: Option<Payload>, sourceText: string, source: Option<Mac>, key: Option<Key>)

  datatype Refusal = BadConfig(why: Problem) | BadAddress | BadKeyLength

  function TrimStart(s: string): string {
    if s != "" && IsSpace(s[0]) then TrimStart(s[1..]) else s
  }

  function TrimEnd(s: string): string {
    if s != "" && IsSpace(s[|s| - 1]) then TrimEnd(s[..|s| - 1]) else s
  }

  function Trim(s: string): string {
    TrimEnd(TrimStart(s))
  }

  /** No text means the address that stands for no source. */
  function SourceText(text: string): string {
    if Trim(text) == "" then NO_SOURCE else Trim(text)
  }

  function KeyOf(text: string): Option<Key> {
    if Trim(text) == "" then Some(ZERO_KEY)
    else match FromHex(Trim(text))
      case Some(b) => if |b| == 16 then Some(b) else None
      case None => None
  }

  function Prepare(current: Values, o: Order): Result<Payloads, Refusal> {
    var built := BuildCfg(current, o.cfg);
    if o.cfg != map[] && built.Err? then Err(BadConfig(built.error))
    else
      var text := if o.source.Some? then SourceText(o.source.value) else "";
      var source := if o.source.Some? then MacToLe(text) else None;
      if o.source.Some? && source == None then Err(BadAddress)
      else
        var key := if o.key.Some? then KeyOf(o.key.value) else None;
        if o.key.Some? && key == None then Err(BadKeyLength)
        else Ok(Payloads(if o.cfg != map[] then Some(built.value) else None, text, source, key))
  }

  // ----- one attempt

  datatype Part = ConfigPart | SourcePart | KeyPart

  datatype Progress =
    | Going(dev: Repeater, log: seq<Sent>, answered: bool, parts: map<Part, bool>)
    | CutOff(dev: Repeater, log: seq<Sent>)

  datatype Link =
    | NoDevice
    | NoConnection
    | WrongTable // the service table does not offer the repeater service
    | Connected(
        opens: bool,         // the session for the first read opens
        readsCfg: bool,      // and the configuration is answered
        opensAgain: bool,    // the session for the writes opens
        clamped: Option<Payload>,
        cfgWrite: Wire, cfgRead: Wire,
        sourceWrite: Wire, sourceRead: Wire,
        keyWrite: Wire, keyRead: Wire,
        readsBack: bool)     // everything is read once more at the end

  function WriteCmd(p: Progress, c: Content, w: Wire): Progress {
    if p.CutOff? then p
    else
      var dev := if Lands(p.answered, w) then Take(p.dev, c) else p.dev;
      var log := p.log + TriesOf(p.answered, w, c);
      if Replies(p.answered, w) then Going(dev, log, true, p.parts) else CutOff(dev, log)
  }

  /** A read, and what it shows: whether the device holds what it was meant to. */
  function ReadCmd(p: Progress, w: Wire, part: Part, holds: bool): Progress {
    if p.CutOff? then p
    else if Replies(p.answered, w) then Going(p.dev, p.log, true, p.parts[part := holds])
    else CutOff(p.dev, p.log)
  }

  /** The address read back, as text, against the text that was asked for. */
  predicate HoldsSource(d: Repeater, text: string) { MacFromLe(d.source) == Some(Upper(text)) }

  /** A cleared key reads back as zeroes or as a short answer: both are no key. */
  predicate HoldsKey(d: Repeater, k: Key) {
    if k == ZERO_KEY then d.key == None || d.key == Some(ZERO_KEY) else d.key == Some(k)
  }

  function DoCfg(p: Progress, ps: Payloads, l: Link): Progress
    requires l.Connected?
  {
    if ps.cfg == None then p
    else
      var sent := WriteCmd(p, Cfg(ps.cfg.value, l.clamped), l.cfgWrite);
      ReadCmd(sent, l.cfgRead, ConfigPart, sent.dev.cfg == ps.cfg.value)
  }

  function DoSource(p: Progress, ps: Payloads, l: Link): Progress
    requires l.Connected?
  {
    if ps.source == None then p
    else
      var sent := WriteCmd(p, Source(ps.source.value), l.sourceWrite);
      ReadCmd(sent, l.sourceRead, SourcePart, HoldsSource(sent.dev, ps.sourceText))
  }

  function DoKey(p: Progress, ps: Payloads, l: Link): Progress
    requires l.Connected?
  {
    if ps.key == None then p
    else
      var sent := WriteCmd(p, BindKey(ps.key.value), l.keyWrite);
      ReadCmd(sent, l.keyRead, KeyPart, HoldsKey(sent.dev, ps.key.value))
  }

  function Apply(d: Repeater, ps: Payloads, l: Link): Progress
    requires l.Connected?
  {
    if !l.opensAgain then CutOff(d, [])
    else DoKey(DoSource(DoCfg(Going(d, [], false, map[]), ps, l), ps, l), ps, l)
  }

  datatype Failure = NoAttempt | NoConnectable | Failed(reached: bool)

  datatype Verdict =
    | SelfRepeat
    | KindMismatch
    | NothingWritten    // "could not read the device; nothing written"
    | NothingToRestore
    | Refused(why: Refusal)
    | Applied(ok: bool, parts: map<Part, bool>)
    | Unreachable(last: Failure)

  datatype Attempt =
    | Raised(dev: Repeater, log: seq<Sent>)
    | Returned(dev: Repeater, log: seq<Sent>, verdict: Verdict)

  /** A change of settings, or a snapshot being restored. The text of a snapshot may not be hex at all. */
  datatype Job = Change(order: Order) | Restoring(found: Option<Order>)

  function Finish(p: Progress): Attempt {
    match p
    case CutOff(dev, log) => Raised(dev, log)
    case Going(dev, log, _, parts) =>
      Returned(dev, log, Applied(parts != map[] && forall part | part in parts :: parts[part], parts))
  }

  function Prepared(d: Repeater, current: Values, o: Order, l: Link): Attempt
    requires l.Connected?
  {
    match Prepare(current, o)
    case Err(BadConfig(DoesNotPack)) => Raised(d, []) // not a ValueError, so the wrapper tries again
    case Err(why) => Returned(d, [], Refused(why))
    case Ok(ps) => Finish(Apply(d, ps, l))
  }

  function TryJob(d: Repeater, job: Job, l: Link): Attempt
    requires l.Connected?
  {
    match job
    case Change(o) =>
      if !l.opens || !l.readsCfg then Returned(d, [], NothingWritten)
      else
        var a := Prepared(d, ParsePayload(d.cfg), o, l);
        if a.Returned? && a.verdict.Applied? && !l.readsBack then Raised(a.dev, a.log) else a
    case Restoring(None) => Raised(d, [])
    case Restoring(Some(o)) =>
      if o == Order(map[], None, None) then Returned(d, [], NothingToRestore)
      else Prepared(d, if l.opens && l.readsCfg then ParsePayload(d.cfg) else map[], o, l)
  }

  /** One attempt in full: connect, insist on the repeater service, do the job. */
  function Once(d: Repeater, job: Job, l: Link, rediscovered: bool): Attempt {
    if l.WrongTable? then (if rediscovered then Returned(d, [], KindMismatch) else Raised(d, []))
    else if l.Connected? then TryJob(d, job, l)
    else Raised(d, [])
  }

  function FailureOf(l: Link, last: Failure): Failure {
    match l
    case WrongTable => last
    case NoDevice => NoConnectable
    case NoConnection => Failed(false)
    case Connected(_, _, _, _, _, _, _, _, _, _, _) => Failed(true)
  }

  datatype Run = Run(dev: Repeater, log: seq<seq<Sent>>, verdict: Verdict)

  /** At most |links| attempts; a service table without the repeater service is rediscovered once. */
  function Retry(d: Repeater, job: Job, links: seq<Link>, rediscovered: bool, last: Failure): Run
    decreases |links|
  {
    if links == [] then Run(d, [], Unreachable(last))
    else match Once(d, job, links[0], rediscovered)
      case Returned(dev, log, verdict) => Run(dev, [log], verdict)
      case Raised(dev, log) =>
        Prefixed([log], Retry(dev, job, links[1..], rediscovered || links[0].WrongTable?, FailureOf(links[0], last)))
  }

  function Prefixed(log: seq<seq<Sent>>, run: Run): Run {
    Run(run.dev, log + run.log, run.verdict)
  }

  function ChangeSettings(d: Repeater, mac: string, o: Order, links: seq<Link>): Run {
    if o.source.Some? && o.source.value != "" && Upper(o.source.value) == Upper(mac) then Run(d, [], SelfRepeat)
    else Retry(d, Change(o), links, false, NoAttempt)
  }

  // ----- restoring a snapshot

  datatype RepeaterSnapshot = RepeaterSnapshot(raw: string, source: string, key: string)

  function OctetsOf(b: Blob): seq<Octet> {
    seq(|b|, i requires 0 <= i < |b| => b[i] as int)
  }

  /** What a snapshot asks for, part by part; none at all if its configuration is not hex. */
  function SnapshotOrder(snap: RepeaterSnapshot, parts: set<Part>): Option<Order> {
    var source := if SourcePart in parts && snap.source != "" then Some(snap.source) else None;
    var key := if KeyPart in parts && snap.key != "" then Some(snap.key) else None;
    if ConfigPart !in parts || snap.raw == "" then Some(Order(map[], source, key))
    else match FromHex(snap.raw)
      case None => None
      case Some(b) => Some(Order(ParseCfg(OctetsOf(b)), source, key))
  }

  function RestoreRepeater(d: Repeater, snap: RepeaterSnapshot, parts: set<Part>, links: seq<Link>): Run {
    Retry(d, Restoring(SnapshotOrder(snap, parts)), links, false, NoAttempt)
  }

  // ----- the same job, changing the device step by step

  class Device {
    var cfg: Payload
    var source: Mac
    var key: Option<Key>
    var sent: seq<Sent>

    constructor (d: Repeater)
      ensures State() == d && sent == []
    {
      cfg, source, key, sent := d.cfg, d.source, d.key, [];
    }

    function State(): Repeater
      reads this
    {
      Repeater(cfg, source, key)
    }

    method Receive(c: Content, landed: bool)
      modifies this
      ensures State() == if landed then Take(old(State()), c) else old(State())
      ensures sent == old(sent) + [Sent(c, landed)]
    {
      if landed {
        match c
        case Cfg(p, clamped) => cfg := if clamped.Some? then clamped.value else p;
        case Source(m) => source := m;
        case BindKey(k) => key := StoredKey(k);
      }
      sent := sent + [Sent(c, landed)];
    }
  }

  const CMD_TRIES := 2

  /** One session of commands; it remembers whether anything in it was ever answered. */
  class Session {
    var answered: bool

    constructor ()
      ensures !answered
    {
      answered := false;
    }

    method Write(r: Device, c: Content, w: Wire) returns (replied: bool)
      modifies this, r
      ensures r.State() == if Lands(old(answered), w) then Take(old(r.State()), c) else old(r.State())
      ensures r.sent == old(r.sent) + TriesOf(old(answered), w, c)
      ensures replied == Replies(old(answered), w)
      ensures answered == (old(answered) || replied)
    {
      var tries := if answered then 1 else CMD_TRIES;
      for i := 0 to tries
        invariant answered == old(answered)
        invariant i > 0 ==> w.first.end.TimedOut?
        invariant i > 1 ==> w.second.end.TimedOut?
        invariant (i > 0 && w.first.lands) || (i > 1 && w.second.lands) ==> r.State() == Take(old(r.State()), c)
        invariant !((i > 0 && w.first.lands) || (i > 1 && w.second.lands)) ==> r.State() == old(r.State())
        invariant r.sent == old(r.sent) + (if i > 0 then [Sent(c, w.first.lands)] else [])
                  + (if i > 1 then [Sent(c, w.second.lands)] else [])
      {
        var t := if i == 0 then w.first else w.second;
        r.Receive(c, t.lands);
        if t.end.Answered? {
          answered := true;
          return true;
        }
        if t.end.Broken? {
          return false;
        }
      }
      return false;
    }

    method Read(w: Wire) returns (replied: bool)
      modifies this
      ensures replied == Replies(old(answered), w)
      ensures answered == (old(answered) || replied)
    {
      var tries := if answered then 1 else CMD_TRIES;
      for i := 0 to tries
        invariant answered == old(answered)
        invariant i > 0 ==> w.first.end.TimedOut?
        invariant i > 1 ==> w.second.end.TimedOut?
      {
        var t := if i == 0 then w.first else w.second;
        if t.end.Answered? {
          answered := true;
          return true;
        }
        if t.end.Broken? {
          return false;
        }
      }
      return false;
    }
  }

  /** Progress, as a running attempt keeps it: cut off, or the parts dealt with so far. */
  ghost predicate At(r: Device, s: Session, parts: Option<map<Part, bool>>, before: seq<Sent>, p: Progress)
    reads r, s
  {
    && r.State() == p.dev && r.sent == before + p.log
    && parts == (if p.Going? then Some(p.parts) else None)
    && (p.Going? ==> p.answered == s.answered)
  }

  method CfgOn(r: Device, s: Session, ps: Payloads, l: Link, done: map<Part, bool>, ghost p: Progress,
               ghost before: seq<Sent>)
    returns (parts: Option<map<Part, bool>>)
    requires l.Connected? && At(r, s, Some(done), before, p)
    modifies r, s
    ensures At(r, s, parts, before, DoCfg(p, ps, l))
  {
    hide Replies, Lands, TriesOf, Take;
    if ps.cfg == None {
      return Some(done);
    }
    var replied := s.Write(r, Cfg(ps.cfg.value, l.clamped), l.cfgWrite);
    if !replied {
      return None;
    }
    replied := s.Read(l.cfgRead);
    // the bytes are compared, not the values: the firmware clamps what it does not like
    return if replied then Some(done[ConfigPart := r.cfg == ps.cfg.value]) else None;
  }

  method SourceOn(r: Device, s: Session, ps: Payloads, l: Link, done: map<Part, bool>, ghost p: Progress,
                  ghost before: seq<Sent>)
    returns (parts: Option<map<Part, bool>>)
    requires l.Connected? && At(r, s, Some(done), before, p)
    modifies r, s
    ensures At(r, s, parts, before, DoSource(p, ps, l))
  {
    hide Replies, Lands, TriesOf, Take, MacFromLe, Upper;
    if ps.source == None {
      return Some(done);
    }
    var replied := s.Write(r, Source(ps.source.value), l.sourceWrite);
    if !replied {
      return None;
    }
    replied := s.Read(l.sourceRead);
    return if replied then Some(done[SourcePart := MacFromLe(r.source) == Some(Upper(ps.sourceText))]) else None;
  }

  method KeyOn(r: Device, s: Session, ps: Payloads, l: Link, done: map<Part, bool>, ghost p: Progress,
               ghost before: seq<Sent>)
    returns (parts: Option<map<Part, bool>>)
    requires l.Connected? && At(r, s, Some(done), before, p)
    modifies r, s
    ensures At(r, s, parts, before, DoKey(p, ps, l))
  {
    hide Replies, Lands, TriesOf, Take, HoldsKey;
    if ps.key == None {
      return Some(done);
    }
    var replied := s.Write(r, BindKey(ps.key.value), l.keyWrite);
    if !replied {
      return None;
    }
    replied := s.Read(l.keyRead);
    return if replied then Some(done[KeyPart := HoldsKey(r.State(), ps.key.value)]) else None;
  }

  method ApplyOn(r: Device, ps: Payloads, l: Link) returns (parts: Option<map<Part, bool>>)
    requires l.Connected?
    modifies r
    ensures var p := Apply(old(r.State()), ps, l);
            && r.State() == p.dev && r.sent == old(r.sent) + p.log
            && parts == (if p.Going? then Some(p.parts) else None)
  {
    hide DoCfg, DoSource, DoKey;
    if !l.opensAgain {
      return None;
    }
    var s := new Session();
    ghost var p := Going(r.State(), [], false, map[]);
    ghost var before := r.sent;
    assert before + [] == before;
    parts := CfgOn(r, s, ps, l, map[], p, before);
    p := DoCfg(p, ps, l);
    if parts == None { CutOffStays(p, ps, l); return; }
    parts := SourceOn(r, s, ps, l, parts.value, p, before);
    p := DoSource(p, ps, l);
    if parts == None { CutOffStays(p, ps, l); return; }
    parts := KeyOn(r, s, ps, l, parts.value, p, before);
  }

  lemma CutOffStays(p: Progress, ps: Payloads, l: Link)
    requires l.Connected? && p.CutOff?
    ensures DoSource(p, ps, l) == p && DoKey(p, ps, l) == p
  {}

  /** Prepare everything, then apply it; None means that it raised and the wrapper may try again. */
  method PreparedOn(r: Device, current: Values, o: Order, l: Link) returns (verdict: Option<Verdict>)
    requires l.Connected?
    modifies r
    ensures var a := Prepared(old(r.State()), current, o, l);
            && r.State() == a.dev && r.sent == old(r.sent) + a.log
            && verdict == (if a.Returned? then Some(a.verdict) else None)
  {
    hide Prepare, Apply;
    match Prepare(current, o) {
      case Err(why) =>
        return if why == BadConfig(DoesNotPack) then None else Some(Refused(why));
      case Ok(ps) =>
        var parts := ApplyOn(r, ps, l);
        if parts == None {
          return None;
        }
        var ok := parts.value != map[] && forall part | part in parts.value :: parts.value[part];
        return Some(Applied(ok, parts.value));
    }
  }

  method JobOnConnection(r: Device, job: Job, l: Link) returns (verdict: Option<Verdict>)
    requires l.Connected?
    modifies r
    ensures var a := TryJob(old(r.State()), job, l);
            && r.State() == a.dev && r.sent == old(r.sent) + a.log
            && verdict == (if a.Returned? then Some(a.verdict) else None)
  {
    hide Prepared, ParsePayload;
    match job {
      case Change(o) =>
        if !l.opens || !l.readsCfg {
          return Some(NothingWritten);
        }
        verdict := PreparedOn(r, ParsePayload(r.cfg), o, l);
        if verdict.Some? && verdict.value.Applied? && !l.readsBack {
          return None;
        }
      case Restoring(found) =>
        if found == None {
          return None;
        }
        if found.value == Order(map[], None, None) {
          return Some(NothingToRestore);
        }
        verdict := PreparedOn(r, if l.opens && l.readsCfg then ParsePayload(r.cfg) else map[], found.value, l);
    }
  }

  method OnceOn(r: Device, job: Job, l: Link, rediscovered: bool) returns (verdict: Option<Verdict>)
    modifies r
    ensures var a := Once(old(r.State()), job, l, rediscovered);
            && r.State() == a.dev && r.sent == old(r.sent) + a.log
            && verdict == (if a.Returned? then Some(a.verdict) else None)
  {
    hide TryJob;
    assert r.sent + [] == r.sent;
    if l.WrongTable? {
      return if rediscovered then Some(KindMismatch) else None;
    }
    if l.Connected? {
      verdict := JobOnConnection(r, job, l);
    } else {
      verdict := None;
    }
  }

  method JobWithRetries(r: Device, job: Job, links: seq<Link>) returns (verdict: Verdict)
    modifies r
    ensures var run := Retry(old(r.State()), job, links, false, NoAttempt);
            r.State() == run.dev && verdict == run.verdict && r.sent == old(r.sent) + Flat(run.log)
  {
    hide Once, Retry;
    ghost var whole := Retry(r.State(), job, links, false, NoAttempt);
    ghost var log: seq<seq<Sent>> := [];
    var last, rediscovered := NoAttempt, false;
    assert links[0..] == links;
    for i := 0 to |links|
      invariant whole == Prefixed(log, Retry(r.State(), job, links[i..], rediscovered, last))
      invariant r.sent == old(r.sent) + Flat(log)
    {
      RetryStep(r.State(), job, links, i, rediscovered, last, log);
      ghost var sends := Once(r.State(), job, links[i], rediscovered).log;
      FlatSnoc(log, sends);
      log := log + [sends];
      var outcome := OnceOn(r, job, links[i], rediscovered);
      if outcome.Some? {
        return outcome.value;
      }
      last := FailureOf(links[i], last);
      rediscovered := rediscovered || links[i].WrongTable?; // maybe just a stale table from before it was reflashed
    }
    RetryEnd(r.State(), job, links, rediscovered, last, log);
    return Unreachable(last);
  }

  lemma RetryStep(d: Repeater, job: Job, links: seq<Link>, i: nat, rediscovered: bool, last: Failure,
                  log: seq<seq<Sent>>)
    requires i < |links|
    ensures Prefixed(log, Retry(d, job, links[i..], rediscovered, last)) ==
            match Once(d, job, links[i], rediscovered)
            case Returned(dev, sends, verdict) => Run(dev, log + [sends], verdict)
            case Raised(dev, sends) =>
              Prefixed(log + [sends],
                       Retry(dev, job, links[i + 1..], rediscovered || links[i].WrongTable?, FailureOf(links[i], last)))
  {
    hide Once;
    assert links[i..][0] == links[i] && links[i..][1..] == links[i + 1..];
    var first := Once(d, job, links[i], rediscovered);
    if first.Raised? {
      var rest :=
        Retry(first.dev, job, links[i + 1..], rediscovered || links[i].WrongTable?, FailureOf(links[i], last));
      assert log + ([first.log] + rest.log) == (log + [first.log]) + rest.log;
    }
  }

  lemma RetryEnd(d: Repeater, job: Job, links: seq<Link>, rediscovered: bool, last: Failure, log: seq<seq<Sent>>)
    ensures Prefixed(log, Retry(d, job, links[|links|..], rediscovered, last)) == Run(d, log, Unreachable(last))
  {
    assert links[|links|..] == [] && log + [] == log;
  }

  method AsyncBlethrWrite(r: Device, mac: string, o: Order, links: seq<Link>) returns (verdict: Verdict)
    modifies r
    ensures var run := ChangeSettings(old(r.State()), mac, o, links);
            r.State() == run.dev && verdict == run.verdict && r.sent == old(r.sent) + Flat(run.log)
  {
    hide Retry;
    var target := if o.source.Some? then Upper(o.source.value) else "";
    if target != "" && target == Upper(mac) {
      return SelfRepeat;
    }
    verdict := JobWithRetries(r, Change(o), links);
  }
}
