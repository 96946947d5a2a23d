/**
 Turning encrypted advertising on or off: key first, then the flag, then a read-back, inside a wrapper
 that connects and retries. Everything the link decides is in a Link value; everything put on the air
 is logged, attempt by attempt.
 */
module Encryption {
  import opened Wrappers
  import opened Bytes
  import opened Logs
  import opened ConfigBlob
  import opened Thermometers

  /** One attempt, as far as the link and the random source decide it. */
  datatype Link =
    | NoDevice     // no connectable device is known
    | NoConnection // the connection is not established
    | Connected(
        answers: bool,      // the first configuration read succeeds
        query: Reply,       // the 0x18 query of a device that already encrypts
        drawn: Key,         // the key a random draw would give
        keyLands: bool,     // the device takes the key that is written
        keyReply: Reply,
        flagLands: bool,    // the device takes the configuration that is written
        flagRaises: bool,
        readsBack: bool,    // the final configuration read succeeds
        keyBack: Reply)     // the final 0x18 read

  datatype Refusal = BadKeyText | IsRepeater | OldFirmware

  datatype Failure = NoAttempt | NoConnectable | Failed(reached: bool)

  datatype Verdict =
    | Refused(why: Refusal)
    | Unsure(sentKey: Option<Key>)                // maybe_changed, with the key if one was chosen
    | Done(key: Option<Key>, advType: int, after: Config, afterKey: Option<Key>)
    | NotKept
    | Unreachable(last: Failure)

  datatype Attempt =
    | Raised(dev: Device, log: seq<Send>)
    | Returned(dev: Device, log: seq<Send>, verdict: Verdict)

  /** The key to write: the caller's, else the one the device already encrypts with, else a new one. */
  function ChooseKey(d: Device, want: Option<Key>, l: Link): Option<Key>
    requires l.Connected?
  {
    if want.Some? then want
    else if !Encrypts(d.blob) then Some(l.drawn)
    else if l.query.Raises? then None // nothing was sent yet, so the wrapper may try again
    else match KeyIn(l.query, d.key) case Some(k) => Some(k) case None => Some(l.drawn)
  }

  /** The flag and the read-back, on a device that may already have been sent a key. */
  function SendFlag(d: Device, target: Config, enable: bool, key: Option<Key>, log: seq<Send>, l: Link,
                    advType: int): Attempt
    requires l.Connected?
  {
    var writes := target != d.blob;
    var stored := if l.flagLands then Some(target) else None;
    var d1 := if writes && l.flagLands then d.(blob := target) else d;
    var log1 := if writes then log + [ConfigSent(target, stored)] else log;
    if writes && l.flagRaises then Returned(d1, log1, Unsure(key))
    else if !l.readsBack then (if log1 != [] then Returned(d1, log1, Unsure(key)) else Raised(d1, log1))
    else
      var keyBack := KeyIn(l.keyBack, d1.key);
      var ok := Encrypts(d1.blob) == enable && (!enable || keyBack == key);
      if ok then Returned(d1, log1, Done(if enable then key else None, advType, d1.blob, keyBack))
      else if log1 != [] then Returned(d1, log1, Unsure(key))
      else Returned(d1, log1, NotKept)
  }

  function TryOnce(d: Device, enable: bool, want: Option<Key>, l: Link): Attempt {
    if !l.Connected? then Raised(d, [])
    else if d.repeater then Returned(d, [], Refused(IsRepeater))
    else if !l.answers then Raised(d, [])
    else match WithAdvCrypto(d.blob, enable, d.fw)
      case Err(_) => Returned(d, [], Refused(OldFirmware))
      case Ok(target) =>
        var advType := FieldValue(AdvType, d.blob);
        if !enable then SendFlag(d, target, enable, None, [], l, advType)
        else match ChooseKey(d, want, l)
          case None => Raised(d, [])
          case Some(key) =>
            var d1 := if l.keyLands then d.(key := Some(key)) else d;
            var echo := KeyIn(l.keyReply, d1.key);
            var log := [KeySent(key, l.keyLands, echo)];
            if echo != Some(key) then Returned(d1, log, Unsure(Some(key)))
            else SendFlag(d1, target, enable, Some(key), log, l, advType)
  }

  function FailureOf(l: Link): Failure {
    match l
    case NoDevice => NoConnectable
    case NoConnection => Failed(false)
    case Connected(_, _, _, _, _, _, _, _, _) => Failed(true)
  }

  /** A whole call: the device it leaves, what each attempt sent, and the verdict. */
  datatype Run = Run(dev: Device, log: seq<seq<Send>>, verdict: Verdict)

  function Retry(d: Device, enable: bool, want: Option<Key>, links: seq<Link>, last: Failure): Run
    decreases |links|
  {
    if links == [] then Run(d, [], Unreachable(last))
    else match TryOnce(d, enable, want, links[0])
      case Returned(d1, log, verdict) => Run(d1, [log], verdict)
      case Raised(d1, log) =>
        var rest := Retry(d1, enable, want, links[1..], FailureOf(links[0]));
        Run(rest.dev, [log] + rest.log, rest.verdict)
  }

  /** A key typed by the user: white space trimmed, thirty-two hex digits. No text means no key. */
  function ParseBindKey(text: string): Option<Key> {
    match FromHex(text)
    case Some(b) => if |b| == 16 then Some(b) else None
    case None => None
  }

  function SetEncryption(d: Device, enable: bool, text: string, links: seq<Link>): Run {
    if text == "" then Retry(d, enable, None, links, NoAttempt)
    else match ParseBindKey(text)
      case None => Run(d, [], Refused(BadKeyText))
      case Some(key) => Retry(d, enable, Some(key), links, NoAttempt)
  }

  // ----- the same call, changing the device step by step

  /** The second half of a connection: write the flag if it has to change, then read everything back. */
  method FlagAndReadBack(t: Thermometer, target: Config, enable: bool, chosen: Option<Key>, touchedBefore: bool,
                         l: Link, advType: int,
                         ghost log: seq<Send>)
    returns (verdict: Option<Verdict>, ghost more: seq<Send>)
    requires l.Connected? && touchedBefore == (log != [])
    modifies t
    ensures t.sent == old(t.sent) + more
    ensures match SendFlag(old(t.State()), target, enable, chosen, log, l, advType)
            case Raised(d, all) => verdict == None && t.State() == d && all == log == more == []
            case Returned(d, all, v) => verdict == Some(v) && t.State() == d && all == log + more
  {
    hide Encrypts, KeyIn;
    var touched := touchedBefore;
    more := [];
    assert log + [] == log && t.sent + [] == t.sent;
    if target != t.blob {
      touched := true;
      more := [ConfigSent(target, if l.flagLands then Some(target) else None)];
      t.WriteConfig(target, if l.flagLands then Some(target) else None);
      if l.flagRaises {
        return Some(Unsure(chosen)), more;
      }
    }
    if !l.readsBack {
      return if touched then Some(Unsure(chosen)) else None, more;
    }
    var keyBack := KeyIn(l.keyBack, t.key);
    var ok := Encrypts(t.blob) == enable && (!enable || keyBack == chosen);
    if !ok && touched {
      return Some(Unsure(chosen)), more;
    }
    return Some(if ok then Done(if enable then chosen else None, advType, t.blob, keyBack) else NotKept), more;
  }

  /** The work done on an open connection; None means it raised and the wrapper may try again. */
  method OnConnection(t: Thermometer, enable: bool, want: Option<Key>, l: Link) returns (verdict: Option<Verdict>)
    requires l.Connected?
    modifies t
    ensures match TryOnce(old(t.State()), enable, want, l)
            case Raised(d, log) => verdict == None && t.State() == d && t.sent == old(t.sent) && log == []
            case Returned(d, log, v) => verdict == Some(v) && t.State() == d && t.sent == old(t.sent) + log
  {
    hide Encrypts, FieldValue, KeyIn, WithAdvCrypto, SendFlag;
    if t.repeater {
      return Some(Refused(IsRepeater));
    }
    if !l.answers {
      return None;
    }
    var flagged := WithAdvCryptoInPlace(t.blob, enable, t.fw);
    if flagged.Err? {
      return Some(Refused(OldFirmware));
    }
    var advType := FieldValue(AdvType, t.blob);
    var chosen: Option<Key> := None;
    ghost var log: seq<Send> := [];
    if enable {
      chosen := want;
      if chosen == None && Encrypts(t.blob) {
        if l.query.Raises? {
          return None;
        }
        chosen := KeyIn(l.query, t.key);
      }
      if chosen == None {
        chosen := Some(l.drawn);
      }
      var echo := t.WriteKey(chosen.value, l.keyLands, l.keyReply);
      log := [KeySent(chosen.value, l.keyLands, echo)];
      if echo != chosen {
        return Some(Unsure(chosen));
      }
    }
    // from the first send on, the device may not match what was read
    ghost var more;
    verdict, more := FlagAndReadBack(t, flagged.value, enable, chosen, enable, l, advType, log);
    assert (old(t.sent) + log) + more == old(t.sent) + (log + more);
  }

  method WithRetries(t: Thermometer, enable: bool, want: Option<Key>, links: seq<Link>) returns (verdict: Verdict)
    modifies t
    ensures var run := Retry(old(t.State()), enable, want, links, NoAttempt);
            t.State() == run.dev && verdict == run.verdict && t.sent == old(t.sent) + Flat(run.log)
  {
    hide TryOnce, Retry;
    ghost var whole := Retry(t.State(), enable, want, links, NoAttempt);
    ghost var log: seq<seq<Send>> := [];
    var last := NoAttempt;
    assert links[0..] == links;
    for i := 0 to |links|
      invariant whole == Prefixed(log, Retry(t.State(), enable, want, links[i..], last))
      invariant t.sent == old(t.sent) + Flat(log)
    {
      RetryStep(t.State(), enable, want, links, i, last, log);
      ghost var sends := TryOnce(t.State(), enable, want, links[i]).log;
      FlatSnoc(log, sends);
      log := log + [sends];
      if !links[i].Connected? {
        NoLinkNoSend(t.State(), enable, want, links[i]);
      } else {
        var outcome := OnConnection(t, enable, want, links[i]);
        if outcome.Some? {
          return outcome.value;
        }
      }
      last := FailureOf(links[i]);
    }
    RetryEnd(t.State(), enable, want, links, last, log);
    return Unreachable(last);
  }

  method CallOn(t: Thermometer, enable: bool, text: string, links: seq<Link>) returns (verdict: Verdict)
    modifies t
    ensures var run := SetEncryption(old(t.State()), enable, text, links);
            t.State() == run.dev && verdict == run.verdict && t.sent == old(t.sent) + Flat(run.log)
  {
    var want: Option<Key> := None;
    if text != "" {
      want := ParseBindKey(text);
      if want == None {
        return Refused(BadKeyText);
      }
    }
    verdict := WithRetries(t, enable, want, links);
  }

  lemma RetryStep(d: Device, enable: bool, want: Option<Key>, links: seq<Link>, i: nat, last: Failure,
                  log: seq<seq<Send>>)
    requires i < |links|
    ensures Prefixed(log, Retry(d, enable, want, links[i..], last)) ==
            match TryOnce(d, enable, want, links[i])
            case Returned(d1, sends, verdict) => Run(d1, log + [sends], verdict)
            case Raised(d1, sends) =>
              Prefixed(log + [sends], Retry(d1, enable, want, links[i + 1..], FailureOf(links[i])))
  {
    hide TryOnce;
    assert links[i..][0] == links[i] && links[i..][1..] == links[i + 1..];
    var first := TryOnce(d, enable, want, links[i]);
    if first.Raised? {
      var rest := Retry(first.dev, enable, want, links[i + 1..], FailureOf(links[i]));
      assert log + ([first.log] + rest.log) == (log + [first.log]) + rest.log;
    }
  }

  lemma RetryEnd(d: Device, enable: bool, want: Option<Key>, links: seq<Link>, last: Failure, log: seq<seq<Send>>)
    ensures Prefixed(log, Retry(d, enable, want, links[|links|..], last)) == Run(d, log, Unreachable(last))
  {
    assert links[|links|..] == [];
  }

  lemma NoLinkNoSend(d: Device, enable: bool, want: Option<Key>, l: Link)
    requires !l.Connected?
    ensures TryOnce(d, enable, want, l) == Raised(d, [])
  {}

  function Prefixed(log: seq<seq<Send>>, run: Run): Run {
    Run(run.dev, log + run.log, run.verdict)
  }
}
