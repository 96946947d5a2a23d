/**
 Changing a thermometer's settings: read the configuration, rebuild it with the changes, write it, read
 it back and compare, on one connection, with retries around it.
 */
module ConfigWrite {
  import opened Wrappers
  import opened Bytes
  import opened ConfigBlob
  import opened ConfigAlgebra
  import opened ConfigLaws
  import opened Thermometers

  datatype Effect = Lost | Kept | Adjusted(blob: Config)

  /** One attempt, as far as the link and the device decide it. */
  datatype Link =
    | NoDevice
    | NoConnection
    | Connected(
        answers: bool,     // the first configuration read succeeds
        hw: Byte,          // the hardware byte the device shows on this connection
        effect: Effect,    // what the device makes of the write
        writeRaises: bool,
        readsBack: bool,
        hwAfter: Byte)     // the hardware byte at the read-back

  datatype Failure = NoAttempt | NoConnectable | Failed(reached: bool)

  datatype Verdict =
    | Invalid(field: Field)
    | Unchanged
    | Verified(after: Config)
    | Mismatch(after: Config)
    | Unreachable(last: Failure)

  datatype Attempt =
    | Raised(blob: Config, log: seq<Send>)
    | Returned(blob: Config, log: seq<Send>, verdict: Verdict)

  function TakenAs(e: Effect, target: Config): Option<Config> {
    match e case Lost => None case Kept => Some(target) case Adjusted(b) => Some(b)
  }

  /** The read-back test: every byte of the configuration but the hardware byte. */
  predicate Verifies(after: Blob, target: Blob)
    requires |target| >= CONFIG_LENGTH
  {
    |after| >= CONFIG_LENGTH && after[0..9] == target[0..9] && after[10] == target[10]
  }

  function TryWrite(blob: Config, fw: Byte, changes: Changes, l: Link): Attempt {
    if !l.Connected? || !l.answers then Raised(blob, [])
    else
      var current := blob[9 := l.hw];
      match Build(current, changes, fw)
      case Err(TooShort) => Raised(current, [])
      case Err(OutOfRange(f)) => Returned(current, [], Invalid(f))
      case Ok(target) =>
        if target == current then Returned(current, [], Unchanged)
        else
          var stored := TakenAs(l.effect, target);
          var left := if stored.Some? then stored.value else current;
          var log := [ConfigSent(target, stored)];
          if l.writeRaises || !l.readsBack then Raised(left, log)
          else
            var after := left[9 := l.hwAfter];
            Returned(after, log, if Verifies(after, target) then Verified(after) else Mismatch(after))
  }

  function FailureOf(l: Link): Failure {
    match l
    case NoDevice => NoConnectable
    case NoConnection => Failed(false)
    case Connected(_, _, _, _, _, _) => Failed(true)
  }

  datatype Run = Run(blob: Config, log: seq<Send>, verdict: Verdict)

  function Write(blob: Config, fw: Byte, changes: Changes, links: seq<Link>, last: Failure): Run
    decreases |links|
  {
    if links == [] then Run(blob, [], Unreachable(last))
    else match TryWrite(blob, fw, changes, links[0])
      case Returned(b, log, verdict) => Run(b, log, verdict)
      case Raised(b, log) =>
        var rest := Write(b, fw, changes, links[1..], FailureOf(links[0]));
        Run(rest.blob, log + rest.log, rest.verdict)
  }

  // ----- what a write leaves behind

  /** No device in this run stores anything but what it is sent. */
  ghost predicate Honest(links: seq<Link>) {
    forall i | 0 <= i < |links| && links[i].Connected? :: !links[i].effect.Adjusted?
  }

  lemma HwVerIsNoChange(blob: Config, hw: Byte)
    ensures SameConfig(blob, blob[9 := hw])
  {}

  lemma VerifiesMeansSame(after: Config, target: Config)
    ensures Verifies(after, target) <==> SameConfig(after, target)
  {
    if Verifies(after, target) {
      forall i | 0 <= i < 11 && i != 9
        ensures after[i] == target[i]
      {
        if i < 9 {
          assert after[i] == after[0..9][i] == target[0..9][i];
        }
      }
    }
  }

  /** Whether a blob is, up to the hardware byte, the given configuration before or after the change. */
  ghost predicate BeforeOrAfter(original: Config, fw: Byte, changes: Changes, blob: Config) {
    SameConfig(original, blob)
      || (Build(original, changes, fw).Ok? && SameConfig(Build(original, changes, fw).value, blob))
  }

  /** Rebuilding either state of an interrupted write gives the finished one. */
  lemma RebuildFinishes(original: Config, fw: Byte, changes: Changes, blob: Config)
    requires BeforeOrAfter(original, fw, changes, blob)
    ensures Build(blob, changes, fw).Ok? == Build(original, changes, fw).Ok?
    ensures Build(blob, changes, fw).Ok? ==>
            SameConfig(Build(original, changes, fw).value, Build(blob, changes, fw).value)
    ensures Build(blob, changes, fw).Err? ==> SameConfig(original, blob)
  {
    hide Build, SameConfig;
    if SameConfig(original, blob) {
      BuildIgnoresHwVer(original, blob, changes, fw);
    } else {
      var built := Build(original, changes, fw).value;
      BuildIgnoresHwVer(built, blob, changes, fw);
      BuildIdempotent(original, changes, fw);
    }
  }

  lemma {:induction false} WriteHolds(original: Config, blob: Config, fw: Byte, changes: Changes, links: seq<Link>,
                                      last: Failure)
    requires Honest(links) && BeforeOrAfter(original, fw, changes, blob)
    ensures var run := Write(blob, fw, changes, links, last);
            && BeforeOrAfter(original, fw, changes, run.blob)
            && (run.verdict.Verified? || run.verdict == Unchanged ==>
                  Build(original, changes, fw).Ok? && SameConfig(Build(original, changes, fw).value, run.blob))
            && (run.verdict.Invalid? ==> Build(original, changes, fw).Err?)
            && (Build(original, changes, fw).Err? ==> run.log == [])
    decreases |links|
  {
    if links != [] {
      hide Build, SameConfig, Verifies;
      var l := links[0];
      var a := TryWrite(blob, fw, changes, l);
      AttemptHolds(original, blob, fw, changes, l);
      if a.Raised? {
        assert Honest(links[1..]) by {
          forall i | 0 <= i < |links[1..]| && links[1..][i].Connected?
            ensures !links[1..][i].effect.Adjusted?
          {
            assert links[1..][i] == links[i + 1];
          }
        }
        WriteHolds(original, a.blob, fw, changes, links[1..], FailureOf(l));
      }
    }
  }

  lemma AttemptHolds(original: Config, blob: Config, fw: Byte, changes: Changes, l: Link)
    requires BeforeOrAfter(original, fw, changes, blob) && (l.Connected? ==> !l.effect.Adjusted?)
    ensures var a := TryWrite(blob, fw, changes, l);
            && BeforeOrAfter(original, fw, changes, a.blob)
            && (a.Returned? && (a.verdict.Verified? || a.verdict == Unchanged) ==>
                  Build(original, changes, fw).Ok? && SameConfig(Build(original, changes, fw).value, a.blob))
            && (a.Returned? && a.verdict.Invalid? ==> Build(original, changes, fw).Err?)
            && (Build(original, changes, fw).Err? ==> a.log == [])
  {
    if l.Connected? && l.answers {
      hide Build, SameConfig, Verifies;
      var current := blob[9 := l.hw];
      HwVerIsNoChange(blob, l.hw);
      SameConfigPasses(original, fw, changes, blob, current);
      RebuildFinishes(original, fw, changes, current);
      if Build(current, changes, fw).Ok? {
        var target := Build(current, changes, fw).value;
        if target != current {
          var left := if l.effect.Kept? then target else current;
          var after := left[9 := l.hwAfter];
          HwVerIsNoChange(left, l.hwAfter);
          SameConfigPasses(original, fw, changes, left, after);
          VerifiesMeansSame(after, target);
          if Verifies(after, target) {
            SameConfigSymmetric(after, target);
            SameConfigTransitive(Build(original, changes, fw).value, target, after);
          }
        }
      }
    }
  }

  lemma SameConfigPasses(original: Config, fw: Byte, changes: Changes, a: Config, b: Config)
    requires BeforeOrAfter(original, fw, changes, a) && SameConfig(a, b)
    ensures BeforeOrAfter(original, fw, changes, b)
  {
    hide Build;
    if SameConfig(original, a) {
      SameConfigTransitive(original, a, b);
    } else {
      SameConfigTransitive(Build(original, changes, fw).value, a, b);
    }
  }

  /**
   However many earlier attempts' writes were lost or kept before the link failed, the device holds the
   old configuration or the complete new one, never a mixture; a write reported as done (verified, or
   found to change nothing) leaves the new one; and a refused value means nothing was ever sent.
   */
  lemma WriteIsAllOrNothing(blob: Config, fw: Byte, changes: Changes, links: seq<Link>)
    requires Honest(links)
    ensures var run := Write(blob, fw, changes, links, NoAttempt);
            && (SameConfig(blob, run.blob)
                || (Build(blob, changes, fw).Ok? && SameConfig(Build(blob, changes, fw).value, run.blob)))
            && (run.verdict.Verified? || run.verdict == Unchanged ==>
                  Build(blob, changes, fw).Ok? && SameConfig(Build(blob, changes, fw).value, run.blob))
            && (run.verdict.Invalid? ==> run.log == [] && SameConfig(blob, run.blob))
            && (!AllInRange(changes, LayoutOf(fw)) ==> run.log == [])
  {
    hide Build, SameConfig;
    HwVerIsNoChange(blob, blob[9]);
    assert blob[9 := blob[9]] == blob;
    WriteHolds(blob, blob, fw, changes, links, NoAttempt);
    BuildMeaning(blob, changes, fw);
  }

  lemma SameConfigParses(a: Config, b: Config, fw: Byte, f: Field)
    requires SameConfig(a, b) && HasKey(f, LayoutOf(fw)) && f != HwVer
    ensures FieldValue(f, a) == FieldValue(f, b)
  {
    hide Mask;
    ValueOfBits(f, a);
    ValueOfBits(f, b);
    assert Idx(f) != 9;
  }

  /**
   A write reported as done is what the device now says: every requested field of its layout parses as
   its stored value, and every other field but the hardware version parses as before the call.
   */
  lemma DoneWriteReadsBack(blob: Config, fw: Byte, changes: Changes, links: seq<Link>, f: Field)
    requires Honest(links) && HasKey(f, LayoutOf(fw))
    requires var run := Write(blob, fw, changes, links, NoAttempt); run.verdict.Verified? || run.verdict == Unchanged
    ensures var run := Write(blob, fw, changes, links, NoAttempt);
            var before, after := Parse(blob, fw), Parse(run.blob, fw);
            && before.Ok? && after.Ok? && f in before.value && f in after.value
            && (Requested(f, changes, LayoutOf(fw)) ==> after.value[f] == Stored(f, Wanted(f, changes).value))
            && (!Requested(f, changes, LayoutOf(fw)) && f != HwVer && f != MeasureMult && f != Flg3Raw ==>
                  after.value[f] == before.value[f])
  {
    hide Write, Build, SameConfig, FieldValue, Requested, Stored;
    WriteIsAllOrNothing(blob, fw, changes, links);
    var run := Write(blob, fw, changes, links, NoAttempt);
    var built := Build(blob, changes, fw).value;
    ParseOfBuild(blob, changes, fw);
    if f != HwVer {
      SameConfigParses(built, run.blob, fw, f);
    } else {
      assert !Requested(HwVer, changes, LayoutOf(fw)) by { HwVerNeverRequested(changes, fw); }
    }
  }

  /** So it is for flg3: its upper nibble is as before the call, and all of it unless AdvDelay was requested. */
  lemma DoneWriteKeepsFlagByte(blob: Config, fw: Byte, changes: Changes, links: seq<Link>)
    requires Honest(links) && HasKey(Flg3Raw, LayoutOf(fw))
    requires var run := Write(blob, fw, changes, links, NoAttempt); run.verdict.Verified? || run.verdict == Unchanged
    ensures var run := Write(blob, fw, changes, links, NoAttempt);
            var before, after := Parse(blob, fw), Parse(run.blob, fw);
            && before.Ok? && after.Ok? && Flg3Raw in before.value && Flg3Raw in after.value
            && after.value[Flg3Raw] / 16 == before.value[Flg3Raw] / 16
            && (!Requested(AdvDelay, changes, LayoutOf(fw)) ==> after.value[Flg3Raw] == before.value[Flg3Raw])
  {
    hide Write, Build, SameConfig, FieldValue, Requested, Stored;
    WriteIsAllOrNothing(blob, fw, changes, links);
    var run := Write(blob, fw, changes, links, NoAttempt);
    var built := Build(blob, changes, fw).value;
    ParseOfBuild(blob, changes, fw);
    SameConfigParses(built, run.blob, fw, Flg3Raw);
  }

  lemma HwVerNeverRequested(changes: Changes, fw: Byte)
    ensures !Requested(HwVer, changes, LayoutOf(fw))
  {}

  predicate Undisturbed(l: Link) {
    l.Connected? && l.answers && l.effect.Kept? && !l.writeRaises && l.readsBack
  }

  lemma UndisturbedAttempt(blob: Config, fw: Byte, changes: Changes, l: Link)
    requires Undisturbed(l)
    ensures var a := TryWrite(blob, fw, changes, l);
            && a.Returned? && (a.verdict.Verified? || a.verdict == Unchanged <==> AllInRange(changes, LayoutOf(fw)))
            && (a.verdict.Invalid? <==> !AllInRange(changes, LayoutOf(fw)))
  {
    hide Build, AllInRange, Verifies, SameConfig;
    var current: Config := blob[9 := l.hw];
    BuildMeaning(current, changes, fw);
    if Build(current, changes, fw).Ok? {
      var target: Config := Build(current, changes, fw).value;
      HwVerIsNoChange(target, l.hwAfter);
      SameConfigSymmetric(target, target[9 := l.hwAfter]);
      VerifiesMeansSame(target[9 := l.hwAfter], target);
    }
  }

  /**
   Convergence: from whatever an interrupted write left behind, one undisturbed write with the same changes
   is reported done, and leaves the new configuration, exactly when every value fits; otherwise it is refused.
   */
  lemma RewriteFinishes(blob: Config, fw: Byte, changes: Changes, links: seq<Link>, l: Link)
    requires Honest(links) && Undisturbed(l)
    ensures var left := Write(blob, fw, changes, links, NoAttempt).blob;
            var run := Write(left, fw, changes, [l], NoAttempt);
            && (run.verdict.Verified? || run.verdict == Unchanged <==> AllInRange(changes, LayoutOf(fw)))
            && (run.verdict.Invalid? <==> !AllInRange(changes, LayoutOf(fw)))
            && (AllInRange(changes, LayoutOf(fw)) ==>
                  Build(blob, changes, fw).Ok? && SameConfig(Build(blob, changes, fw).value, run.blob))
  {
    hide Build, AllInRange, SameConfig, TryWrite;
    HwVerIsNoChange(blob, blob[9]);
    assert blob[9 := blob[9]] == blob;
    WriteHolds(blob, blob, fw, changes, links, NoAttempt);
    var left := Write(blob, fw, changes, links, NoAttempt).blob;
    UndisturbedAttempt(left, fw, changes, l);
    WriteHolds(blob, left, fw, changes, [l], NoAttempt);
    var run := Write(left, fw, changes, [l], NoAttempt);
    assert run.verdict == TryWrite(left, fw, changes, l).verdict;
    BuildMeaning(blob, changes, fw);
  }

  // ----- a device that adjusts what it is sent

  lemma {:induction false} VerifiedRequest(blob: Config, fw: Byte, changes: Changes, links: seq<Link>, last: Failure,
                                           f: Field)
    requires Requested(f, changes, LayoutOf(fw))
    requires var v := Write(blob, fw, changes, links, last).verdict; v.Verified? || v == Unchanged
    ensures InRange(f, Wanted(f, changes).value)
    ensures Bits(f, Write(blob, fw, changes, links, last).blob) == Code(f, Wanted(f, changes).value)
    decreases |links|
  {
    hide Build, Bits, Code, InRange, Requested, SameConfig, Verifies;
    var l := links[0];
    var a := TryWrite(blob, fw, changes, l);
    if a.Raised? {
      VerifiedRequest(a.blob, fw, changes, links[1..], FailureOf(l), f);
    } else {
      var current := blob[9 := l.hw];
      BuildMeaning(current, changes, fw);
      RequestedIsWritten(f, changes, LayoutOf(fw));
      var target := Build(current, changes, fw).value;
      assert Bits(f, target) == Target(f, current, changes, LayoutOf(fw));
      if a.verdict.Verified? {
        VerifiesMeansSame(a.blob, target);
        SameConfigSlots(a.blob, target, LayoutOf(fw));
      }
    }
  }

  lemma RequestedIsWritten(f: Field, changes: Changes, layout: Layout)
    requires Requested(f, changes, layout)
    ensures Writes(f, layout)
  {}

  // ----- the same call, changing the device step by step

  method WriteOnConnection(t: Thermometer, changes: Changes, l: Link) returns (verdict: Option<Verdict>)
    requires l.Connected?
    modifies t
    ensures match TryWrite(old(t.blob), t.fw, changes, l)
            case Raised(b, log) => verdict == None && t.blob == b && t.sent == old(t.sent) + log
            case Returned(b, log, v) => verdict == Some(v) && t.blob == b && t.sent == old(t.sent) + log
    ensures t.key == old(t.key)
  {
    hide Build, Verifies;
    if !l.answers {
      return None;
    }
    t.RewriteHwVer(l.hw);
    var current := t.blob;
    var built := BuildInPlace(current, changes, t.fw);
    if built.Err? {
      return if built.error.OutOfRange? then Some(Invalid(built.error.field)) else None;
    }
    var target := built.value;
    if target == current {
      return Some(Unchanged);
    }
    t.WriteConfig(target, TakenAs(l.effect, target));
    if l.writeRaises || !l.readsBack {
      return None;
    }
    t.RewriteHwVer(l.hwAfter);
    var ok := Verifies(t.blob, target);
    return Some(if ok then Verified(t.blob) else Mismatch(t.blob));
  }

  function Prefixed(log: seq<Send>, run: Run): Run {
    Run(run.blob, log + run.log, run.verdict)
  }

  lemma WriteStep(blob: Config, fw: Byte, changes: Changes, links: seq<Link>, i: nat, last: Failure, log: seq<Send>)
    requires i < |links|
    ensures Prefixed(log, Write(blob, fw, changes, links[i..], last)) ==
            match TryWrite(blob, fw, changes, links[i])
            case Returned(b, sends, verdict) => Run(b, log + sends, verdict)
            case Raised(b, sends) =>
              Prefixed(log + sends, Write(b, fw, changes, links[i + 1..], FailureOf(links[i])))
  {
    hide TryWrite;
    assert links[i..][0] == links[i] && links[i..][1..] == links[i + 1..];
    var a := TryWrite(blob, fw, changes, links[i]);
    if a.Raised? {
      var rest := Write(a.blob, fw, changes, links[i + 1..], FailureOf(links[i]));
      assert log + (a.log + rest.log) == (log + a.log) + rest.log;
    }
  }

  lemma WriteEnd(blob: Config, fw: Byte, changes: Changes, links: seq<Link>, last: Failure, log: seq<Send>)
    ensures Prefixed(log, Write(blob, fw, changes, links[|links|..], last)) == Run(blob, log, Unreachable(last))
  {
    assert log + [] == log;
  }

  lemma NoLinkNoWrite(blob: Config, fw: Byte, changes: Changes, l: Link)
    requires !l.Connected?
    ensures TryWrite(blob, fw, changes, l) == Raised(blob, [])
  {}

  method AsyncWrite(t: Thermometer, changes: Changes, links: seq<Link>) returns (verdict: Verdict)
    modifies t
    ensures var run := Write(old(t.blob), t.fw, changes, links, NoAttempt);
            t.blob == run.blob && verdict == run.verdict && t.sent == old(t.sent) + run.log
    ensures t.key == old(t.key)
  {
    hide Write, TryWrite;
    ghost var whole := Write(t.blob, t.fw, changes, links, NoAttempt);
    ghost var log: seq<Send> := [];
    var last := NoAttempt;
    assert links[0..] == links;
    for i := 0 to |links|
      invariant t.sent == old(t.sent) + log && t.key == old(t.key)
      invariant whole == Prefixed(log, Write(t.blob, t.fw, changes, links[i..], last))
    {
      WriteStep(t.blob, t.fw, changes, links, i, last, log);
      ghost var sends := TryWrite(t.blob, t.fw, changes, links[i]).log;
      assert (old(t.sent) + log) + sends == old(t.sent) + (log + sends);
      log := log + sends;
      if !links[i].Connected? {
        NoLinkNoWrite(t.blob, t.fw, changes, links[i]);
      } else {
        var outcome := WriteOnConnection(t, changes, links[i]);
        if outcome.Some? {
          return outcome.value;
        }
      }
      last := FailureOf(links[i]);
    }
    WriteEnd(t.blob, t.fw, changes, links, last, log);
    return Unreachable(last);
  }
}
