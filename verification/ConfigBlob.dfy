/**
 The thermometer's 11-byte configuration: its fields, how they are read out of a blob, and how a
 blob is rebuilt with some of them changed.

 A field is a slot: a byte index and the bits it owns there. Which slots may be rewritten depends
 on the firmware's layout.
 */
module ConfigBlob {
  import opened Wrappers
  import opened Bytes

  const CONFIG_LENGTH := 11
  const FW_LEGACY_MAX: Byte := 0x47
  const FW_MODERN_MIN: Byte := 0x50
  const FW_ADV_CRYPTO_MIN: Byte := 0x22

  datatype Layout = Legacy | Transitional | Modern

  /** Firmware 0 means "unknown" and is taken as modern. */
  function LayoutOf(fw: Byte): Layout {
    if fw != 0 && fw < FW_LEGACY_MAX then Legacy
    else if fw == 0 || fw > FW_MODERN_MIN then Modern
    else Transitional
  }

  datatype Field =
    | AdvType | ComfortSmiley | BlinkingTimeSmile | TempF | ShowBatt | TxMeasures | LpMeasures
    | Smiley | AdvFlags | ScreenOff
    | TempOffset | HumiOffset | AdvDelay | EventAdvCnt
    | AdvInterval | MeasureInterval | MeasureMult | RfTxPower | ConnectLatency | LcdRefresh | Averaging
    // read-only: reported by Parse, ignored by Build
    | AdvCrypto | Bt5phy | Longrange | HwVer | Flg3Raw | DateDdmm | WeekdayOff | Byte2Raw | Byte3Raw

  /** Requested values. Switches are 0 or non-zero; the two offsets are in hundredths of their unit. */
  type Changes = map<Field, int>

  function Idx(f: Field): nat {
    match f
    case AdvType | ComfortSmiley | BlinkingTimeSmile | TempF | ShowBatt | TxMeasures | LpMeasures => 0
    case Smiley | AdvFlags | ScreenOff | AdvCrypto | Bt5phy | Longrange => 1
    case TempOffset | AdvDelay | Flg3Raw | DateDdmm | WeekdayOff | Byte2Raw => 2
    case HumiOffset | EventAdvCnt | Byte3Raw => 3
    case AdvInterval => 4
    case MeasureInterval | MeasureMult => 5
    case RfTxPower => 6
    case ConnectLatency => 7
    case LcdRefresh => 8
    case HwVer => 9
    case Averaging => 10
  }

  function Mask(f: Field): Byte {
    match f
    case AdvType => 0x03
    case ComfortSmiley => 0x04
    case BlinkingTimeSmile => 0x08
    case TempF => 0x10
    case ShowBatt => 0x20
    case TxMeasures => 0x40
    case LpMeasures => 0x80
    case Smiley => 0x07
    case AdvCrypto => 0x08
    case AdvFlags => 0x10
    case Bt5phy => 0x20
    case Longrange => 0x40
    case ScreenOff => 0x80
    case AdvDelay => 0x0F
    case DateDdmm => 0x40
    case WeekdayOff => 0x80
    case _ => 0xFF
  }

  /** A field that is one bit, switched on by any non-zero value. */
  predicate IsSwitch(f: Field) {
    match f
    case ComfortSmiley | BlinkingTimeSmile | TempF | ShowBatt | TxMeasures | LpMeasures => true
    case AdvFlags | ScreenOff | AdvCrypto | Bt5phy | Longrange | DateDdmm | WeekdayOff => true
    case _ => false
  }

  predicate IsOffset(f: Field) {
    f == TempOffset || f == HumiOffset
  }

  /** The bits of one field inside a blob, where they lie. */
  function Bits(f: Field, blob: Blob): Byte
    requires |blob| >= CONFIG_LENGTH
  {
    blob[Idx(f)] & Mask(f)
  }

  // ----- reading

  function SignedByte(b: Byte): int {
    if b >= 128 then b as int - 256 else b as int
  }

  /** The value of a slot, as Parse reports it. */
  function FieldValue(f: Field, blob: Blob): int
    requires |blob| >= CONFIG_LENGTH
  {
    match f
    case ComfortSmiley => ((blob[0] >> 2) & 1) as int
    case BlinkingTimeSmile => ((blob[0] >> 3) & 1) as int
    case TempF => ((blob[0] >> 4) & 1) as int
    case ShowBatt => ((blob[0] >> 5) & 1) as int
    case TxMeasures => ((blob[0] >> 6) & 1) as int
    case LpMeasures => ((blob[0] >> 7) & 1) as int
    case AdvCrypto => ((blob[1] >> 3) & 1) as int
    case AdvFlags => ((blob[1] >> 4) & 1) as int
    case Bt5phy => ((blob[1] >> 5) & 1) as int
    case Longrange => ((blob[1] >> 6) & 1) as int
    case ScreenOff => ((blob[1] >> 7) & 1) as int
    case DateDdmm => ((blob[2] >> 6) & 1) as int
    case WeekdayOff => ((blob[2] >> 7) & 1) as int
    case TempOffset => SignedByte(blob[2]) * 10
    case HumiOffset => SignedByte(blob[3]) * 10
    case _ => (blob[Idx(f)] & Mask(f)) as int
  }

  /** Whether a parsed configuration has this key under a layout. */
  predicate HasKey(f: Field, layout: Layout) {
    match f
    case TempOffset | HumiOffset => layout.Legacy?
    case Flg3Raw | AdvDelay | DateDdmm | WeekdayOff | EventAdvCnt => layout.Modern?
    case Byte2Raw | Byte3Raw => layout.Transitional?
    case _ => true
  }

  datatype ParseError = ShortBlob(length: nat)

  function Parse(blob: Blob, fw: Byte): Result<map<Field, int>, ParseError> {
    if |blob| < CONFIG_LENGTH then Err(ShortBlob(|blob|))
    else Ok(map f: Field | HasKey(f, LayoutOf(fw)) :: FieldValue(f, blob))
  }

  // ----- rebuilding

  const FIELD_COUNT := 20

  /** The order in which a rebuild takes the fields, which decides the error it reports first. */
  function FieldAt(k: nat): Field {
    match k
    case 0 => ComfortSmiley
    case 1 => BlinkingTimeSmile
    case 2 => TempF
    case 3 => ShowBatt
    case 4 => TxMeasures
    case 5 => LpMeasures
    case 6 => AdvType
    case 7 => Smiley
    case 8 => AdvFlags
    case 9 => ScreenOff
    case 10 => TempOffset
    case 11 => HumiOffset
    case 12 => AdvDelay
    case 13 => EventAdvCnt
    case 14 => AdvInterval
    case 15 => MeasureInterval
    case 16 => RfTxPower
    case 17 => ConnectLatency
    case 18 => LcdRefresh
    case _ => Averaging
  }

  /** Whether a rebuild under this layout may write the field's slot. */
  predicate Writes(f: Field, layout: Layout) {
    match f
    case TempOffset | HumiOffset => layout.Legacy?
    case AdvDelay | EventAdvCnt => layout.Modern?
    case AdvCrypto | Bt5phy | Longrange | HwVer | Flg3Raw | DateDdmm | WeekdayOff | Byte2Raw | Byte3Raw => false
    case MeasureMult => false // an alias: it requests MeasureInterval
    case _ => true
  }

  /** The value requested for a slot. MeasureMult is a second name for MeasureInterval and loses to it. */
  function Wanted(f: Field, changes: Changes): Option<int> {
    if f in changes then Some(changes[f])
    else if f == MeasureInterval && MeasureMult in changes then Some(changes[MeasureMult])
    else None
  }

  /** What a field's value becomes on the wire: the offsets travel as whole tenths. */
  function Wire(f: Field, v: int): int {
    if IsOffset(f) then RoundHalfEven(v, 10) else v
  }

  predicate InRange(f: Field, v: int) {
    match f
    case AdvType => 0 <= v <= 3
    case Smiley => 0 <= v <= 7
    case TempOffset | HumiOffset => -127 <= Wire(f, v) <= 127
    case AdvDelay => 0 <= v <= 15
    case AdvInterval | MeasureInterval | LcdRefresh => 1 <= v <= 255
    case EventAdvCnt | RfTxPower | ConnectLatency | Averaging => 0 <= v <= 255
    case _ => true // a switch
  }

  /** The bits that stand for a value in its slot. */
  function Code(f: Field, v: int): Byte
    requires InRange(f, v)
  {
    if IsSwitch(f) then (if v != 0 then Mask(f) else 0)
    else (Wire(f, v) % 256) as Byte
  }

  /** A byte with the masked bits replaced by a code. */
  function Over(b: Byte, mask: Byte, code: Byte): Byte {
    (b & !mask) | code
  }

  function PutAt(blob: Blob, idx: nat, mask: Byte, code: Byte): (r: Blob)
    requires idx < |blob|
    ensures |r| == |blob|
  {
    blob[idx := Over(blob[idx], mask, code)]
  }

  /** A blob with one slot replaced and every other bit kept. */
  function Put(blob: Blob, f: Field, code: Byte): (r: Blob)
    requires |blob| >= CONFIG_LENGTH
    ensures |r| == |blob|
  {
    PutAt(blob, Idx(f), Mask(f), code)
  }

  datatype BuildError = TooShort | OutOfRange(field: Field)

  predicate Requested(f: Field, changes: Changes, layout: Layout) {
    Writes(f, layout) && Wanted(f, changes).Some?
  }

  function Step(blob: Blob, f: Field, changes: Changes, layout: Layout): (r: Result<Blob, BuildError>)
    requires |blob| >= CONFIG_LENGTH
    ensures r.Ok? ==> |r.value| == |blob|
  {
    if !Requested(f, changes, layout) then Ok(blob)
    else
      var v := Wanted(f, changes).value;
      if InRange(f, v) then Ok(Put(blob, f, Code(f, v))) else Err(OutOfRange(f))
  }

  /** Take the fields from position `k` on, stopping at the first value that does not fit. */
  function BuildFrom(blob: Blob, k: nat, changes: Changes, layout: Layout): (r: Result<Blob, BuildError>)
    requires |blob| >= CONFIG_LENGTH
    ensures r.Ok? ==> |r.value| == |blob|
    decreases FIELD_COUNT - k
  {
    if k >= FIELD_COUNT then Ok(blob)
    else match Step(blob, FieldAt(k), changes, layout)
      case Err(e) => Err(e)
      case Ok(next) => BuildFrom(next, k + 1, changes, layout)
  }

  /** The rebuilt blob, or the first field whose value does not fit. */
  function Build(base: Blob, changes: Changes, fw: Byte): (r: Result<Blob, BuildError>)
    ensures r.Ok? ==> |r.value| == |base| >= CONFIG_LENGTH
  {
    if |base| < CONFIG_LENGTH then Err(TooShort) else BuildFrom(base, 0, changes, LayoutOf(fw))
  }

  datatype CryptoError = BlobTooShort | NoEncryption(fw: Byte)

  /** The blob with the encrypted-advertising flag set or cleared. */
  function WithAdvCrypto(blob: Blob, enabled: bool, fw: Byte): (r: Result<Blob, CryptoError>)
    ensures r.Ok? ==> |r.value| == |blob| >= CONFIG_LENGTH
  {
    if |blob| < CONFIG_LENGTH then Err(BlobTooShort)
    else if fw != 0 && fw < FW_ADV_CRYPTO_MIN then Err(NoEncryption(fw))
    else Ok(Put(blob, AdvCrypto, if enabled then Mask(AdvCrypto) else 0))
  }

  predicate Encrypts(blob: Blob)
    requires |blob| >= CONFIG_LENGTH
  {
    FieldValue(AdvCrypto, blob) == 1
  }

  // ----- the same two rebuilds, overwriting a byte array in place

  lemma OverSets(b: Byte, mask: Byte)
    ensures Over(b, mask, mask) == b | mask
  {}

  lemma OverClears(b: Byte, mask: Byte)
    ensures Over(b, mask, 0) == b & !mask
  {}

  lemma SwitchCode(f: Field, v: int)
    requires IsSwitch(f)
    ensures InRange(f, v) && Code(f, v) == if v != 0 then Mask(f) else 0
  {}

  /** `_bit`: set or clear the masked bits when the key is requested. */
  method SetBit(b: array<Byte>, idx: nat, mask: Byte, changes: Changes, key: Field)
    requires idx < b.Length
    modifies b
    ensures key in changes ==> b[..] == PutAt(old(b[..]), idx, mask, if changes[key] != 0 then mask else 0)
    ensures key !in changes ==> b[..] == old(b[..])
  {
    if key in changes {
      if changes[key] != 0 {
        OverSets(b[idx], mask);
        b[idx] := b[idx] | mask;
      } else {
        OverClears(b[idx], mask);
        b[idx] := b[idx] & !mask;
      }
    }
  }

  /** Store a value that must lie in `low..high` over the masked bits; a value outside is refused. */
  method SetRanged(b: array<Byte>, idx: nat, mask: Byte, low: int, high: int, v: int) returns (fits: bool)
    requires idx < b.Length
    modifies b
    ensures fits <==> low <= v <= high
    ensures b[..] == if fits then PutAt(old(b[..]), idx, mask, (v % 256) as Byte) else old(b[..])
  {
    fits := low <= v <= high;
    if fits {
      b[idx] := (b[idx] & !mask) | ((v % 256) as Byte);
    }
  }

  lemma SwitchStep(blob: Blob, f: Field, changes: Changes, layout: Layout)
    requires |blob| >= CONFIG_LENGTH && IsSwitch(f) && Writes(f, layout)
    ensures Step(blob, f, changes, layout) ==
            Ok(if f in changes then PutAt(blob, Idx(f), Mask(f), if changes[f] != 0 then Mask(f) else 0) else blob)
  {
    if f in changes {
      SwitchCode(f, changes[f]);
    }
  }

  lemma RangedStep(blob: Blob, f: Field, changes: Changes, layout: Layout)
    requires |blob| >= CONFIG_LENGTH && Requested(f, changes, layout) && !IsSwitch(f)
    ensures var want := Wanted(f, changes).value;
            Step(blob, f, changes, layout) ==
            if InRange(f, want) then Ok(PutAt(blob, Idx(f), Mask(f), (Wire(f, want) % 256) as Byte))
            else Err(OutOfRange(f))
  {
  }

  /** The array holds what the fields before position `k` left of a rebuild that ends in `goal`. */
  ghost predicate Before(b: array<Byte>, k: nat, goal: Result<Blob, BuildError>, changes: Changes, layout: Layout)
    reads b
  {
    b.Length >= CONFIG_LENGTH && k <= FIELD_COUNT && goal == BuildFrom(b[..], k, changes, layout)
  }

  ghost predicate AtField(b: array<Byte>, f: Field, k: nat, goal: Result<Blob, BuildError>, changes: Changes,
                          layout: Layout)
    reads b
  {
    k < FIELD_COUNT && FieldAt(k) == f && Before(b, k, goal, changes, layout)
  }

  /** A field nobody asked for leaves the array as it is. */
  lemma SkipField(b: array<Byte>, f: Field, k: nat, goal: Result<Blob, BuildError>, changes: Changes, layout: Layout)
    requires AtField(b, f, k, goal, changes, layout) && !Requested(f, changes, layout)
    ensures Before(b, k + 1, goal, changes, layout)
  {}

  method BuildSwitch(b: array<Byte>, idx: nat, mask: Byte, changes: Changes, f: Field,
                     ghost k: nat, ghost goal: Result<Blob, BuildError>, ghost layout: Layout)
    requires AtField(b, f, k, goal, changes, layout)
    requires IsSwitch(f) && Writes(f, layout) && idx == Idx(f) && mask == Mask(f)
    modifies b
    ensures Before(b, k + 1, goal, changes, layout)
  {
    SwitchStep(b[..], f, changes, layout);
    SetBit(b, idx, mask, changes, f);
  }

  method BuildRanged(b: array<Byte>, idx: nat, mask: Byte, low: int, high: int, v: int, f: Field,
                     ghost k: nat, ghost goal: Result<Blob, BuildError>, ghost changes: Changes, ghost layout: Layout)
    returns (error: Option<BuildError>)
    requires AtField(b, f, k, goal, changes, layout)
    requires Requested(f, changes, layout) && !IsSwitch(f) && idx == Idx(f) && mask == Mask(f)
    requires var want := Wanted(f, changes).value; v == Wire(f, want) && (InRange(f, want) <==> low <= v <= high)
    modifies b
    ensures error == None ==> Before(b, k + 1, goal, changes, layout)
    ensures error.Some? ==> goal == Err(error.value)
  {
    RangedStep(b[..], f, changes, layout);
    var fits := SetRanged(b, idx, mask, low, high, v);
    if fits {
      return None;
    }
    return Some(OutOfRange(f));
  }

  method BuildFlags(b: array<Byte>, changes: Changes, ghost k: nat, ghost goal: Result<Blob, BuildError>,
                    ghost layout: Layout)
    requires k == 0 && Before(b, k, goal, changes, layout)
    modifies b
    ensures Before(b, k + 6, goal, changes, layout)
  {
    hide BuildFrom;
    BuildSwitch(b, 0, 0x04, changes, ComfortSmiley, k, goal, layout);
    BuildSwitch(b, 0, 0x08, changes, BlinkingTimeSmile, k + 1, goal, layout);
    BuildSwitch(b, 0, 0x10, changes, TempF, k + 2, goal, layout);
    BuildSwitch(b, 0, 0x20, changes, ShowBatt, k + 3, goal, layout);
    BuildSwitch(b, 0, 0x40, changes, TxMeasures, k + 4, goal, layout);
    BuildSwitch(b, 0, 0x80, changes, LpMeasures, k + 5, goal, layout);
  }

  /** Store a number over the masked bits when its key is requested. */
  method BuildNumber(b: array<Byte>, idx: nat, mask: Byte, low: int, high: int, want: Option<int>, f: Field,
                     ghost k: nat, ghost goal: Result<Blob, BuildError>, ghost changes: Changes, ghost layout: Layout)
    returns (error: Option<BuildError>)
    requires AtField(b, f, k, goal, changes, layout)
    requires Writes(f, layout) && !IsSwitch(f) && !IsOffset(f) && idx == Idx(f) && mask == Mask(f)
    requires want == Wanted(f, changes)
    requires want.Some? ==> (InRange(f, want.value) <==> low <= want.value <= high)
    modifies b
    ensures error == None ==> Before(b, k + 1, goal, changes, layout)
    ensures error.Some? ==> goal == Err(error.value)
  {
    if want.Some? {
      error := BuildRanged(b, idx, mask, low, high, want.value, f, k, goal, changes, layout);
    } else {
      error := None;
      SkipField(b, f, k, goal, changes, layout);
    }
  }

  function Get(changes: Changes, key: Field): Option<int> {
    if key in changes then Some(changes[key]) else None
  }

  method BuildTypeAndFlags2(b: array<Byte>, changes: Changes, ghost k: nat, ghost goal: Result<Blob, BuildError>,
                            ghost layout: Layout)
    returns (error: Option<BuildError>)
    requires k == 6 && Before(b, k, goal, changes, layout)
    modifies b
    ensures error == None ==> Before(b, k + 4, goal, changes, layout)
    ensures error.Some? ==> goal == Err(error.value)
  {
    hide BuildFrom;
    error := BuildNumber(b, 0, 0x03, 0, 3, Get(changes, AdvType), AdvType, k, goal, changes, layout);
    if error.Some? {
      return;
    }
    error := BuildNumber(b, 1, 0x07, 0, 7, Get(changes, Smiley), Smiley, k + 1, goal, changes, layout);
    if error.Some? {
      return;
    }
    BuildSwitch(b, 1, 0x10, changes, AdvFlags, k + 2, goal, layout);
    BuildSwitch(b, 1, 0x80, changes, ScreenOff, k + 3, goal, layout);
  }

  method BuildLegacyBytes(b: array<Byte>, changes: Changes, ghost k: nat, ghost goal: Result<Blob, BuildError>)
    returns (error: Option<BuildError>)
    requires k == 10 && Before(b, k, goal, changes, Legacy)
    modifies b
    ensures error == None ==> Before(b, k + 4, goal, changes, Legacy)
    ensures error.Some? ==> goal == Err(error.value)
  {
    hide BuildFrom;
    error := None;
    if TempOffset in changes {
      var v := RoundHalfEven(changes[TempOffset], 10);
      error := BuildRanged(b, 2, 0xFF, -127, 127, v, TempOffset, k, goal, changes, Legacy);
      if error.Some? {
        return;
      }
    } else {
      SkipField(b, TempOffset, k, goal, changes, Legacy);
    }
    if HumiOffset in changes {
      var v := RoundHalfEven(changes[HumiOffset], 10);
      error := BuildRanged(b, 3, 0xFF, -127, 127, v, HumiOffset, k + 1, goal, changes, Legacy);
      if error.Some? {
        return;
      }
    } else {
      SkipField(b, HumiOffset, k + 1, goal, changes, Legacy);
    }
    SkipField(b, AdvDelay, k + 2, goal, changes, Legacy);
    SkipField(b, EventAdvCnt, k + 3, goal, changes, Legacy);
  }

  method BuildModernBytes(b: array<Byte>, changes: Changes, ghost k: nat, ghost goal: Result<Blob, BuildError>)
    returns (error: Option<BuildError>)
    requires k == 10 && Before(b, k, goal, changes, Modern)
    modifies b
    ensures error == None ==> Before(b, k + 4, goal, changes, Modern)
    ensures error.Some? ==> goal == Err(error.value)
  {
    hide BuildFrom;
    SkipField(b, TempOffset, k, goal, changes, Modern);
    SkipField(b, HumiOffset, k + 1, goal, changes, Modern);
    error := BuildNumber(b, 2, 0x0F, 0, 15, Get(changes, AdvDelay), AdvDelay, k + 2, goal, changes, Modern);
    if error.Some? {
      return;
    }
    error := BuildNumber(b, 3, 0xFF, 0, 255, Get(changes, EventAdvCnt), EventAdvCnt, k + 3, goal, changes, Modern);
  }

  method BuildTiming(b: array<Byte>, changes: Changes, ghost layout: Layout, ghost k: nat,
                     ghost goal: Result<Blob, BuildError>)
    returns (error: Option<BuildError>)
    requires k == 14 && Before(b, k, goal, changes, layout)
    modifies b
    ensures error == None ==> Before(b, k + 3, goal, changes, layout)
    ensures error.Some? ==> goal == Err(error.value)
  {
    hide BuildFrom;
    error := BuildNumber(b, 4, 0xFF, 1, 255, Get(changes, AdvInterval), AdvInterval, k, goal, changes, layout);
    if error.Some? {
      return;
    }
    var mi := if MeasureInterval in changes then Get(changes, MeasureInterval) else Get(changes, MeasureMult);
    error := BuildNumber(b, 5, 0xFF, 1, 255, mi, MeasureInterval, k + 1, goal, changes, layout);
    if error.Some? {
      return;
    }
    error := BuildNumber(b, 6, 0xFF, 0, 255, Get(changes, RfTxPower), RfTxPower, k + 2, goal, changes, layout);
  }

  method BuildTail(b: array<Byte>, changes: Changes, ghost layout: Layout, ghost k: nat,
                     ghost goal: Result<Blob, BuildError>)
    returns (error: Option<BuildError>)
    requires k == 17 && Before(b, k, goal, changes, layout)
    modifies b
    ensures error == None ==> Before(b, k + 3, goal, changes, layout)
    ensures error.Some? ==> goal == Err(error.value)
  {
    hide BuildFrom;
    error := BuildNumber(b, 7, 0xFF, 0, 255, Get(changes, ConnectLatency), ConnectLatency, k, goal, changes, layout);
    if error.Some? {
      return;
    }
    error := BuildNumber(b, 8, 0xFF, 1, 255, Get(changes, LcdRefresh), LcdRefresh, k + 1, goal, changes, layout);
    if error.Some? {
      return;
    }
    error := BuildNumber(b, 10, 0xFF, 0, 255, Get(changes, Averaging), Averaging, k + 2, goal, changes, layout);
  }

  method BuildInPlace(base: Blob, changes: Changes, fw: Byte) returns (r: Result<Blob, BuildError>)
    ensures r == Build(base, changes, fw)
  {
    if |base| < CONFIG_LENGTH {
      return Err(TooShort);
    }
    var b := new Byte[|base|](i requires 0 <= i < |base| => base[i]);
    assert b[..] == base;
    var layout := LayoutOf(fw);
    ghost var goal := Build(base, changes, fw);
    ghost var k: nat :| k == 0; // not the literal, which the verifier would unroll the whole rebuild from
    BuildFlags(b, changes, k, goal, layout);
    var error := BuildTypeAndFlags2(b, changes, k + 6, goal, layout);
    if error.Some? {
      return Err(error.value);
    }
    match layout {
      case Legacy => error := BuildLegacyBytes(b, changes, k + 10, goal);
      case Modern => error := BuildModernBytes(b, changes, k + 10, goal);
      case Transitional => // bytes 2 and 3 have no known meaning: left untouched
        SkipField(b, TempOffset, k + 10, goal, changes, layout);
        SkipField(b, HumiOffset, k + 11, goal, changes, layout);
        SkipField(b, AdvDelay, k + 12, goal, changes, layout);
        SkipField(b, EventAdvCnt, k + 13, goal, changes, layout);
    }
    if error.Some? {
      return Err(error.value);
    }
    error := BuildTiming(b, changes, layout, k + 14, goal);
    if error.Some? {
      return Err(error.value);
    }
    error := BuildTail(b, changes, layout, k + 17, goal);
    if error.Some? {
      return Err(error.value);
    }
    return Ok(b[..]);
  }

  method WithAdvCryptoInPlace(blob: Blob, enabled: bool, fw: Byte) returns (r: Result<Blob, CryptoError>)
    ensures r == WithAdvCrypto(blob, enabled, fw)
  {
    if |blob| < CONFIG_LENGTH {
      return Err(BlobTooShort);
    }
    if fw != 0 && fw < FW_ADV_CRYPTO_MIN {
      return Err(NoEncryption(fw));
    }
    var b := new Byte[|blob|](i requires 0 <= i < |blob| => blob[i]);
    assert b[..] == blob;
    if enabled {
      OverSets(b[1], 0x08);
      b[1] := b[1] | 0x08;
    } else {
      OverClears(b[1], 0x08);
      b[1] := b[1] & !0x08;
    }
    return Ok(b[..]);
  }
}
