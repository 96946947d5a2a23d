/**
 What a rebuild means, stated without its order of steps: every requested slot holds its code, every
 other slot and every protected bit is the base's. From that follow the laws of rebuilding.
 */
module ConfigAlgebra {
  import opened Bytes
  import opened ConfigBlob

  /** The bits no rebuild under this layout may change. */
  function Protected(i: nat, layout: Layout): Byte {
    if i == 1 then 0x68 // adv_crypto, bt5phy, longrange
    else if i == 2 then (match layout case Legacy => 0 case Modern => 0xF0 case Transitional => 0xFF)
    else if i == 3 then (if layout.Transitional? then 0xFF else 0)
    else if i == 9 || i >= CONFIG_LENGTH then 0xFF
    else 0
  }

  ghost predicate SameProtected(a: Blob, b: Blob, layout: Layout) {
    |a| == |b| && forall i | 0 <= i < |a| :: a[i] & Protected(i, layout) == b[i] & Protected(i, layout)
  }

  ghost predicate AllInRange(changes: Changes, layout: Layout) {
    forall f | Requested(f, changes, layout) :: InRange(f, Wanted(f, changes).value)
  }

  /** The bits a slot should end with. */
  function Target(f: Field, base: Blob, changes: Changes, layout: Layout): Byte
    requires |base| >= CONFIG_LENGTH
  {
    if Requested(f, changes, layout) && InRange(f, Wanted(f, changes).value) then Code(f, Wanted(f, changes).value)
    else Bits(f, base)
  }

  /** The reference meaning of a rebuild. */
  ghost predicate Rebuilt(base: Blob, changes: Changes, layout: Layout, r: Blob) {
    && |r| == |base| >= CONFIG_LENGTH
    && SameProtected(base, r, layout)
    && forall f | Writes(f, layout) :: Bits(f, r) == Target(f, base, changes, layout)
  }

  // ----- slots

  lemma SmallBytes(v: int)
    ensures 0 <= v <= 3 ==> ((v % 256) as Byte) & !0x03 == 0
    ensures 0 <= v <= 7 ==> ((v % 256) as Byte) & !0x07 == 0
    ensures 0 <= v <= 15 ==> ((v % 256) as Byte) & !0x0F == 0
  {}

  lemma CodeInsideSlot(f: Field, v: int)
    requires InRange(f, v)
    ensures Code(f, v) & !Mask(f) == 0
  {
    if f == AdvType || f == Smiley || f == AdvDelay {
      SmallBytes(v);
    }
  }

  lemma SlotsDisjoint(f: Field, g: Field, layout: Layout)
    requires Writes(f, layout) && Writes(g, layout) && f != g
    ensures Idx(f) != Idx(g) || Mask(f) & Mask(g) == 0
  {}

  lemma SlotOutsideProtected(f: Field, layout: Layout)
    requires Writes(f, layout)
    ensures Mask(f) & Protected(Idx(f), layout) == 0
  {}

  lemma PutAtGet(blob: Blob, idx: nat, mask: Byte, code: Byte)
    requires idx < |blob| && code & !mask == 0
    ensures PutAt(blob, idx, mask, code)[idx] & mask == code
  {}

  lemma PutAtKeeps(blob: Blob, idx: nat, mask: Byte, code: Byte, j: nat, other: Byte)
    requires idx < |blob| && j < |blob| && code & !mask == 0
    requires idx != j || mask & other == 0
    ensures PutAt(blob, idx, mask, code)[j] & other == blob[j] & other
  {}

  lemma PutSets(blob: Blob, f: Field, code: Byte)
    requires |blob| >= CONFIG_LENGTH && code & !Mask(f) == 0
    ensures Bits(f, Put(blob, f, code)) == code
  {
    hide Mask, PutAt;
    PutAtGet(blob, Idx(f), Mask(f), code);
  }

  lemma PutKeepsSlot(blob: Blob, f: Field, code: Byte, g: Field, layout: Layout)
    requires |blob| >= CONFIG_LENGTH && Writes(f, layout) && Writes(g, layout) && f != g && code & !Mask(f) == 0
    ensures Bits(g, Put(blob, f, code)) == Bits(g, blob)
  {
    hide Mask, PutAt;
    SlotsDisjoint(f, g, layout);
    PutAtKeeps(blob, Idx(f), Mask(f), code, Idx(g), Mask(g));
  }

  lemma PutAtKeepsProtected(blob: Blob, idx: nat, mask: Byte, code: Byte, layout: Layout)
    requires idx < |blob| && code & !mask == 0 && mask & Protected(idx, layout) == 0
    ensures SameProtected(blob, PutAt(blob, idx, mask, code), layout)
  {
    hide Protected, PutAt;
    forall i | 0 <= i < |blob|
      ensures blob[i] & Protected(i, layout) == PutAt(blob, idx, mask, code)[i] & Protected(i, layout)
    {
      PutAtKeeps(blob, idx, mask, code, i, Protected(i, layout));
    }
  }

  lemma PutKeepsProtected(blob: Blob, f: Field, code: Byte, layout: Layout)
    requires |blob| >= CONFIG_LENGTH && Writes(f, layout) && code & !Mask(f) == 0
    ensures SameProtected(blob, Put(blob, f, code), layout)
  {
    hide Mask, PutAt, Protected, SameProtected;
    SlotOutsideProtected(f, layout);
    PutAtKeepsProtected(blob, Idx(f), Mask(f), code, layout);
  }

  lemma ByteFromParts(a: Byte, b: Byte, m: Byte)
    requires a & m == b & m && a & !m == b & !m
    ensures a == b
  {}

  lemma FlagByteFromSlots(a: Byte, b: Byte)
    requires a & 0x03 == b & 0x03 && a & 0x04 == b & 0x04 && a & 0x08 == b & 0x08 && a & 0x10 == b & 0x10
    requires a & 0x20 == b & 0x20 && a & 0x40 == b & 0x40 && a & 0x80 == b & 0x80
    ensures a == b
  {}

  lemma Flag2ByteFromSlots(a: Byte, b: Byte)
    requires a & 0x07 == b & 0x07 && a & 0x10 == b & 0x10 && a & 0x80 == b & 0x80 && a & 0x68 == b & 0x68
    ensures a == b
  {}

  predicate SameSlots(a: Blob, b: Blob, layout: Layout)
    requires |a| == |b| >= CONFIG_LENGTH
  {
    forall f | Writes(f, layout) :: Bits(f, a) == Bits(f, b)
  }

  lemma SlotAt(a: Blob, b: Blob, layout: Layout, f: Field, idx: nat, mask: Byte)
    requires |a| == |b| >= CONFIG_LENGTH && SameSlots(a, b, layout)
    requires Writes(f, layout) && idx == Idx(f) && mask == Mask(f)
    ensures a[idx] & mask == b[idx] & mask
  {
    assert Bits(f, a) == Bits(f, b);
  }

  lemma SameFlagByte(a: Blob, b: Blob, layout: Layout)
    requires |a| == |b| >= CONFIG_LENGTH && SameSlots(a, b, layout)
    ensures a[0] == b[0]
  {
    hide SameSlots;
    SlotAt(a, b, layout, AdvType, 0, 0x03);
    SlotAt(a, b, layout, ComfortSmiley, 0, 0x04);
    SlotAt(a, b, layout, BlinkingTimeSmile, 0, 0x08);
    SlotAt(a, b, layout, TempF, 0, 0x10);
    SlotAt(a, b, layout, ShowBatt, 0, 0x20);
    SlotAt(a, b, layout, TxMeasures, 0, 0x40);
    SlotAt(a, b, layout, LpMeasures, 0, 0x80);
    FlagByteFromSlots(a[0], b[0]);
  }

  lemma SameFlag2Byte(a: Blob, b: Blob, layout: Layout)
    requires |a| == |b| >= CONFIG_LENGTH && SameSlots(a, b, layout) && SameProtected(a, b, layout)
    ensures a[1] == b[1]
  {
    hide SameSlots;
    SlotAt(a, b, layout, Smiley, 1, 0x07);
    SlotAt(a, b, layout, AdvFlags, 1, 0x10);
    SlotAt(a, b, layout, ScreenOff, 1, 0x80);
    assert a[1] & Protected(1, layout) == b[1] & Protected(1, layout);
    Flag2ByteFromSlots(a[1], b[1]);
  }

  lemma SameLayoutBytes(a: Blob, b: Blob, layout: Layout)
    requires |a| == |b| >= CONFIG_LENGTH && SameSlots(a, b, layout) && SameProtected(a, b, layout)
    ensures a[2] == b[2] && a[3] == b[3]
  {
    hide SameSlots;
    assert a[2] & Protected(2, layout) == b[2] & Protected(2, layout);
    assert a[3] & Protected(3, layout) == b[3] & Protected(3, layout);
    match layout
    case Legacy =>
      SlotAt(a, b, layout, TempOffset, 2, 0xFF);
      SlotAt(a, b, layout, HumiOffset, 3, 0xFF);
    case Modern =>
      SlotAt(a, b, layout, AdvDelay, 2, 0x0F);
      SlotAt(a, b, layout, EventAdvCnt, 3, 0xFF);
      ByteFromParts(a[2], b[2], 0x0F);
    case Transitional =>
  }

  lemma SameCommonBytes(a: Blob, b: Blob, layout: Layout)
    requires |a| == |b| >= CONFIG_LENGTH && SameSlots(a, b, layout)
    ensures a[4] == b[4] && a[5] == b[5] && a[6] == b[6] && a[7] == b[7] && a[8] == b[8] && a[10] == b[10]
  {
    hide SameSlots;
    SlotAt(a, b, layout, AdvInterval, 4, 0xFF);
    SlotAt(a, b, layout, MeasureInterval, 5, 0xFF);
    SlotAt(a, b, layout, RfTxPower, 6, 0xFF);
    SlotAt(a, b, layout, ConnectLatency, 7, 0xFF);
    SlotAt(a, b, layout, LcdRefresh, 8, 0xFF);
    SlotAt(a, b, layout, Averaging, 10, 0xFF);
  }

  lemma SameUnwrittenBytes(a: Blob, b: Blob, layout: Layout, i: nat)
    requires SameProtected(a, b, layout) && i < |a| && (i == 9 || i >= CONFIG_LENGTH)
    ensures a[i] == b[i]
  {
    assert a[i] & Protected(i, layout) == b[i] & Protected(i, layout);
  }

  /** A blob is nothing but its writable slots and its protected bits. */
  lemma SlotsDetermine(a: Blob, b: Blob, layout: Layout)
    requires |a| == |b| >= CONFIG_LENGTH && SameProtected(a, b, layout) && SameSlots(a, b, layout)
    ensures a == b
  {
    SameFlagByte(a, b, layout);
    SameFlag2Byte(a, b, layout);
    SameLayoutBytes(a, b, layout);
    SameCommonBytes(a, b, layout);
    hide SameSlots, SameProtected;
    forall i | 0 <= i < |a|
      ensures a[i] == b[i]
    {
      if i == 9 || i >= CONFIG_LENGTH {
        SameUnwrittenBytes(a, b, layout, i);
      }
    }
  }

  // ----- the order of steps does not matter

  /** The position at which a rebuild takes a field. */
  function Position(f: Field): nat {
    match f
    case ComfortSmiley => 0
    case BlinkingTimeSmile => 1
    case TempF => 2
    case ShowBatt => 3
    case TxMeasures => 4
    case LpMeasures => 5
    case AdvType => 6
    case Smiley => 7
    case AdvFlags => 8
    case ScreenOff => 9
    case TempOffset => 10
    case HumiOffset => 11
    case AdvDelay => 12
    case EventAdvCnt => 13
    case AdvInterval => 14
    case MeasureInterval => 15
    case RfTxPower => 16
    case ConnectLatency => 17
    case LcdRefresh => 18
    case Averaging => 19
    case _ => FIELD_COUNT
  }

  lemma PositionOfFieldAt(k: nat, f: Field, layout: Layout)
    requires k < FIELD_COUNT && Writes(f, layout)
    ensures Position(f) < FIELD_COUNT
    ensures Position(f) == k <==> FieldAt(k) == f
  {}

  /** The meaning of the part of a rebuild from position `k` on. */
  ghost predicate RebuiltFrom(blob: Blob, k: nat, changes: Changes, layout: Layout, r: Blob) {
    && |r| == |blob| >= CONFIG_LENGTH
    && SameProtected(blob, r, layout)
    && (forall f | Writes(f, layout) ::
          Bits(f, r) == if Position(f) >= k then Target(f, blob, changes, layout) else Bits(f, blob))
    && (forall f | Requested(f, changes, layout) && Position(f) >= k :: InRange(f, Wanted(f, changes).value))
  }

  lemma StepMeaning(blob: Blob, f: Field, changes: Changes, layout: Layout)
    requires |blob| >= CONFIG_LENGTH
    ensures match Step(blob, f, changes, layout)
            case Err(e) => e == OutOfRange(f) && Requested(f, changes, layout) && !InRange(f, Wanted(f, changes).value)
            case Ok(r) =>
              && (Requested(f, changes, layout) ==> InRange(f, Wanted(f, changes).value))
              && SameProtected(blob, r, layout)
              && (Writes(f, layout) ==> Bits(f, r) == Target(f, blob, changes, layout))
              && forall g | Writes(g, layout) && g != f :: Bits(g, r) == Bits(g, blob)
  {
    if Requested(f, changes, layout) && InRange(f, Wanted(f, changes).value) {
      hide Mask, Put, Bits, SameProtected, Code;
      var code := Code(f, Wanted(f, changes).value);
      CodeInsideSlot(f, Wanted(f, changes).value);
      PutSets(blob, f, code);
      PutKeepsProtected(blob, f, code, layout);
      forall g | Writes(g, layout) && g != f
        ensures Bits(g, Put(blob, f, code)) == Bits(g, blob)
      {
        PutKeepsSlot(blob, f, code, g, layout);
      }
    }
  }

  lemma SameProtectedTransitive(a: Blob, b: Blob, c: Blob, layout: Layout)
    requires SameProtected(a, b, layout) && SameProtected(b, c, layout)
    ensures SameProtected(a, c, layout)
  {
    hide Protected;
    forall i | 0 <= i < |a|
      ensures a[i] & Protected(i, layout) == c[i] & Protected(i, layout)
    {
      assert a[i] & Protected(i, layout) == b[i] & Protected(i, layout);
    }
  }

  lemma {:induction false} BuildFromMeaning(blob: Blob, k: nat, changes: Changes, layout: Layout)
    requires |blob| >= CONFIG_LENGTH && k <= FIELD_COUNT
    ensures match BuildFrom(blob, k, changes, layout)
            case Ok(r) => RebuiltFrom(blob, k, changes, layout, r)
            case Err(TooShort) => false
            case Err(OutOfRange(f)) => Requested(f, changes, layout) && !InRange(f, Wanted(f, changes).value)
    decreases FIELD_COUNT - k
  {
    hide Bits, Mask, Code, SameProtected, Step, InRange, FieldAt, Position;
    if k == FIELD_COUNT {
      assert SameProtected(blob, blob, layout) by { BlobKeepsItself(blob, layout); }
      forall f | Writes(f, layout)
        ensures Position(f) < k
      {
        PositionOfFieldAt(0, f, layout);
      }
    } else {
      var f := FieldAt(k);
      StepMeaning(blob, f, changes, layout);
      var next := Step(blob, f, changes, layout);
      if next.Ok? {
        BuildFromMeaning(next.value, k + 1, changes, layout);
        var r := BuildFrom(next.value, k + 1, changes, layout);
        if r.Ok? {
          SameProtectedTransitive(blob, next.value, r.value, layout);
          forall g | Writes(g, layout)
            ensures Bits(g, r.value) == if Position(g) >= k then Target(g, blob, changes, layout) else Bits(g, blob)
            ensures Requested(g, changes, layout) && Position(g) >= k ==> InRange(g, Wanted(g, changes).value)
          {
            PositionOfFieldAt(k, g, layout);
          }
        }
      }
    }
  }

  lemma BlobKeepsItself(blob: Blob, layout: Layout)
    ensures SameProtected(blob, blob, layout)
  {}

  /**
   A rebuild succeeds exactly when the base is long enough and every requested value of the layout
   fits; it then has the reference meaning. An error names a requested field that does not fit.
   */
  lemma BuildMeaning(base: Blob, changes: Changes, fw: Byte)
    ensures Build(base, changes, fw).Ok? <==> |base| >= CONFIG_LENGTH && AllInRange(changes, LayoutOf(fw))
    ensures match Build(base, changes, fw)
            case Ok(r) => Rebuilt(base, changes, LayoutOf(fw), r)
            case Err(TooShort) => |base| < CONFIG_LENGTH
            case Err(OutOfRange(f)) =>
              Requested(f, changes, LayoutOf(fw)) && !InRange(f, Wanted(f, changes).value)
  {
    if |base| >= CONFIG_LENGTH {
      BuildFromMeaning(base, 0, changes, LayoutOf(fw));
      hide Bits, Mask, Code, InRange, SameProtected, BuildFrom, Position;
    }
  }

  /** At most one blob has the reference meaning. */
  lemma RebuiltUnique(base: Blob, changes: Changes, layout: Layout, r: Blob, s: Blob)
    requires Rebuilt(base, changes, layout, r) && Rebuilt(base, changes, layout, s)
    ensures r == s
  {
    hide Bits, Target, Protected, Mask;
    forall i | 0 <= i < |r|
      ensures r[i] & Protected(i, layout) == s[i] & Protected(i, layout)
    {
      assert base[i] & Protected(i, layout) == r[i] & Protected(i, layout);
      assert base[i] & Protected(i, layout) == s[i] & Protected(i, layout);
    }
    SlotsDetermine(r, s, layout);
  }
}
