/** The laws of rebuilding a configuration, and what parsing reads back from a rebuilt one. */
module ConfigLaws {
  import opened Wrappers
  import opened Bytes
  import opened ConfigBlob
  import opened ConfigAlgebra

  // ----- one rebuild after another

  /**
   The one way a merged request differs from two rebuilds in turn: the first names the measure
   interval, the second only its alias, and they ask for different values. The alias loses the merge.
   */
  predicate AliasClash(first: Changes, second: Changes) {
    && MeasureInterval in first && MeasureInterval !in second && MeasureMult in second
    && first[MeasureInterval] != second[MeasureMult]
  }

  lemma MergedWish(first: Changes, second: Changes, f: Field)
    requires f != MeasureMult
    requires f != MeasureInterval || !AliasClash(first, second)
    ensures Wanted(f, first + second) ==
            if Wanted(f, second).Some? then Wanted(f, second) else Wanted(f, first)
  {}

  lemma ClashWish(first: Changes, second: Changes)
    requires AliasClash(first, second)
    ensures Wanted(MeasureInterval, first + second) == Wanted(MeasureInterval, first)
  {}

  lemma MergedInRange(first: Changes, second: Changes, layout: Layout)
    requires AllInRange(first, layout) && AllInRange(second, layout)
    ensures AllInRange(first + second, layout)
  {
    hide InRange;
    forall f | Requested(f, first + second, layout)
      ensures InRange(f, Wanted(f, first + second).value)
    {
      if AliasClash(first, second) && f == MeasureInterval {
        ClashWish(first, second);
        assert Requested(f, first, layout);
      } else {
        MergedWish(first, second, f);
        assert Requested(f, second, layout) || Requested(f, first, layout);
      }
    }
  }

  lemma DifferentCodes(v: int, w: int)
    requires InRange(MeasureInterval, v) && InRange(MeasureInterval, w) && v != w
    ensures Code(MeasureInterval, v) != Code(MeasureInterval, w)
  {
    ByteRoundTrip(v);
    ByteRoundTrip(w);
  }

  lemma ByteRoundTrip(v: int)
    requires 0 <= v < 256
    ensures ((v % 256) as Byte) as int == v
  {}

  /** Two rebuilds in turn have the reference meaning of the merged request, unless the alias clashes. */
  lemma RebuiltInTurn(base: Blob, first: Changes, middle: Blob, second: Changes, r: Blob, layout: Layout)
    requires AllInRange(first, layout) && AllInRange(second, layout) && !AliasClash(first, second)
    requires Rebuilt(base, first, layout, middle) && Rebuilt(middle, second, layout, r)
    ensures Rebuilt(base, first + second, layout, r)
  {
    hide Bits, Mask, Code, InRange, SameProtected;
    SameProtectedTransitive(base, middle, r, layout);
    MergedInRange(first, second, layout);
    forall f | Writes(f, layout)
      ensures Bits(f, r) == Target(f, base, first + second, layout)
    {
      MergedWish(first, second, f);
      assert Bits(f, r) == Target(f, middle, second, layout);
      assert Bits(f, middle) == Target(f, base, first, layout);
      assert Requested(f, first, layout) ==> InRange(f, Wanted(f, first).value);
      assert Requested(f, second, layout) ==> InRange(f, Wanted(f, second).value);
    }
  }

  /**
   Rebuilding twice is rebuilding once with the second request laid over the first, for every pair of
   requests that fit, exactly when the measure interval's two names do not clash.
   */
  lemma BuildBuild(base: Blob, first: Changes, second: Changes, fw: Byte)
    requires |base| >= CONFIG_LENGTH
    requires AllInRange(first, LayoutOf(fw)) && AllInRange(second, LayoutOf(fw))
    ensures var middle := Build(base, first, fw);
            middle.Ok? && (Build(middle.value, second, fw) == Build(base, first + second, fw)
                           <==> !AliasClash(first, second))
  {
    hide Build;
    var layout := LayoutOf(fw);
    BuildMeaning(base, first, fw);
    var middle := Build(base, first, fw).value;
    BuildMeaning(middle, second, fw);
    var r := Build(middle, second, fw).value;
    MergedInRange(first, second, layout);
    BuildMeaning(base, first + second, fw);
    var merged := Build(base, first + second, fw).value;
    if AliasClash(first, second) {
      ClashDiffers(base, first, middle, second, r, merged, layout);
    } else {
      RebuiltInTurn(base, first, middle, second, r, layout);
      RebuiltUnique(base, first + second, layout, r, merged);
    }
  }

  lemma ClashDiffers(base: Blob, first: Changes, middle: Blob, second: Changes, r: Blob, merged: Blob, layout: Layout)
    requires AllInRange(first, layout) && AllInRange(second, layout) && AliasClash(first, second)
    requires Rebuilt(base, first, layout, middle) && Rebuilt(middle, second, layout, r)
    requires Rebuilt(base, first + second, layout, merged)
    ensures r != merged
  {
    hide Bits, Mask, SameProtected, Code;
    ClashWish(first, second);
    var f := MeasureInterval;
    assert Requested(f, first, layout) && Requested(f, second, layout) && Requested(f, first + second, layout);
    assert InRange(f, first[f]) && InRange(f, second[MeasureMult]);
    DifferentCodes(first[f], second[MeasureMult]);
    assert Bits(f, r) == Target(f, middle, second, layout);
    assert Bits(f, merged) == Target(f, base, first + second, layout);
  }

  /** Repeating a rebuild changes nothing more. */
  lemma BuildIdempotent(base: Blob, changes: Changes, fw: Byte)
    requires Build(base, changes, fw).Ok?
    ensures Build(Build(base, changes, fw).value, changes, fw) == Build(base, changes, fw)
  {
    hide Build, Requested, InRange;
    BuildMeaning(base, changes, fw);
    BuildBuild(base, changes, changes, fw);
    assert changes + changes == changes;
  }

  // ----- the bits outside the request

  /** A change to protected bits alone passes through a rebuild. */
  lemma RebuiltShifts(base: Blob, other: Blob, changes: Changes, layout: Layout, r: Blob, s: Blob)
    requires Rebuilt(base, changes, layout, r)
    requires |base| == |other| == |s| && SameSlots(base, other, layout) && SameSlots(r, s, layout)
    requires SameProtected(other, s, layout)
    ensures Rebuilt(other, changes, layout, s)
  {
    hide Bits, SameProtected, InRange, Code;
    forall f | Writes(f, layout)
      ensures Bits(f, s) == Target(f, other, changes, layout)
    {
      assert Bits(f, r) == Bits(f, s) && Bits(f, base) == Bits(f, other);
      assert Bits(f, r) == Target(f, base, changes, layout);
    }
  }

  /** The flag's own bit, and nothing else, is what setting it changes. */
  lemma CryptoFrame(blob: Blob, enabled: bool, layout: Layout)
    requires |blob| >= CONFIG_LENGTH
    ensures var r := Put(blob, AdvCrypto, if enabled then Mask(AdvCrypto) else 0);
            && SameSlots(blob, r, layout)
            && Encrypts(r) == enabled
            && r == blob[1 := r[1]] && r[1] & !0x08 == blob[1] & !0x08
  {
    var code: Byte := if enabled then 0x08 else 0;
    var r := PutAt(blob, 1, 0x08, code);
    assert Put(blob, AdvCrypto, if enabled then Mask(AdvCrypto) else 0) == r;
    PutAtGet(blob, 1, 0x08, code);
    FlagBit(r[1], enabled);
    CryptoKeepsSlots(blob, code, layout);
    CryptoKeepsRest(blob[1], code);
  }

  lemma FlagBit(b: Byte, enabled: bool)
    requires b & 0x08 == if enabled then 0x08 else 0
    ensures (((b >> 3) & 1) as int == 1) == enabled
  {
    assert enabled ==> (b >> 3) & 1 == 1;
    assert !enabled ==> (b >> 3) & 1 == 0;
  }

  lemma CryptoKeepsRest(b: Byte, code: Byte)
    requires code & !0x08 == 0
    ensures Over(b, 0x08, code) & !0x08 == b & !0x08
  {}

  lemma CryptoOutsideSlots(f: Field, layout: Layout)
    requires Writes(f, layout)
    ensures Idx(f) != 1 || 0x08 & Mask(f) == 0
  {}

  lemma CryptoKeepsSlots(blob: Blob, code: Byte, layout: Layout)
    requires |blob| >= CONFIG_LENGTH && code & !0x08 == 0
    ensures SameSlots(blob, PutAt(blob, 1, 0x08, code), layout)
  {
    hide Mask, PutAt;
    forall f | Writes(f, layout)
      ensures Bits(f, blob) == Bits(f, PutAt(blob, 1, 0x08, code))
    {
      CryptoOutsideSlots(f, layout);
      PutAtKeeps(blob, 1, 0x08, code, Idx(f), Mask(f));
    }
  }

  /** Setting the flag after a rebuild, or rebuilding after setting it, gives the same blob. */
  lemma BuildCommutesWithCrypto(base: Blob, changes: Changes, enabled: bool, fw: Byte)
    requires Build(base, changes, fw).Ok? && WithAdvCrypto(base, enabled, fw).Ok?
    ensures var built := Build(base, changes, fw).value;
            && WithAdvCrypto(built, enabled, fw).Ok?
            && Build(WithAdvCrypto(base, enabled, fw).value, changes, fw)
               == Ok(WithAdvCrypto(built, enabled, fw).value)
  {
    hide Build, Put, Mask;
    var layout := LayoutOf(fw);
    BuildMeaning(base, changes, fw);
    var built := Build(base, changes, fw).value;
    var flagged := WithAdvCrypto(base, enabled, fw).value;
    var both := WithAdvCrypto(built, enabled, fw).value;
    BuildMeaning(flagged, changes, fw);
    assert SameSlots(base, flagged, layout) && SameSlots(built, both, layout) by {
      CryptoFrame(base, enabled, layout);
      CryptoFrame(built, enabled, layout);
    }
    CryptoKeepsProtected(base, built, enabled, layout);
    RebuiltShifts(base, flagged, changes, layout, built, both);
    RebuiltUnique(flagged, changes, layout, Build(flagged, changes, fw).value, both);
  }

  lemma CryptoProtectedByte(a: Byte, b: Byte, code: Byte)
    requires a & 0x68 == b & 0x68
    ensures Over(a, 0x08, code) & 0x68 == Over(b, 0x08, code) & 0x68
  {}

  lemma CryptoKeepsProtected(a: Blob, b: Blob, enabled: bool, layout: Layout)
    requires |a| == |b| >= CONFIG_LENGTH && SameProtected(a, b, layout)
    ensures SameProtected(Put(a, AdvCrypto, if enabled then Mask(AdvCrypto) else 0),
                          Put(b, AdvCrypto, if enabled then Mask(AdvCrypto) else 0), layout)
  {
    var code: Byte := if enabled then 0x08 else 0;
    var s, t := PutAt(a, 1, 0x08, code), PutAt(b, 1, 0x08, code);
    assert s == Put(a, AdvCrypto, if enabled then Mask(AdvCrypto) else 0);
    assert t == Put(b, AdvCrypto, if enabled then Mask(AdvCrypto) else 0);
    assert a[1] & Protected(1, layout) == b[1] & Protected(1, layout);
    CryptoProtectedByte(a[1], b[1], code);
    hide Over, Mask;
    forall i | 0 <= i < |s|
      ensures s[i] & Protected(i, layout) == t[i] & Protected(i, layout)
    {
      assert a[i] & Protected(i, layout) == b[i] & Protected(i, layout);
    }
  }

  // ----- byte 9, which the device rewrites on its own

  /** Equal but for the hardware byte. */
  ghost predicate SameConfig(a: Blob, b: Blob) {
    && |a| == |b| >= CONFIG_LENGTH
    && forall i | 0 <= i < |a| && i != 9 :: a[i] == b[i]
  }

  lemma SameConfigSymmetric(a: Blob, b: Blob)
    requires SameConfig(a, b)
    ensures SameConfig(b, a)
  {}

  lemma SameConfigTransitive(a: Blob, b: Blob, c: Blob)
    requires SameConfig(a, b) && SameConfig(b, c)
    ensures SameConfig(a, c)
  {}

  lemma SameConfigSlots(a: Blob, b: Blob, layout: Layout)
    requires SameConfig(a, b)
    ensures SameSlots(a, b, layout)
  {
    hide Mask;
    forall f | Writes(f, layout)
      ensures Bits(f, a) == Bits(f, b)
    {
      assert Idx(f) != 9;
    }
  }

  /** A rebuild takes no notice of the hardware byte and hands it on. */
  lemma BuildIgnoresHwVer(base: Blob, other: Blob, changes: Changes, fw: Byte)
    requires SameConfig(base, other)
    ensures Build(base, changes, fw).Ok? == Build(other, changes, fw).Ok?
    ensures Build(base, changes, fw).Ok? ==>
              && Build(other, changes, fw).value == Build(base, changes, fw).value[9 := other[9]]
              && SameConfig(Build(base, changes, fw).value, Build(other, changes, fw).value)
  {
    hide Build;
    var layout := LayoutOf(fw);
    BuildMeaning(base, changes, fw);
    BuildMeaning(other, changes, fw);
    if Build(base, changes, fw).Ok? {
      var r := Build(base, changes, fw).value;
      var s := r[9 := other[9]];
      SameConfigSlots(base, other, layout);
      SameConfigSlots(r, s, layout);
      ProtectedHwVer(base, other, r, layout);
      RebuiltShifts(base, other, changes, layout, r, s);
      RebuiltUnique(other, changes, layout, s, Build(other, changes, fw).value);
    }
  }

  lemma ProtectedHwVer(base: Blob, other: Blob, r: Blob, layout: Layout)
    requires SameConfig(base, other) && SameProtected(base, r, layout)
    ensures SameProtected(other, r[9 := other[9]], layout)
  {
    forall i | 0 <= i < |other|
      ensures other[i] & Protected(i, layout) == r[9 := other[9]][i] & Protected(i, layout)
    {
      assert base[i] & Protected(i, layout) == r[i] & Protected(i, layout);
    }
  }

  // ----- parsing a rebuilt blob

  /** The value a slot's bits stand for. */
  function Decode(f: Field, bits: Byte): int {
    if IsSwitch(f) then (if bits == Mask(f) then 1 else 0)
    else if IsOffset(f) then SignedByte(bits) * 10
    else bits as int
  }

  /** What a requested value reads back as: switches as 0 or 1, offsets to a tenth. */
  function Stored(f: Field, v: int): int {
    if IsSwitch(f) then (if v != 0 then 1 else 0)
    else if IsOffset(f) then RoundHalfEven(v, 10) * 10
    else v
  }

  lemma ShiftReadsBit(b: Byte)
    ensures ((b >> 2) & 1) as int == if b & 0x04 == 0x04 then 1 else 0
    ensures ((b >> 3) & 1) as int == if b & 0x08 == 0x08 then 1 else 0
    ensures ((b >> 4) & 1) as int == if b & 0x10 == 0x10 then 1 else 0
    ensures ((b >> 5) & 1) as int == if b & 0x20 == 0x20 then 1 else 0
    ensures ((b >> 6) & 1) as int == if b & 0x40 == 0x40 then 1 else 0
    ensures ((b >> 7) & 1) as int == if b & 0x80 == 0x80 then 1 else 0
  {
    assert (b >> 2) & 1 == if b & 0x04 == 0x04 then 1 else 0;
    assert (b >> 3) & 1 == if b & 0x08 == 0x08 then 1 else 0;
    assert (b >> 4) & 1 == if b & 0x10 == 0x10 then 1 else 0;
    assert (b >> 5) & 1 == if b & 0x20 == 0x20 then 1 else 0;
    assert (b >> 6) & 1 == if b & 0x40 == 0x40 then 1 else 0;
    assert (b >> 7) & 1 == if b & 0x80 == 0x80 then 1 else 0;
  }

  lemma WholeByte(b: Byte)
    ensures b & 0xFF == b
  {}

  lemma SwitchValueOfBits(f: Field, blob: Blob)
    requires |blob| >= CONFIG_LENGTH && IsSwitch(f)
    ensures FieldValue(f, blob) == Decode(f, Bits(f, blob))
  {
    hide SignedByte;
    ShiftReadsBit(blob[Idx(f)]);
  }

  /** Parsing looks at nothing but the field's own bits. */
  lemma ValueOfBits(f: Field, blob: Blob)
    requires |blob| >= CONFIG_LENGTH
    ensures FieldValue(f, blob) == Decode(f, Bits(f, blob))
  {
    hide SignedByte;
    if IsSwitch(f) {
      hide FieldValue, Decode, Bits;
      SwitchValueOfBits(f, blob);
    } else if IsOffset(f) {
      WholeByte(blob[Idx(f)]);
    }
  }

  lemma SignedByteOf(b: Byte)
    ensures SignedByte(b) == if b as int >= 128 then b as int - 256 else b as int
  {}

  lemma OffsetRoundTrip(t: int)
    requires -127 <= t <= 127
    ensures SignedByte((t % 256) as Byte) == t
  {
    hide SignedByte;
    ByteRoundTrip(t % 256);
    SignedByteOf((t % 256) as Byte);
    if t < 0 {
      assert t % 256 == t + 256;
    }
  }

  lemma DecodeOfCode(f: Field, v: int, layout: Layout)
    requires Writes(f, layout) && InRange(f, v)
    ensures Decode(f, Code(f, v)) == Stored(f, v)
  {
    if IsOffset(f) {
      OffsetRoundTrip(Wire(f, v));
    } else if !IsSwitch(f) {
      ByteRoundTrip(v);
    } else {
      assert Mask(f) != 0;
    }
  }

  /** An offset is stored to the nearest tenth; everything else a request names is stored as it is. */
  lemma StoredIsClose(f: Field, v: int)
    ensures IsOffset(f) ==> -5 <= Stored(f, v) - v <= 5
    ensures !IsOffset(f) && !IsSwitch(f) ==> Stored(f, v) == v
  {}

  /** The keys of a parsed configuration that no rebuild changes. */
  predicate ReadOnly(f: Field, layout: Layout) {
    match f
    case AdvCrypto | Bt5phy | Longrange | HwVer => true
    case DateDdmm | WeekdayOff => layout.Modern?
    case Byte2Raw | Byte3Raw => layout.Transitional?
    case _ => false
  }

  lemma ReadOnlyBits(f: Field, layout: Layout)
    requires ReadOnly(f, layout)
    ensures Mask(f) & Protected(Idx(f), layout) == Mask(f)
  {}

  lemma SubMask(a: Byte, b: Byte, mask: Byte, wide: Byte)
    requires a & wide == b & wide && mask & wide == mask
    ensures a & mask == b & mask
  {}

  lemma ProtectedAt(a: Blob, b: Blob, layout: Layout, i: nat, mask: Byte)
    requires SameProtected(a, b, layout) && i < |a| && mask & Protected(i, layout) == mask
    ensures a[i] & mask == b[i] & mask
  {
    hide Protected;
    assert a[i] & Protected(i, layout) == b[i] & Protected(i, layout);
    SubMask(a[i], b[i], mask, Protected(i, layout));
  }

  lemma ReadOnlyKept(f: Field, layout: Layout, a: Blob, b: Blob)
    requires |a| == |b| >= CONFIG_LENGTH && SameProtected(a, b, layout)
    requires ReadOnly(f, layout)
    ensures Bits(f, a) == Bits(f, b)
  {
    hide Mask, Protected, ReadOnly, SameProtected;
    ReadOnlyBits(f, layout);
    ProtectedAt(a, b, layout, Idx(f), Mask(f));
  }

  lemma KeysCovered(f: Field, layout: Layout)
    ensures Writes(f, layout) || ReadOnly(f, layout) ==> HasKey(f, layout)
    ensures HasKey(f, layout) ==> Writes(f, layout) || ReadOnly(f, layout) || f == MeasureMult || f == Flg3Raw
  {}

  /**
   Parsing a rebuilt blob gives each requested field its stored value and every other field its old
   one. MeasureMult repeats MeasureInterval. Flg3Raw is the whole byte AdvDelay lies in: its upper nibble is
   always kept, and all of it unless AdvDelay is requested.
   */
  lemma ParseOfBuild(base: Blob, changes: Changes, fw: Byte)
    requires Build(base, changes, fw).Ok?
    ensures var layout := LayoutOf(fw);
            var before, after := Parse(base, fw), Parse(Build(base, changes, fw).value, fw);
            && before.Ok? && after.Ok? && before.value.Keys == after.value.Keys
            && (forall f | Requested(f, changes, layout) ::
                  f in after.value && after.value[f] == Stored(f, Wanted(f, changes).value))
            && (forall f | f in after.value && f != MeasureMult && f != Flg3Raw && !Requested(f, changes, layout) ::
                  after.value[f] == before.value[f])
            && MeasureMult in after.value && MeasureInterval in after.value
            && after.value[MeasureMult] == after.value[MeasureInterval]
            && (layout.Modern? ==>
                  && Flg3Raw in after.value && after.value[Flg3Raw] / 16 == before.value[Flg3Raw] / 16
                  && (!Requested(AdvDelay, changes, layout) ==> after.value[Flg3Raw] == before.value[Flg3Raw]))
  {
    hide Build, Bits, Mask, Code, Decode, FieldValue, HasKey, InRange, SameProtected, Stored, ReadOnly;
    var layout := LayoutOf(fw);
    BuildMeaning(base, changes, fw);
    var r := Build(base, changes, fw).value;
    forall f | Requested(f, changes, layout)
      ensures HasKey(f, layout) && FieldValue(f, r) == Stored(f, Wanted(f, changes).value)
    {
      KeysCovered(f, layout);
      ValueOfBits(f, r);
      assert Bits(f, r) == Target(f, base, changes, layout);
      DecodeOfCode(f, Wanted(f, changes).value, layout);
    }
    forall f | HasKey(f, layout) && f != MeasureMult && f != Flg3Raw && !Requested(f, changes, layout)
      ensures FieldValue(f, r) == FieldValue(f, base)
    {
      KeysCovered(f, layout);
      ValueOfBits(f, r);
      ValueOfBits(f, base);
      if Writes(f, layout) {
        assert Bits(f, r) == Target(f, base, changes, layout);
      } else {
        ReadOnlyKept(f, layout, base, r);
      }
    }
    AliasReadsTheSame(r, layout);
    if layout.Modern? {
      FlagByteKept(base, changes, r);
    }
  }

  lemma Nibbles(b: Byte)
    ensures b as int == 16 * ((b >> 4) as int) + ((b & 0x0F) as int) && 0 <= (b & 0x0F) as int < 16
  {}

  lemma Quotient(n: int, high: int, low: int)
    requires n == 16 * high + low && 0 <= low < 16
    ensures n / 16 == high
  {}

  lemma HighNibble(a: Byte, b: Byte)
    requires a & 0xF0 == b & 0xF0
    ensures a as int / 16 == b as int / 16
  {
    assert a >> 4 == b >> 4;
    Nibbles(a);
    Nibbles(b);
    Quotient(a as int, (a >> 4) as int, (a & 0x0F) as int);
    Quotient(b as int, (b >> 4) as int, (b & 0x0F) as int);
  }

  lemma FlagByteValue(blob: Blob)
    requires |blob| >= CONFIG_LENGTH
    ensures FieldValue(Flg3Raw, blob) == blob[2] as int
  {
    WholeByte(blob[2]);
  }

  lemma DelayBitsKept(base: Blob, changes: Changes, r: Blob)
    requires Rebuilt(base, changes, Modern, r) && !Requested(AdvDelay, changes, Modern)
    ensures r[2] & 0x0F == base[2] & 0x0F
  {
    hide SameProtected;
    assert Bits(AdvDelay, r) == Target(AdvDelay, base, changes, Modern);
  }

  lemma HighBitsKept(base: Blob, r: Blob)
    requires |base| >= CONFIG_LENGTH && SameProtected(base, r, Modern)
    ensures r[2] & 0xF0 == base[2] & 0xF0
  {
    assert base[2] & Protected(2, Modern) == r[2] & Protected(2, Modern);
  }

  /** The upper nibble of flg3 is never written, and the lower one only when it is requested. */
  lemma FlagByteKept(base: Blob, changes: Changes, r: Blob)
    requires Rebuilt(base, changes, Modern, r)
    ensures HasKey(Flg3Raw, Modern)
    ensures FieldValue(Flg3Raw, r) / 16 == FieldValue(Flg3Raw, base) / 16
    ensures !Requested(AdvDelay, changes, Modern) ==> FieldValue(Flg3Raw, r) == FieldValue(Flg3Raw, base)
  {
    hide FieldValue, Requested, Bits, Target, SameProtected;
    FlagByteValue(base);
    FlagByteValue(r);
    HighBitsKept(base, r);
    HighNibble(base[2], r[2]);
    if !Requested(AdvDelay, changes, Modern) {
      DelayBitsKept(base, changes, r);
      ByteFromParts(base[2], r[2], 0x0F);
    }
  }

  lemma AliasReadsTheSame(blob: Blob, layout: Layout)
    requires |blob| >= CONFIG_LENGTH
    ensures HasKey(MeasureMult, layout) && HasKey(MeasureInterval, layout)
    ensures FieldValue(MeasureMult, blob) == FieldValue(MeasureInterval, blob)
  {}

  // ----- copying a configuration through its parsed fields

  /** Every writable field of a parsed blob whose value a rebuild would accept. */
  function CopyOf(src: Blob, fw: Byte): Changes
    requires |src| >= CONFIG_LENGTH
  {
    var parsed := Parse(src, fw).value;
    map f | f in parsed.Keys && Writes(f, LayoutOf(fw)) && InRange(f, parsed[f]) :: parsed[f]
  }

  lemma SwitchBits(f: Field, b: Byte)
    requires IsSwitch(f)
    ensures b & Mask(f) == 0 || b & Mask(f) == Mask(f)
  {}

  lemma ByteFromInt(b: Byte)
    ensures 0 <= b as int < 256 && ((b as int) % 256) as Byte == b
    ensures ((SignedByte(b)) % 256) as Byte == b
  {
    assert SignedByte(b) % 256 == b as int;
  }

  lemma CodeOfDecode(f: Field, bits: Byte, layout: Layout)
    requires Writes(f, layout) && InRange(f, Decode(f, bits))
    requires IsSwitch(f) ==> bits == 0 || bits == Mask(f)
    ensures Code(f, Decode(f, bits)) == bits
  {
    if IsOffset(f) {
      RoundHalfEvenExact(SignedByte(bits), 10);
      ByteFromInt(bits);
    } else if IsSwitch(f) {
      SwitchMaskNonZero(f);
    } else {
      ByteFromInt(bits);
    }
  }

  lemma SwitchMaskNonZero(f: Field)
    ensures Mask(f) != 0
  {}

  lemma IndexInside(f: Field)
    ensures Idx(f) < CONFIG_LENGTH
  {}

  /** Reading a slot and writing the value back reproduces its bits. */
  lemma CodeOfValue(f: Field, blob: Blob, layout: Layout)
    requires |blob| >= CONFIG_LENGTH && Writes(f, layout) && InRange(f, FieldValue(f, blob))
    ensures Code(f, FieldValue(f, blob)) == Bits(f, blob)
  {
    hide FieldValue, Mask, Code, Decode, InRange, Idx, IsSwitch;
    ValueOfBits(f, blob);
    IndexInside(f);
    if IsSwitch(f) {
      SwitchBits(f, blob[Idx(f)]);
    }
    CodeOfDecode(f, Bits(f, blob), layout);
  }

  lemma CopyWishes(src: Blob, fw: Byte, f: Field)
    requires |src| >= CONFIG_LENGTH && Writes(f, LayoutOf(fw))
    ensures Wanted(f, CopyOf(src, fw)) == if InRange(f, FieldValue(f, src)) then Some(FieldValue(f, src)) else None
  {
    hide FieldValue, InRange;
    KeysCovered(f, LayoutOf(fw));
  }

  /**
   Writing one device's parsed fields onto another keeps exactly the other's protected bits; every
   slot whose value a rebuild accepts becomes the first device's, and the rest stay the other's.
   */
  lemma CopyTakesSlots(src: Blob, dst: Blob, fw: Byte)
    requires |src| >= CONFIG_LENGTH && |dst| >= CONFIG_LENGTH
    ensures var r := Build(dst, CopyOf(src, fw), fw);
            && r.Ok?
            && SameProtected(dst, r.value, LayoutOf(fw))
            && forall f | Writes(f, LayoutOf(fw)) ::
                 Bits(f, r.value) == if InRange(f, FieldValue(f, src)) then Bits(f, src) else Bits(f, dst)
  {
    hide Build, Bits, Mask, Code, FieldValue, InRange, CopyOf, SameProtected;
    var layout, copy := LayoutOf(fw), CopyOf(src, fw);
    BuildMeaning(dst, copy, fw);
    forall f | Requested(f, copy, layout)
      ensures InRange(f, Wanted(f, copy).value)
    {
      CopyWishes(src, fw, f);
    }
    var r := Build(dst, copy, fw).value;
    forall f | Writes(f, layout)
      ensures Bits(f, r) == if InRange(f, FieldValue(f, src)) then Bits(f, src) else Bits(f, dst)
    {
      CopyWishes(src, fw, f);
      assert Bits(f, r) == Target(f, dst, copy, layout);
      if InRange(f, FieldValue(f, src)) {
        CodeOfValue(f, src, layout);
      }
    }
  }

  lemma OffsetRefused(b: Byte)
    ensures !(-127 <= RoundHalfEven(SignedByte(b) * 10, 10) <= 127) <==> b == 0x80
  {
    hide RoundHalfEven, SignedByte;
    RoundHalfEvenExact(SignedByte(b), 10);
    SignedExtreme(b);
  }

  /** The slot values a device can report that a rebuild refuses, so that a copy leaves them out. */
  lemma NotCopied(src: Blob, fw: Byte, f: Field)
    requires |src| >= CONFIG_LENGTH && Writes(f, LayoutOf(fw))
    ensures !InRange(f, FieldValue(f, src)) <==>
            || (f == AdvInterval && src[4] == 0) || (f == MeasureInterval && src[5] == 0)
            || (f == LcdRefresh && src[8] == 0)
            || (f == TempOffset && src[2] == 0x80) || (f == HumiOffset && src[3] == 0x80)
  {
    hide RoundHalfEven, SignedByte;
    if f == TempOffset {
      OffsetRefused(src[2]);
    } else if f == HumiOffset {
      OffsetRefused(src[3]);
    } else if f == AdvInterval || f == MeasureInterval || f == LcdRefresh {
      WholeByte(src[Idx(f)]);
      MaskedIsSmall(src[Idx(f)]);
    } else {
      MaskedIsSmall(src[Idx(f)]);
    }
  }

  lemma SignedExtreme(b: Byte)
    ensures -128 <= SignedByte(b) <= 127
    ensures SignedByte(b) == -128 <==> b == 0x80
  {
    assert b as int == 128 <==> b == 0x80;
  }

  lemma MaskedIsSmall(b: Byte)
    ensures 0 <= (b & 0x03) as int <= 3 && 0 <= (b & 0x07) as int <= 7 && 0 <= (b & 0x0F) as int <= 15
    ensures 0 <= b as int <= 255
    ensures b as int == 0 <==> b == 0
  {}
}
