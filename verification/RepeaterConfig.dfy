/**
 The configuration of a repeater: eight bytes, read as five settings and written as a whole. Scan windows
 are stored in ticks of 8 µs and shown in milliseconds with three decimals; here they are whole
 microseconds.
 */
module RepeaterConfig {
  import opened Wrappers
  import opened Bytes

  datatype Item = TempF | Power | Interval | WindowMin | WindowMax

  const ITEMS := {TempF, Power, Interval, WindowMin, WindowMax}

  /** Settings by name: absent, present without a value, or known. */
  type Values = map<Item, Option<int>>

  type Payload = b: seq<Octet> | |b| == 8 witness seq(8, _ => 0)

  const POWER_MIN := 130
  const POWER_MAX := 191
  const WINDOW_US_MIN := 5000
  const WINDOW_US_MAX := 50000
  const INTERVAL_MS_MIN := 3000
  const INTERVAL_MS_MAX := 10000

  predicate Known(m: Values, i: Item) {
    i in m && m[i].Some?
  }

  // ----- reading

  /** A number stored least significant byte first. */
  function FromLe(b: seq<Octet>): (n: nat) {
    if b == [] then 0 else b[0] + 256 * FromLe(b[1..])
  }

  /** A stored window in microseconds: a tick is 8 µs, which three decimals of a millisecond show in full. */
  function Micros(ticks: int): int {
    8 * ticks
  }

  /** A window in microseconds as the number of ticks to store: the nearest, ties to the even one. */
  function Ticks(micros: int): int {
    var low, rest := micros / 8, micros % 8;
    if rest < 4 || (rest == 4 && low % 2 == 0) then low else low + 1
  }

  /** Both are what `round` gives for 125 ticks a millisecond: `round(ticks / 125, 3)` and `round(ms * 125)`. */
  lemma WindowsAreRounded(ticks: int, micros: int)
    ensures Micros(ticks) == RoundHalfEven(ticks * 1000, 125)
    ensures Ticks(micros) == RoundHalfEven(micros * 125, 1000)
  {
    RoundHalfEvenExact(8 * ticks, 125);
    assert ticks * 1000 == (8 * ticks) * 125;
    var q := RoundHalfEven(micros * 125, 1000);
    assert -1000 <= 2 * (q * 1000 - micros * 125) <= 1000;
    assert q * 1000 - micros * 125 == 125 * (8 * q - micros);
    assert -4 <= 8 * q - micros <= 4;
    hide RoundHalfEven;
    if 8 * q - micros == 4 || 8 * q - micros == -4 {
      assert 2 * (q * 1000 - micros * 125) == 1000 || 2 * (q * 1000 - micros * 125) == -1000;
      assert q % 2 == 0;
    }
    NearestTick(q, micros);
  }

  /** Only one number of ticks is nearest, with ties to the even one. */
  lemma NearestTick(q: int, micros: int)
    requires -4 <= 8 * q - micros <= 4 && (8 * q - micros == 4 || 8 * q - micros == -4 ==> q % 2 == 0)
    ensures Ticks(micros) == q
  {}

  function ParsePayload(p: Payload): Values {
    map[TempF := Some(if p[0] % 2 == 1 then 1 else 0),
        Power := Some(p[1]),
        Interval := Some(FromLe(p[2..4])),
        WindowMin := Some(Micros(FromLe(p[4..6]))),
        WindowMax := Some(Micros(FromLe(p[6..8])))]
  }

  /** A 0x55 reply: the opcode, then the configuration. A short one tells nothing. */
  function ParseCfg(raw: seq<Octet>): Values {
    if |raw| < 9 then map[] else ParsePayload(raw[1..9])
  }

  // ----- writing

  datatype Problem =
    | Unknown(missing: set<Item>)
    | BadPower(power: int)
    | BadInterval(interval: int)
    | BadWindow(which: Item)
    | WindowsCrossed
    | DoesNotPack // the struct cannot hold it: not a refusal, but an exception of its own

  predicate FitsByte(n: int) {
    0 <= n < 0x100
  }

  function Pack(tempF: bool, power: int, interval: int, low: int, high: int): (p: Payload)
    requires FitsByte(power) && 0 <= interval < 0x10000 && 0 <= low < 0x10000 && 0 <= high < 0x10000
  {
    [if tempF then 1 else 0, power, interval % 256, interval / 256, low % 256, low / 256, high % 256, high / 256]
  }

  predicate IntervalOk(ms: int) {
    ms == 0 || INTERVAL_MS_MIN <= ms <= INTERVAL_MS_MAX
  }

  predicate WindowOk(micros: int) {
    WINDOW_US_MIN <= micros <= WINDOW_US_MAX
  }

  /** The payload for five known values; the power is only judged when it is being set. */
  function Encode(tempF: bool, power: int, judgePower: bool, interval: int, low: int,
                  high: int): Result<Payload, Problem> {
    if judgePower && !(POWER_MIN <= power <= POWER_MAX) then Err(BadPower(power))
    else if !IntervalOk(interval) then Err(BadInterval(interval))
    else if !WindowOk(low) then Err(BadWindow(WindowMin))
    else if !WindowOk(high) then Err(BadWindow(WindowMax))
    else if Ticks(low) > Ticks(high) then Err(WindowsCrossed)
    else if !FitsByte(power) then Err(DoesNotPack)
    else
      WindowInTicks(low);
      WindowInTicks(high);
      Ok(Pack(tempF, power, interval, Ticks(low), Ticks(high)))
  }

  predicate AllKnown(m: Values) {
    Known(m, TempF) && Known(m, Power) && Known(m, Interval) && Known(m, WindowMin) && Known(m, WindowMax)
  }

  function Missing(m: Values): set<Item> {
    set i | i in ITEMS && !Known(m, i)
  }

  /** The eight bytes to send: the current values with the changes applied, or why not. */
  function BuildCfg(current: Values, changes: Values): Result<Payload, Problem> {
    var m := current + changes;
    if !AllKnown(m) then Err(Unknown(Missing(m)))
    else
      Encode(m[TempF].value != 0, m[Power].value, Power in changes, m[Interval].value, m[WindowMin].value,
        m[WindowMax].value)
  }

  // ----- window arithmetic

  /** A stored window shown in milliseconds and written back is the same window. */
  lemma TicksComeBack(ticks: int)
    ensures Ticks(Micros(ticks)) == ticks
  {}

  /** What is stored is never more than 4 µs from what was asked for, and keeps its order. */
  lemma StoredWindow(micros: int, larger: int)
    ensures -4 <= Micros(Ticks(micros)) - micros <= 4
    ensures micros <= larger ==> Ticks(micros) <= Ticks(larger)
  {}

  /** Every accepted window is stored as 625 to 6250 ticks, and what is stored is accepted again. */
  lemma WindowInTicks(micros: int)
    ensures WindowOk(micros) ==> 625 <= Ticks(micros) <= 6250 && WindowOk(Micros(Ticks(micros)))
  {}

  // ----- payloads

  /** The settings a payload can hold and still be written again unchanged. The power may be anything. */
  predicate Legal(p: Payload) {
    && p[0] <= 1
    && IntervalOk(FromLe(p[2..4]))
    && 625 <= FromLe(p[4..6]) <= FromLe(p[6..8]) <= 6250
  }

  lemma TwoBytes(b: seq<Octet>)
    requires |b| == 2
    ensures FromLe(b) == (b[0] as int) + 256 * (b[1] as int)
    ensures FromLe(b) < 0x10000 && FromLe(b) % 256 == b[0] && FromLe(b) / 256 == b[1]
  {
    var tail := b[1..];
    assert tail[0] == b[1] && tail[1..] == [];
    assert FromLe(tail[1..]) == 0;
    assert FromLe(tail) == b[1];
  }

  lemma BytesOfWord(b: seq<Octet>, n: int)
    requires 0 <= n < 0x10000 && |b| == 2 && b[0] == n % 256 && b[1] == n / 256
    ensures FromLe(b) == n
  {
    TwoBytes(b);
  }

  /** Reading a packed payload gives what was packed. */
  lemma ParseOfPack(tempF: bool, power: int, interval: int, low: int, high: int)
    requires FitsByte(power) && 0 <= interval < 0x10000 && 0 <= low < 0x10000 && 0 <= high < 0x10000
    ensures ParsePayload(Pack(tempF, power, interval, low, high)) ==
            map[TempF := Some(if tempF then 1 else 0), Power := Some(power), Interval := Some(interval),
                WindowMin := Some(Micros(low)), WindowMax := Some(Micros(high))]
  {
    var p := Pack(tempF, power, interval, low, high);
    BytesOfWord(p[2..4], interval);
    BytesOfWord(p[4..6], low);
    BytesOfWord(p[6..8], high);
  }

  /** What a built payload says: the merged values, the windows to the tick; and it is always legal. */
  lemma BuildMeaning(current: Values, changes: Values)
    requires BuildCfg(current, changes).Ok?
    ensures var m, p := current + changes, BuildCfg(current, changes).value;
            && AllKnown(m) && Legal(p)
            && ParsePayload(p) == map[TempF := Some(if m[TempF].value != 0 then 1 else 0), Power := m[Power],
               Interval := m[Interval],
                                      WindowMin := Some(Micros(Ticks(m[WindowMin].value))),
                                      WindowMax := Some(Micros(Ticks(m[WindowMax].value)))]
            && (Power in changes ==> POWER_MIN <= m[Power].value <= POWER_MAX)
  {
    hide Ticks;
    var m := current + changes;
    var low, high := m[WindowMin].value, m[WindowMax].value;
    WindowInTicks(low);
    WindowInTicks(high);
    ParseOfPack(m[TempF].value != 0, m[Power].value, m[Interval].value, Ticks(low), Ticks(high));
    var p := BuildCfg(current, changes).value;
    BytesOfWord(p[2..4], m[Interval].value);
    BytesOfWord(p[4..6], Ticks(low));
    BytesOfWord(p[6..8], Ticks(high));
  }

  /**
   Writing one set of changes and then another is writing both at once, the second over the first: the
   same payload, or the same refusal.
   */
  lemma BuildThenBuild(current: Values, first: Values, second: Values)
    requires BuildCfg(current, first).Ok?
    ensures BuildCfg(ParsePayload(BuildCfg(current, first).value), second) == BuildCfg(current, first + second)
  {
    hide Ticks, Micros, Encode, FromLe, Legal;
    BuildMeaning(current, first);
    var p := BuildCfg(current, first).value;
    var stored, asked := ParsePayload(p) + second, current + (first + second);
    assert asked == (current + first) + second;
    assert forall i | i in ITEMS :: Known(stored, i) == Known(asked, i);
    assert Missing(stored) == Missing(asked);
    if AllKnown(asked) {
      SameEncoding(current, first, second);
    }
  }

  lemma SameEncoding(current: Values, first: Values, second: Values)
    requires BuildCfg(current, first).Ok?
    requires AllKnown(ParsePayload(BuildCfg(current, first).value) + second) && AllKnown((current + first) + second)
    ensures var stored, asked := ParsePayload(BuildCfg(current, first).value) + second, (current + first) + second;
            Encode(stored[TempF].value != 0, stored[Power].value, Power in second, stored[Interval].value,
                   stored[WindowMin].value, stored[WindowMax].value)
            == Encode(asked[TempF].value != 0, asked[Power].value, Power in first + second, asked[Interval].value,
                      asked[WindowMin].value, asked[WindowMax].value)
  {
    hide Ticks, Pack;
    BuildMeaning(current, first);
    var m := current + first;
    var low, high := m[WindowMin].value, m[WindowMax].value;
    TicksComeBack(Ticks(low));
    TicksComeBack(Ticks(high));
    WindowInTicks(low);
    WindowInTicks(high);
  }

  /** Rebuilding what a write left behind, with the same changes, gives the same payload. */
  lemma BuildTwice(current: Values, changes: Values)
    requires BuildCfg(current, changes).Ok?
    ensures BuildCfg(ParsePayload(BuildCfg(current, changes).value), changes) == BuildCfg(current, changes)
  {
    BuildThenBuild(current, changes, changes);
    assert changes + changes == changes;
  }

  /** Writing back what was read, changing nothing, is the identity on exactly the legal payloads. */
  lemma BuildOfParse(p: Payload)
    ensures BuildCfg(ParsePayload(p), map[]) == Ok(p) <==> Legal(p)
  {
    hide Ticks;
    var m := ParsePayload(p);
    var none: Values := map[];
    assert m + none == m;
    if BuildCfg(m, none) == Ok(p) {
      BuildMeaning(m, none);
    }
    TwoBytes(p[2..4]);
    TwoBytes(p[4..6]);
    TwoBytes(p[6..8]);
    TicksComeBack(FromLe(p[4..6]));
    TicksComeBack(FromLe(p[6..8]));
    if Legal(p) {
      PackOfParse(p);
    }
  }

  lemma PackOfParse(p: Payload)
    requires p[0] <= 1
    ensures 0 <= FromLe(p[2..4]) < 0x10000 && 0 <= FromLe(p[4..6]) < 0x10000 && 0 <= FromLe(p[6..8]) < 0x10000
    ensures Pack(p[0] % 2 == 1, p[1], FromLe(p[2..4]), FromLe(p[4..6]), FromLe(p[6..8])) == p
  {
    TwoBytes(p[2..4]);
    TwoBytes(p[4..6]);
    TwoBytes(p[6..8]);
  }

  /**
   A repeater's own saved configuration can be restored onto it exactly when it is legal and its power
   lies in the offered band; the power is being set then, so a higher band the firmware allows is refused.
   */
  lemma OwnConfigCanBeRestored(current: Values, p: Payload)
    ensures BuildCfg(current, ParsePayload(p)) == Ok(p) <==> Legal(p) && POWER_MIN <= p[1] <= POWER_MAX
  {
    hide Ticks;
    var none: Values := map[];
    assert current + ParsePayload(p) == ParsePayload(p) + none by { AllGiven(current, p); }
    BuildOfParse(p);
    if BuildCfg(current, ParsePayload(p)) == Ok(p) {
      BuildMeaning(current, ParsePayload(p));
      assert (ParsePayload(p) + none)[Power] == Some(p[1]);
    }
  }

  /** A parsed payload leaves nothing of the current values. */
  lemma AllGiven(current: Values, p: Payload)
    ensures current + ParsePayload(p) == ParsePayload(p)
  {
    forall i: Item
      ensures i in ParsePayload(p)
    {
      var _ := i.TempF? || i.Power? || i.Interval? || i.WindowMin? || i.WindowMax?;
    }
  }
}
