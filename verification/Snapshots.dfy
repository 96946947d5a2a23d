/**
 The snapshot store: a short history for each device, in which a state seen again only renews the row it
 already has.
 */
module Snapshots {
  import opened Wrappers
  import opened Bytes
  import opened ConfigBlob
  import opened Thermometers
  import ConfigWrite

  const BACKUP_LIMIT := 20

  const KIND_THERMOMETER := "thermometer"

  /** The rest of what makes two snapshots different, field by field. */
  datatype Extra = Extra(kind: Option<string>, deviceName: Option<string>, comfort: Option<seq<int>>,
                         bindKey: Option<string>, sensor: Option<seq<int>>,
                         extMac: Option<string>, extBindKey: Option<string>)

  datatype Row = Row(id: string, ts: Option<int>, mac: string, raw: string, extra: Extra, fw: Byte,
                     lastSeen: Option<int>)

  /** The kind of device a snapshot came from; snapshots taken before repeaters existed have none. */
  function KindOf(r: Row): string {
    if r.extra.kind.Some? && r.extra.kind.value != "" then r.extra.kind.value else KIND_THERMOMETER
  }

  /** The configuration text without byte 9, which changes with every reboot. */
  function NormalRaw(raw: string): string {
    if |raw| >= 22 then raw[..18] + raw[20..] else raw
  }

  /** What two snapshots are compared by. */
  function Signature(r: Row): (string, Extra) {
    (NormalRaw(r.raw), r.extra)
  }

  datatype Outcome = Incomplete | Kept(deduped: bool, count: nat)

  predicate Complete(r: Row) {
    Upper(r.mac) != "" && r.raw != ""
  }

  /** When a snapshot was taken: its own time, or the clock's if it has none. */
  function TimeOf(r: Row, clock: int): int {
    if r.ts.Some? && r.ts.value != 0 then r.ts.value else clock
  }

  /** The last `n` of a sequence. */
  function LastOf<T>(s: seq<T>, n: nat): (r: seq<T>)
    ensures |r| == if |s| <= n then |s| else n
  {
    if |s| <= n then s else s[|s| - n..]
  }

  function Seen(r: Row, when: int): Row {
    r.(lastSeen := Some(when))
  }

  /** One device's history with one more snapshot. */
  function Added(rows: seq<Row>, r: Row, when: int): seq<Row> {
    if rows != [] && Signature(rows[|rows| - 1]) == Signature(r)
    then rows[|rows| - 1 := Seen(rows[|rows| - 1], when)]
    else LastOf(rows + [Seen(r, when)], BACKUP_LIMIT)
  }

  type Backups = map<string, seq<Row>>

  function RowsOf(backups: Backups, mac: string): seq<Row> {
    if Upper(mac) in backups then backups[Upper(mac)] else []
  }

  function Saved(backups: Backups, r: Row, clock: int): Backups {
    if !Complete(r) then backups else backups[Upper(r.mac) := Added(RowsOf(backups, r.mac), r, TimeOf(r, clock))]
  }

  type Fields = Result<map<Field, int>, ParseError>

  class SnapshotStore {
    var backups: Backups

    constructor ()
      ensures backups == map[]
    {
      backups := map[];
    }

    /** Append a snapshot, unless it says what the newest one says, and drop the oldest beyond the limit. */
    method AsyncSave(r: Row, clock: int) returns (outcome: Outcome)
      modifies this
      ensures backups == Saved(old(backups), r, clock)
      ensures var rows := RowsOf(old(backups), r.mac);
              outcome == if !Complete(r) then Incomplete
                         else Kept(rows != [] && Signature(rows[|rows| - 1]) == Signature(r), |RowsOf(backups, r.mac)|)
    {
      var mac := Upper(r.mac);
      UpperTwice(r.mac);
      if mac == "" || r.raw == "" {
        return Incomplete;
      }
      var rows := if mac in backups then backups[mac] else [];
      var now := TimeOf(r, clock);
      if rows != [] && Signature(rows[|rows| - 1]) == Signature(r) {
        rows := rows[|rows| - 1 := Seen(rows[|rows| - 1], now)];
        backups := backups[mac := rows];
        return Kept(true, |rows|);
      }
      rows := rows + [Seen(r, now)];
      if |rows| > BACKUP_LIMIT {
        rows := rows[|rows| - BACKUP_LIMIT..];
      }
      backups := backups[mac := rows];
      return Kept(false, |rows|);
    }

    /** What the newest snapshot that can be read as a thermometer's says, if there is one. */
    method LastFields(mac: string) returns (fields: Option<Fields>)
      ensures fields == NewestReadable(RowsOf(backups, mac))
    {
      hide Readable, Upper;
      var rows := RowsOf(backups, mac);
      var i := |rows|;
      assert rows[..i] == rows;
      while i > 0
        invariant 0 <= i <= |rows|
        invariant NewestReadable(rows) == NewestReadable(rows[..i])
      {
        i := i - 1;
        assert rows[..i + 1][..i] == rows[..i];
        if Readable(rows[i]).Some? {
          return Readable(rows[i]);
        }
      }
      return None;
    }
  }

  /**
   What reading one snapshot gives: nothing if it is not a thermometer's or its text is not hex. A text that is
   hex but too short is read all the same, and gives the parser's complaint in place of settings.
   */
  function Readable(r: Row): Option<Fields> {
    if r.raw == "" || KindOf(r) != KIND_THERMOMETER then None
    else match FromHex(r.raw)
      case None => None
      case Some(b) => Some(Parse(b, r.fw))
  }

  function NewestReadable(rows: seq<Row>): Option<Fields> {
    if rows == [] then None
    else
      var last := Readable(rows[|rows| - 1]);
      if last.Some? then last else NewestReadable(rows[..|rows| - 1])
  }

  /** Nothing is returned only if no row can be read; otherwise a readable row that no later one follows. */
  lemma {:induction false} NewestReadableIsNewest(rows: seq<Row>) returns (at: int)
    ensures NewestReadable(rows) == None ==> forall i | 0 <= i < |rows| :: Readable(rows[i]) == None
    ensures NewestReadable(rows).Some? ==>
              && 0 <= at < |rows| && Readable(rows[at]) == NewestReadable(rows)
              && forall j | at < j < |rows| :: Readable(rows[j]) == None
    decreases |rows|
  {
    hide Readable;
    at := |rows| - 1;
    if rows != [] && Readable(rows[at]) == None {
      var init := rows[..at];
      var found := NewestReadableIsNewest(init);
      forall j | 0 <= j < at ensures rows[j] == init[j] {}
      at := found;
    }
  }

  /** A thermometer's snapshot whose text is hex. */
  predicate IsHexThermometer(r: Row) {
    r.raw != "" && KindOf(r) == KIND_THERMOMETER && FromHex(r.raw).Some?
  }

  /** The newest thermometer snapshot with a hex text holds a whole configuration, if there is one. */
  ghost predicate NewestIsWhole(rows: seq<Row>) {
    forall i | 0 <= i < |rows| && IsHexThermometer(rows[i])
      && (forall j | i < j < |rows| :: !IsHexThermometer(rows[j])) ::
      |FromHex(rows[i].raw).value| >= CONFIG_LENGTH
  }

  lemma ReadableMeans(r: Row)
    ensures Readable(r).Some? <==> IsHexThermometer(r)
    ensures Readable(r).Some? ==> (Readable(r).value.Ok? <==> |FromHex(r.raw).value| >= CONFIG_LENGTH)
  {}

  /**
   The result is settings, or nothing, exactly when the newest thermometer snapshot with a hex text has at
   least eleven bytes. It is not looked past when it is shorter.
   */
  lemma LastFieldsAreSettingsIff(rows: seq<Row>)
    ensures (NewestReadable(rows) == None || NewestReadable(rows).value.Ok?) <==> NewestIsWhole(rows)
  {
    var at := NewestReadableIsNewest(rows);
    hide Readable, NewestReadable, FromHex;
    forall i | 0 <= i < |rows|
      ensures Readable(rows[i]).Some? <==> IsHexThermometer(rows[i])
      ensures Readable(rows[i]).Some? ==>
              (Readable(rows[i]).value.Ok? <==> |FromHex(rows[i].raw).value| >= CONFIG_LENGTH)
    {
      ReadableMeans(rows[i]);
    }
    if NewestReadable(rows).Some? {
      assert IsHexThermometer(rows[at]);
    }
  }

  /** A one-byte snapshot saved after a whole one hides its settings behind the parser's complaint. */
  lemma ShortSnapshotHidesSettings(whole: Row, short: Row)
    requires IsHexThermometer(whole) && |FromHex(whole.raw).value| >= CONFIG_LENGTH
    requires KindOf(short) == KIND_THERMOMETER && short.raw == "00"
    ensures NewestReadable([whole]).Some? && NewestReadable([whole]).value.Ok?
    ensures NewestReadable([whole, short]) == Some(Err(ShortBlob(1)))
  {
    ReadableMeans(whole);
    hide Parse;
    var zero: Blob := [0];
    assert Hex(zero) == "00";
    FromHexOfHex(zero);
    ShortParse(zero, short.fw);
    assert Readable(short) == Some(Err(ShortBlob(1)));
  }

  lemma ShortParse(b: Blob, fw: Byte)
    requires |b| < CONFIG_LENGTH
    ensures Parse(b, fw) == Err(ShortBlob(|b|))
  {}

  // ----- what a run of saves leaves

  /** One call of the store. */
  datatype Save = Save(row: Row, clock: int)

  function SaveAll(backups: Backups, saves: seq<Save>): Backups {
    if saves == [] then backups
    else
      var last := saves[|saves| - 1];
      Saved(SaveAll(backups, saves[..|saves| - 1]), last.row, last.clock)
  }

  /** The accepted saves of one device. */
  function SavesOf(saves: seq<Save>, mac: string): seq<Save> {
    if saves == [] then []
    else
      var rest := SavesOf(saves[..|saves| - 1], mac);
      var last := saves[|saves| - 1];
      if Complete(last.row) && Upper(last.row.mac) == Upper(mac) then rest + [last] else rest
  }

  function SignatureOf(s: Save): (string, Extra) {
    Signature(s.row)
  }

  function When(s: Save): int {
    TimeOf(s.row, s.clock)
  }

  /** How many saves from the start say the same thing. */
  function BlockLength(saves: seq<Save>): (n: nat)
    requires saves != []
    ensures 0 < n <= |saves|
  {
    if |saves| == 1 then 1
    else
      var n := BlockLength(saves[..|saves| - 1]);
      if n == |saves| - 1 && SignatureOf(saves[n]) == SignatureOf(saves[0]) then |saves| else n
  }

  /** Each maximal block of equal signatures as one row: the first of the block, seen at the time of its last. */
  function Collapsed(saves: seq<Save>): seq<Row>
    decreases |saves|
  {
    if saves == [] then []
    else
      var n := BlockLength(saves);
      [Seen(saves[0].row, When(saves[n - 1]))] + Collapsed(saves[n..])
  }

  /** A block holds equal signatures only, and ends where the next one differs. */
  lemma {:induction false} BlockIsMaximal(saves: seq<Save>)
    requires saves != []
    ensures forall i | 0 <= i < BlockLength(saves) :: SignatureOf(saves[i]) == SignatureOf(saves[0])
    ensures BlockLength(saves) < |saves| ==> SignatureOf(saves[BlockLength(saves)]) != SignatureOf(saves[0])
    decreases |saves|
  {
    hide SignatureOf;
    if |saves| > 1 {
      var init := saves[..|saves| - 1];
      BlockIsMaximal(init);
      forall i | 0 <= i < |init| ensures init[i] == saves[i] {}
    }
  }

  lemma BlockGrows(saves: seq<Save>, s: Save)
    requires saves != []
    ensures BlockLength(saves + [s]) ==
            if BlockLength(saves) == |saves| && SignatureOf(s) == SignatureOf(saves[0]) then |saves| + 1
              else BlockLength(saves)
  {
    hide SignatureOf;
    assert (saves + [s])[..|saves|] == saves;
  }

  lemma OneSaveCollapsed(s: Save)
    ensures Collapsed([s]) == [Seen(s.row, When(s))]
  {
    hide When;
    assert BlockLength([s]) == 1 && [s][1..] == [] && Collapsed([]) == [];
  }

  /** One more save renews the last block or opens a new one. */
  lemma {:induction false} CollapsedGrows(saves: seq<Save>, s: Save)
    ensures saves == [] ==> Collapsed(saves) == []
    ensures saves != [] ==>
              && Collapsed(saves) != []
              && Signature(Collapsed(saves)[|Collapsed(saves)| - 1]) == SignatureOf(saves[|saves| - 1])
    ensures Collapsed(saves + [s]) ==
            if saves != [] && SignatureOf(saves[|saves| - 1]) == SignatureOf(s)
            then Collapsed(saves)[|Collapsed(saves)| - 1 := Seen(Collapsed(saves)[|Collapsed(saves)| - 1], When(s))]
            else Collapsed(saves) + [Seen(s.row, When(s))]
    decreases |saves|
  {
    hide Signature, SignatureOf, Seen, When, BlockLength, Collapsed;
    SignatureOfIs(saves, s);
    OneSaveCollapsed(s);
    CollapsedOpens(saves);
    CollapsedOpens(saves + [s]);
    if saves == [] {
      assert saves + [s] == [s];
    } else {
      BlockIsMaximal(saves);
      BlockGrows(saves, s);
      SeenKeepsSignature(saves[0].row, When(saves[BlockLength(saves) - 1]));
      if BlockLength(saves) < |saves| {
        var n := BlockLength(saves);
        var rest := saves[n..];
        CollapsedGrows(rest, s);
        assert (saves + [s])[n..] == rest + [s] && (saves + [s])[n - 1] == saves[n - 1];
        var first := Seen(saves[0].row, When(saves[n - 1]));
        assert Collapsed(saves) == [first] + Collapsed(rest)
          && Collapsed(saves + [s]) == [first] + Collapsed(rest + [s]);
        assert SignatureOf(rest[|rest| - 1]) == SignatureOf(saves[|saves| - 1]);
        LastOfLonger(first, Collapsed(rest), Seen(Collapsed(rest)[|Collapsed(rest)| - 1], When(s)),
          Seen(s.row, When(s)));
      } else {
        LastBlockGrows(saves, s);
        SeenTwice(saves[0].row, When(saves[|saves| - 1]), When(s));
        assert SignatureOf(saves[|saves| - 1]) == SignatureOf(saves[0]);
      }
    }
  }

  lemma CollapsedOpens(saves: seq<Save>)
    ensures saves == [] ==> Collapsed(saves) == []
    ensures saves != [] ==>
              var n := BlockLength(saves);
              Collapsed(saves) == [Seen(saves[0].row, When(saves[n - 1]))] + Collapsed(saves[n..])
  {}

  lemma SignatureOfIs(saves: seq<Save>, s: Save)
    ensures SignatureOf(s) == Signature(s.row)
    ensures forall i | 0 <= i < |saves| :: SignatureOf(saves[i]) == Signature(saves[i].row)
  {
    hide Signature;
  }

  lemma LastOfLonger(first: Row, rows: seq<Row>, renewed: Row, added: Row)
    requires rows != []
    ensures var longer := [first] + rows;
            && longer[|longer| - 1] == rows[|rows| - 1]
            && longer[|longer| - 1 := renewed] == [first] + rows[|rows| - 1 := renewed]
            && longer + [added] == [first] + (rows + [added])
  {}

  lemma SeenKeepsSignature(r: Row, when: int)
    ensures Signature(Seen(r, when)) == Signature(r)
  {}

  lemma SeenTwice(r: Row, earlier: int, later: int)
    ensures Seen(Seen(r, earlier), later) == Seen(r, later)
  {}

  lemma LastBlockGrows(saves: seq<Save>, s: Save)
    requires saves != [] && BlockLength(saves) == |saves|
    ensures Collapsed(saves) == [Seen(saves[0].row, When(saves[|saves| - 1]))]
    ensures Collapsed(saves + [s]) ==
            if SignatureOf(saves[0]) == SignatureOf(s) then [Seen(saves[0].row, When(s))]
              else Collapsed(saves) + [Seen(s.row, When(s))]
  {
    hide SignatureOf, When, BlockLength, Collapsed;
    BlockGrows(saves, s);
    OneSaveCollapsed(s);
    var more := saves + [s];
    CollapsedOpens(saves);
    CollapsedOpens(more);
    CollapsedOpens([]);
    assert saves[|saves|..] == [] && more[|saves|..] == [s] && more[|saves| + 1..] == [];
  }

  lemma AddedIsLastOf(whole: seq<Row>, r: Row, when: int)
    ensures Added(LastOf(whole, BACKUP_LIMIT), r, when) ==
            LastOf(if whole != [] && Signature(whole[|whole| - 1]) == Signature(r)
                   then whole[|whole| - 1 := Seen(whole[|whole| - 1], when)]
                   else whole + [Seen(r, when)], BACKUP_LIMIT)
  {
    hide Signature;
  }

  /**
   After any run of saves into an empty store, a device's history is the last twenty of its own accepted
   saves with adjacent equal ones collapsed: the first row of each block, last seen when its last one was
   saved. Saves of other devices, and refused ones, make no difference to it.
   */
  lemma {:induction false} HistoryIsCollapsed(saves: seq<Save>, mac: string)
    ensures RowsOf(SaveAll(map[], saves), mac) == LastOf(Collapsed(SavesOf(saves, mac)), BACKUP_LIMIT)
    decreases |saves|
  {
    hide Signature, Collapsed, Added;
    if saves == [] {
      CollapsedOpens([]);
    } else {
      var init, last := saves[..|saves| - 1], saves[|saves| - 1];
      HistoryIsCollapsed(init, mac);
      if Complete(last.row) && Upper(last.row.mac) == Upper(mac) {
        CollapsedGrows(SavesOf(init, mac), last);
        AddedIsLastOf(Collapsed(SavesOf(init, mac)), last.row, When(last));
      }
    }
  }

  /** Neighbours in a history always differ: a row is only ever added for a change. */
  lemma {:induction false} NeighboursDiffer(saves: seq<Save>, i: nat)
    requires i + 1 < |Collapsed(saves)|
    ensures Signature(Collapsed(saves)[i]) != Signature(Collapsed(saves)[i + 1])
    decreases |saves|
  {
    hide Signature, When, BlockLength;
    var n := BlockLength(saves);
    BlockIsMaximal(saves);
    var rest := saves[n..];
    if i > 0 {
      NeighboursDiffer(rest, i - 1);
    } else {
      SeenKeepsSignature(saves[0].row, When(saves[n - 1]));
      SeenKeepsSignature(rest[0].row, When(rest[BlockLength(rest) - 1]));
    }
  }

  // ----- the signature and the test after a write

  lemma NormalHex(b: Config)
    ensures NormalRaw(Hex(b)) == Hex(b[..9] + [b[10]])
  {
    hide Hex;
    assert b == b[..9] + ([b[9]] + [b[10]]);
    HexConcat(b[..9], [b[9]] + [b[10]]);
    HexConcat([b[9]], [b[10]]);
    HexConcat(b[..9], [b[10]]);
    assert Hex(b)[..18] == Hex(b[..9]) && Hex(b)[20..] == Hex([b[10]]);
  }

  /** A write is confirmed exactly when its target and what is read back would be stored as the same state. */
  lemma VerifiedMeansSameSignature(after: Config, target: Config)
    ensures ConfigWrite.Verifies(after, target) <==> NormalRaw(Hex(after)) == NormalRaw(Hex(target))
  {
    NormalHex(after);
    NormalHex(target);
    assert after[0..9] == after[..9] && target[0..9] == target[..9];
    var a, t := after[..9] + [after[10]], target[..9] + [target[10]];
    if Hex(a) == Hex(t) {
      HexInjective(a, t);
      assert a[..9] == after[..9] && t[..9] == target[..9] && a[9] == after[10] && t[9] == target[10];
    }
  }
}
