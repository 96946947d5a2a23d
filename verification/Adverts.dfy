/** What a device broadcasts, read without connecting: BTHome v2 objects, and how long a counter stood still. */
module Adverts {
  import opened Wrappers
  import opened Bytes

  const OBJ_PACKET_ID: Octet := 0x00
  const OBJ_TEMPERATURE: Octet := 0x02

  /** The data length of an object, for the objects these devices send. */
  function ObjectLength(id: Octet): (n: Option<nat>)
    ensures n.Some? ==> 1 <= n.value <= 4
  {
    if id in {0x00, 0x01, 0x09, 0x0F, 0x10, 0x11, 0x2E, 0x2F, 0x3A} then Some(1)
    else if id in {0x02, 0x03, 0x06, 0x07, 0x08, 0x0C, 0x0D, 0x0E, 0x12, 0x13, 0x14, 0x3D, 0x3F} then Some(2)
    else if id in {0x04, 0x05, 0x0A, 0x0B} then Some(3)
    else if id == 0x3E then Some(4)
    else None
  }

  datatype Object = Object(id: Octet, value: seq<Octet>)

  predicate WellFormed(o: Object) {
    ObjectLength(o.id) == Some(|o.value|)
  }

  predicate AllWellFormed(objects: seq<Object>) {
    forall i | 0 <= i < |objects| :: WellFormed(objects[i])
  }

  function Encode(objects: seq<Object>): seq<Octet> {
    if objects == [] then [] else [objects[0].id] + objects[0].value + Encode(objects[1..])
  }

  /** The walk goes no further: the end, an unknown object, or one that runs off the end. */
  predicate Stops(data: seq<Octet>) {
    data == [] || ObjectLength(data[0]) == None || 1 + ObjectLength(data[0]).value > |data|
  }

  function WalkFrom(data: seq<Octet>): seq<Object>
    decreases |data|
  {
    if Stops(data) then []
    else
      var size := ObjectLength(data[0]).value;
      [Object(data[0], data[1..1 + size])] + WalkFrom(data[1 + size..])
  }

  /** The objects of a payload: none if there is none, or if it is encrypted. */
  function Walk(payload: Option<seq<Octet>>): seq<Object> {
    if payload == None || payload.value == [] || payload.value[0] % 2 == 1 then [] else WalkFrom(payload.value[1..])
  }

  method BthomeObjects(payload: Option<seq<Octet>>) returns (objects: seq<Object>)
    ensures objects == Walk(payload)
  {
    hide ObjectLength, WalkFrom, Stops;
    objects := [];
    if payload == None || payload.value == [] {
      return;
    }
    var data := payload.value;
    if data[0] % 2 == 1 {
      return;
    }
    var i := 1;
    while i < |data|
      invariant 1 <= i <= |data|
      invariant WalkFrom(data[1..]) == objects + WalkFrom(data[i..])
    {
      WalkStep(data, i);
      var size := ObjectLength(data[i]);
      if size == None || i + 1 + size.value > |data| {
        return;
      }
      var next := i + 1 + size.value;
      objects := objects + [Object(data[i], data[i + 1..next])];
      i := next;
    }
    WalkEnds(data);
  }

  lemma WalkStep(data: seq<Octet>, i: nat)
    requires i < |data|
    ensures var size := ObjectLength(data[i]);
            WalkFrom(data[i..]) ==
            if size == None || i + 1 + size.value > |data| then []
            else [Object(data[i], data[i + 1..i + 1 + size.value])] + WalkFrom(data[i + 1 + size.value..])
  {
    hide ObjectLength;
    var size := ObjectLength(data[i]);
    if size.Some? && i + 1 + size.value <= |data| {
      var next := i + 1 + size.value;
      assert data[i..][1..1 + size.value] == data[i + 1..next] && data[i..][1 + size.value..] == data[next..];
    }
  }

  lemma WalkEnds(data: seq<Octet>)
    ensures WalkFrom(data[|data|..]) == []
  {}

  /**
   The walk yields exactly the well-formed objects that, written out again, are the start of the data and
   leave something it has to stop at.
   */
  lemma {:induction false} WalkIsExact(data: seq<Octet>, objects: seq<Object>)
    ensures objects == WalkFrom(data) <==>
            AllWellFormed(objects) && Encode(objects) <= data && Stops(data[|Encode(objects)|..])
    decreases |data|
  {
    hide ObjectLength;
    if Stops(data) {
      if objects == [] {
        assert data[0..] == data;
      } else if Encode(objects) <= data {
        assert data[0] == objects[0].id && |Encode(objects)| >= 1 + |objects[0].value|;
        assert AllWellFormed(objects) ==> WellFormed(objects[0]);
      }
    } else {
      var size := ObjectLength(data[0]).value;
      var rest := data[1 + size..];
      var first := Object(data[0], data[1..1 + size]);
      assert data == [first.id] + first.value + rest;
      if objects == [] {
        assert data[0..] == data;
      } else {
        WalkIsExact(rest, objects[1..]);
        AllOfFirst(objects);
        if AllWellFormed(objects) && Encode(objects) <= data {
          FirstIsForced(data, objects);
        }
        if objects[0] == first {
          var later := Encode(objects[1..]);
          assert Encode(objects) == [first.id] + first.value + later;
          assert Encode(objects) <= data <==> later <= rest by { PrefixAfter([first.id] + first.value, later, rest); }
          assert Encode(objects) <= data ==> data[|Encode(objects)|..] == rest[|later|..];
          assert objects == [first] + objects[1..];
        }
      }
    }
  }

  lemma PrefixAfter(front: seq<Octet>, a: seq<Octet>, b: seq<Octet>)
    ensures front + a <= front + b <==> a <= b
  {
    if front + a <= front + b {
      assert a == (front + a)[|front|..] && b == (front + b)[|front|..];
      assert front + a == (front + b)[..|front + a|];
      assert (front + b)[..|front + a|][|front|..] == b[..|a|];
    }
    if a <= b {
      assert front + b == (front + a) + b[|a|..];
    }
  }

  lemma AllOfFirst(objects: seq<Object>)
    requires objects != []
    ensures AllWellFormed(objects) <==> WellFormed(objects[0]) && AllWellFormed(objects[1..])
  {
    hide ObjectLength;
    if WellFormed(objects[0]) && AllWellFormed(objects[1..]) {
      forall i | 0 <= i < |objects| ensures WellFormed(objects[i]) {
        if i > 0 { assert objects[i] == objects[1..][i - 1]; }
      }
    }
    if AllWellFormed(objects) {
      forall i | 0 <= i < |objects[1..]| ensures WellFormed(objects[1..][i]) {
        assert objects[1..][i] == objects[i + 1];
      }
    }
  }

  /** The first object of any encoding is settled by the first byte. */
  lemma FirstIsForced(data: seq<Octet>, objects: seq<Object>)
    requires objects != [] && AllWellFormed(objects) && Encode(objects) <= data
    ensures ObjectLength(data[0]) == Some(|objects[0].value|)
            && objects[0] == Object(data[0], data[1..1 + |objects[0].value|])
  {
    hide ObjectLength;
    assert WellFormed(objects[0]);
    var size := |objects[0].value|;
    assert Encode(objects)[1..1 + size] == objects[0].value;
    assert data[..|Encode(objects)|] == Encode(objects);
    assert data[1..1 + size] == Encode(objects)[1..1 + size];
  }

  /** A list of objects written out is read back as that list, whatever unreadable bytes follow. */
  lemma WalkOfEncode(objects: seq<Object>, info: Octet, tail: seq<Octet>)
    requires AllWellFormed(objects) && info % 2 == 0 && Stops(tail)
    ensures Walk(Some([info] + Encode(objects) + tail)) == objects
  {
    var data := Encode(objects) + tail;
    assert ([info] + Encode(objects) + tail)[1..] == data && data[|Encode(objects)|..] == tail;
    WalkIsExact(data, objects);
  }

  /** Bytes added to a payload that is not empty never change what was read before them. */
  lemma AppendingExtends(payload: seq<Octet>, more: seq<Octet>)
    requires payload != []
    ensures Walk(Some(payload)) <= Walk(Some(payload + more))
  {
    assert (payload + more)[1..] == payload[1..] + more;
    if payload[0] % 2 == 0 {
      WalkExtends(payload[1..], more);
    }
  }

  lemma {:induction false} WalkExtends(data: seq<Octet>, more: seq<Octet>)
    ensures WalkFrom(data) <= WalkFrom(data + more)
    decreases |data|
  {
    hide ObjectLength;
    if !Stops(data) {
      var size := ObjectLength(data[0]).value;
      var longer := data + more;
      assert longer[1..1 + size] == data[1..1 + size] && longer[1 + size..] == data[1 + size..] + more;
      WalkExtends(data[1 + size..], more);
    }
  }

  // ----- what is read from the objects

  predicate Carries(objects: seq<Object>, id: Octet) {
    exists i | 0 <= i < |objects| :: objects[i].id == id
  }

  /** Whether a repeater's advertisement still carries a temperature; none if it cannot be read at all. */
  method IsRelaying(payload: Option<seq<Octet>>) returns (relaying: Option<bool>)
    ensures relaying == Some(true) <==> Carries(Walk(payload), OBJ_TEMPERATURE)
    ensures relaying == None <==> Walk(payload) == []
  {
    var objects := BthomeObjects(payload);
    var seenAny := false;
    for i := 0 to |objects|
      invariant seenAny <==> i > 0
      invariant forall k | 0 <= k < i :: objects[k].id != OBJ_TEMPERATURE
    {
      seenAny := true;
      if objects[i].id == OBJ_TEMPERATURE {
        return Some(true);
      }
    }
    return if seenAny then Some(false) else None;
  }

  /** The first packet counter in the payload. */
  method PacketId(payload: Option<seq<Octet>>) returns (id: Option<Octet>)
    ensures id.Some? <==> Carries(Walk(payload), OBJ_PACKET_ID)
    ensures id.Some? ==> exists i ::
              && 0 <= i < |Walk(payload)| && Walk(payload)[i] == Object(OBJ_PACKET_ID, [id.value])
              && forall k | 0 <= k < i :: Walk(payload)[k].id != OBJ_PACKET_ID
  {
    var objects := BthomeObjects(payload);
    for i := 0 to |objects|
      invariant forall k | 0 <= k < i :: objects[k].id != OBJ_PACKET_ID
    {
      if objects[i].id == OBJ_PACKET_ID {
        WalkedAreWellFormed(payload);
        assert WellFormed(objects[i]);
        return Some(objects[i].value[0]);
      }
    }
    return None;
  }

  lemma WalkedAreWellFormed(payload: Option<seq<Octet>>)
    ensures AllWellFormed(Walk(payload))
  {
    if payload.Some? && payload.value != [] {
      WalkIsExact(payload.value[1..], WalkFrom(payload.value[1..]));
    }
  }

  /** An advertisement that relays a reading still does with anything added behind it. */
  lemma RelayingSurvivesMore(payload: seq<Octet>, more: seq<Octet>)
    requires payload != [] && Carries(Walk(Some(payload)), OBJ_TEMPERATURE)
    ensures Carries(Walk(Some(payload + more)), OBJ_TEMPERATURE)
  {
    AppendingExtends(payload, more);
    var i :| 0 <= i < |Walk(Some(payload))| && Walk(Some(payload))[i].id == OBJ_TEMPERATURE;
    assert Walk(Some(payload + more))[i].id == OBJ_TEMPERATURE;
  }

  // ----- how long a counter has stood still

  /** One look at one device, at a time in milliseconds. */
  datatype Sighting = Sighting(mac: string, packetId: Option<Octet>, now: int)

  type Memory = map<string, (Octet, int)>

  function Remember(seen: Memory, s: Sighting): Memory {
    if s.packetId == None || (s.mac in seen && seen[s.mac].0 == s.packetId.value) then seen
    else seen[s.mac := (s.packetId.value, s.now)]
  }

  /** Tenths of a second for which this counter has stood still; none without a counter, nought at first sight. */
  function Stale(seen: Memory, s: Sighting): Option<int> {
    if s.packetId == None then None
    else if s.mac !in seen || seen[s.mac].0 != s.packetId.value then Some(0)
    else Some(RoundHalfEven(s.now - seen[s.mac].1, 100))
  }

  class CounterMemory {
    var seen: Memory

    constructor ()
      ensures seen == map[]
    {
      seen := map[];
    }

    method StaleSeconds(s: Sighting) returns (tenths: Option<int>)
      modifies this
      ensures seen == Remember(old(seen), s)
      ensures tenths == Stale(old(seen), s)
    {
      if s.packetId == None {
        return None;
      }
      if s.mac !in seen || seen[s.mac].0 != s.packetId.value {
        seen := seen[s.mac := (s.packetId.value, s.now)];
        return Some(0);
      }
      return Some(RoundHalfEven(s.now - seen[s.mac].1, 100));
    }
  }

  function RememberAll(seen: Memory, run: seq<Sighting>): Memory {
    if run == [] then seen else Remember(RememberAll(seen, run[..|run| - 1]), run[|run| - 1])
  }

  /** The sightings of one device that carried a counter. */
  function CountersOf(run: seq<Sighting>, mac: string): (mine: seq<Sighting>)
    ensures forall i | 0 <= i < |mine| :: mine[i].packetId.Some?
  {
    if run == [] then []
    else
      var rest := CountersOf(run[..|run| - 1], mac);
      var last := run[|run| - 1];
      if last.mac == mac && last.packetId.Some? then rest + [last] else rest
  }

  /** Where the last maximal block of equal counters begins. */
  function BlockStart(mine: seq<Sighting>): (start: nat)
    requires mine != []
    ensures start < |mine|
    ensures forall i | start <= i < |mine| :: mine[i].packetId == mine[|mine| - 1].packetId
    ensures start > 0 ==> mine[start - 1].packetId != mine[start].packetId
  {
    var last := |mine| - 1;
    if last > 0 && mine[last - 1].packetId == mine[last].packetId then BlockStart(mine[..last]) else last
  }

  /**
   After any run of sightings of any devices, what is remembered of one device is its current counter and
   the time of the first sighting in the current block of equal counters.
   */
  lemma {:induction false} MemoryIsBlockStart(run: seq<Sighting>, mac: string)
    ensures var seen, mine := RememberAll(map[], run), CountersOf(run, mac);
            && (mac in seen <==> mine != [])
            && (mac in seen ==> seen[mac] == (mine[|mine| - 1].packetId.value, mine[BlockStart(mine)].now))
    decreases |run|
  {
    if run != [] {
      var init, last := run[..|run| - 1], run[|run| - 1];
      MemoryIsBlockStart(init, mac);
      if last.mac == mac && last.packetId.Some? {
        var mine := CountersOf(run, mac);
        assert mine[..|mine| - 1] == CountersOf(init, mac);
      }
    }
  }

  /**
   What a call returns at the end of any run: none without a counter, else the time since the first
   sighting of the block it belongs to, to a tenth of a second. Other devices do not come into it.
   */
  lemma StaleIsTimeInBlock(run: seq<Sighting>, s: Sighting)
    requires s.packetId.Some?
    ensures var mine := CountersOf(run, s.mac) + [s];
            Stale(RememberAll(map[], run), s) == Some(RoundHalfEven(s.now - mine[BlockStart(mine)].now, 100))
  {
    MemoryIsBlockStart(run, s.mac);
    var mine := CountersOf(run, s.mac);
    assert (mine + [s])[..|mine|] == mine;
    RoundHalfEvenExact(0, 100);
  }
}
