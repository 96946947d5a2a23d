/**
 A thermometer as the manager reaches it: an 11-byte configuration and a bind key behind a link that
 can fail at every await. A write can be lost or take effect whether or not the await that sent it
 raises, and a reply can be missing or leave the key out; a reply that does arrive tells the truth.
 */
module Thermometers {
  import opened Wrappers
  import opened Bytes
  import opened ConfigBlob
  import opened ConfigLaws

  type Config = b: Blob | |b| == CONFIG_LENGTH witness seq(CONFIG_LENGTH, _ => 0)

  datatype Device = Device(repeater: bool, fw: Byte, blob: Config, key: Option<Key>)

  /** What lives on a thermometer outside its configuration and key. */
  datatype Setting = DeviceName | Comfort | Sensor

  /** Something put on the air, what the device made of it, and for a key the key that was echoed. */
  datatype Send =
    | KeySent(key: Key, landed: bool, echo: Option<Key>)
    | ConfigSent(blob: Config, stored: Option<Config>) // None: the write was lost
    | SettingSent(setting: Setting)

  /** What a send does to the device. */
  function Take(d: Device, s: Send): Device {
    match s
    case KeySent(k, landed, _) => if landed then d.(key := Some(k)) else d
    case ConfigSent(_, stored) => if stored.Some? then d.(blob := stored.value) else d
    case SettingSent(_) => d
  }

  function TakeAll(d: Device, sends: seq<Send>): Device
    decreases |sends|
  {
    if sends == [] then d else TakeAll(Take(d, sends[0]), sends[1..])
  }

  lemma {:induction false} TakeAllConcat(d: Device, a: seq<Send>, b: seq<Send>)
    ensures TakeAll(d, a + b) == TakeAll(TakeAll(d, a), b)
    decreases |a|
  {
    if a == [] {
      assert a + b == b;
    } else {
      assert (a + b)[1..] == a[1..] + b;
      TakeAllConcat(Take(d, a[0]), a[1..], b);
    }
  }

  const CMD_BIND_KEY: Byte := 0x18

  /** How much of a 0x18 reply gets through. */
  datatype ReplyForm = Silent | AckOnly | Full

  datatype Reply = Raises | Replies(form: ReplyForm)

  /** The bytes of a 0x18 reply from a device holding this key. */
  function KeyReply(form: ReplyForm, key: Option<Key>): Blob {
    match form
    case Silent => []
    case AckOnly => [CMD_BIND_KEY]
    case Full => if key.Some? then [CMD_BIND_KEY] + key.value else [CMD_BIND_KEY, 0xFF]
  }

  /** The key in a 0x18 reply: an opcode echo and sixteen bytes, or nothing usable. */
  function DecodeBindKey(raw: Blob): Option<Key> {
    if |raw| >= 17 && raw[0] == CMD_BIND_KEY then Some(raw[1..17]) else None
  }

  /** A reply carries the device's own key or none, and carries it exactly when it arrives in full. */
  lemma KeyReplyIsTruthful(form: ReplyForm, key: Option<Key>)
    ensures DecodeBindKey(KeyReply(form, key)) == if form.Full? then key else None
  {
    if form.Full? && key.Some? {
      assert KeyReply(form, key)[1..17] == key.value;
    }
  }

  function KeyIn(r: Reply, key: Option<Key>): Option<Key> {
    match r
    case Raises => None
    case Replies(form) => DecodeBindKey(KeyReply(form, key))
  }

  /** The device itself, changed by what is sent to it. */
  class Thermometer {
    const repeater: bool
    const fw: Byte
    var blob: Config
    var key: Option<Key>
    var sent: seq<Send>

    constructor (d: Device)
      ensures State() == d && sent == []
    {
      repeater, fw, blob, key, sent := d.repeater, d.fw, d.blob, d.key, [];
    }

    function State(): Device
      reads this
    {
      Device(repeater, fw, blob, key)
    }

    /** A 0x18 command with a payload; what comes back is the device's key after it, or nothing. */
    method WriteKey(k: Key, lands: bool, reply: Reply) returns (echo: Option<Key>)
      modifies this
      ensures State() == if lands then old(State()).(key := Some(k)) else old(State())
      ensures echo == KeyIn(reply, key)
      ensures sent == old(sent) + [KeySent(k, lands, echo)]
    {
      if lands {
        key := Some(k);
      }
      echo := KeyIn(reply, key);
      sent := sent + [KeySent(k, lands, echo)];
    }

    /** A configuration write without a reply: the device stores it, something else, or nothing. */
    method WriteConfig(b: Config, stored: Option<Config>)
      modifies this
      ensures State() == if stored.Some? then old(State()).(blob := stored.value) else old(State())
      ensures sent == old(sent) + [ConfigSent(b, stored)]
    {
      if stored.Some? {
        blob := stored.value;
      }
      sent := sent + [ConfigSent(b, stored)];
    }

    method WriteSetting(setting: Setting)
      modifies this
      ensures State() == old(State()) && sent == old(sent) + [SettingSent(setting)]
    {
      sent := sent + [SettingSent(setting)];
    }

    /** The device rewrites its hardware byte on its own. */
    method RewriteHwVer(hw: Byte)
      modifies this
      ensures State() == old(State()).(blob := old(blob)[9 := hw]) && sent == old(sent)
    {
      blob := blob[9 := hw];
    }
  }

  // ----- the encryption flag, as far as a link ever needs to know it

  /** Equal but for flg2 bit 3. */
  predicate FlagTwins(a: Config, b: Config) {
    a == b[1 := a[1]] && a[1] & !0x08 == b[1] & !0x08
  }

  predicate HasEncryption(fw: Byte) {
    fw == 0 || fw >= FW_ADV_CRYPTO_MIN
  }

  lemma SameFlagSameByte(a: Byte, b: Byte)
    requires a & !0x08 == b & !0x08 && (a >> 3) & 1 == (b >> 3) & 1
    ensures a == b
  {}

  /** Twins with the same flag are the same configuration. */
  lemma TwinsWithSameFlag(a: Config, b: Config)
    requires FlagTwins(a, b) && Encrypts(a) == Encrypts(b)
    ensures a == b
  {
    FlagIsOneBit(a[1]);
    FlagIsOneBit(b[1]);
    SameFlagSameByte(a[1], b[1]);
  }

  lemma FlagIsOneBit(b: Byte)
    ensures ((b >> 3) & 1) == 0 || ((b >> 3) & 1) == 1
    ensures ((b >> 3) & 1) as int == 1 <==> (b >> 3) & 1 == 1
  {}

  lemma TwinsTransitive(a: Config, b: Config, c: Config)
    requires FlagTwins(a, b) && FlagTwins(b, c)
    ensures FlagTwins(a, c) && FlagTwins(b, a) && FlagTwins(a, a)
  {}

  /** What setting the flag does: nothing but the flag, and nothing at all if it already stands. */
  lemma SetFlag(blob: Config, enabled: bool, fw: Byte)
    ensures WithAdvCrypto(blob, enabled, fw).Ok? <==> HasEncryption(fw)
    ensures HasEncryption(fw) ==>
              var r := WithAdvCrypto(blob, enabled, fw).value;
              FlagTwins(r, blob) && Encrypts(r) == enabled && (r == blob <==> Encrypts(blob) == enabled)
  {
    if HasEncryption(fw) {
      hide Encrypts, Put, Mask;
      CryptoFrame(blob, enabled, Modern);
      var r := WithAdvCrypto(blob, enabled, fw).value;
      assert FlagTwins(r, blob);
      if Encrypts(blob) == enabled {
        TwinsWithSameFlag(r, blob);
      }
    }
  }
}
