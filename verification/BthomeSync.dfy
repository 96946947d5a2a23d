/** Home Assistant's BTHome entries, and how one of them follows a confirmed encryption change. */
module BthomeSync {
  import opened Wrappers
  import opened Bytes

  const CONF_BINDKEY := "bindkey"

  datatype Entry = Entry(id: string, uniqueId: string, ignored: bool, disabled: bool, data: map<string, string>)

  predicate Matches(e: Entry, mac: string) {
    !e.ignored && Upper(e.uniqueId) == Upper(mac)
  }

  /** The first entry for this address that is not an ignored one. */
  function FindEntry(entries: seq<Entry>, mac: string): (i: Option<nat>)
    ensures i.Some? ==> i.value < |entries| && Matches(entries[i.value], mac)
    ensures i.Some? ==> forall j | 0 <= j < i.value :: !Matches(entries[j], mac)
    ensures i == None ==> forall j | 0 <= j < |entries| :: !Matches(entries[j], mac)
  {
    if entries == [] then None
    else if Matches(entries[0], mac) then Some(0)
    else match FindEntry(entries[1..], mac) case None => None case Some(j) => Some(j + 1)
  }

  /** What can go wrong or be found once the key is in the entry: everything here comes after an await. */
  datatype Circumstances = Circumstances(
    lastIsEncrypted: bool,  // the newest advert Home Assistant holds
    waitRaises: bool,       // anything but the timeout, which is not an error
    reloadRaises: bool,
    issueRaises: bool)

  datatype Status = Updated | NoEntry | SyncFailed

  /** What is asked of Home Assistant, in order. */
  datatype HaEvent = DataStored(id: string) | AwaitedPlainAdvert | Reloaded(id: string) | IssueDeleted(id: string)

  function WithKey(data: map<string, string>, key: Option<Key>): map<string, string> {
    match key
    case Some(k) => data[CONF_BINDKEY := Hex(k)]
    case None => data - {CONF_BINDKEY}
  }

  /** How far a sync gets before its first await. */
  datatype StoreResult = NoSuchEntry | StoreRefused | InStore(entry: Entry)

  datatype KeyStore = KeyStore(entries: seq<Entry>, found: StoreResult, events: seq<HaEvent>)

  /** Put the key into this device's entry, or with no key take it out: one stretch without an await. */
  function StoreKey(entries: seq<Entry>, mac: string, key: Option<Key>, updateRaises: bool): KeyStore {
    match FindEntry(entries, mac)
    case None => KeyStore(entries, NoSuchEntry, [])
    case Some(i) =>
      var e := entries[i];
      var data := WithKey(e.data, key);
      if data == e.data then KeyStore(entries, InStore(e), [])
      else if updateRaises then KeyStore(entries, StoreRefused, [])
      else KeyStore(entries[i := e.(data := data)], InStore(e), [DataStored(e.id)])
  }

  datatype Reload = Reload(ok: bool, events: seq<HaEvent>)

  /** Reload an entry; when its key was just removed, not before the newest advert held is a plain one. */
  function ReloadEntry(e: Entry, removing: bool, c: Circumstances): Reload {
    if e.disabled then Reload(true, [])
    else
      var waits := removing && c.lastIsEncrypted;
      var waited := if waits then [AwaitedPlainAdvert] else [];
      if (waits && c.waitRaises) || c.reloadRaises then Reload(false, waited)
      else Reload(true, waited + [Reloaded(e.id)])
  }

  datatype Ending = Ending(status: Status, events: seq<HaEvent>)

  /** The rest of a sync: reload the entry and delete the issue that may stand against it. */
  function EndSync(found: StoreResult, removing: bool, c: Circumstances): Ending {
    match found
    case NoSuchEntry => Ending(NoEntry, [])
    case StoreRefused => Ending(SyncFailed, [])
    case InStore(e) =>
      var reload := ReloadEntry(e, removing, c);
      if !reload.ok || c.issueRaises then Ending(SyncFailed, reload.events)
      else Ending(Updated, reload.events + [IssueDeleted(e.id)])
  }

  /** Equal entry lists but for the bind key stored in the entries of one address. */
  ghost predicate OnlyKeyOf(before: seq<Entry>, after: seq<Entry>, mac: string) {
    && |before| == |after|
    && forall i | 0 <= i < |before| ::
         && after[i] == before[i].(data := after[i].data)
         && after[i].data - {CONF_BINDKEY} == before[i].data - {CONF_BINDKEY}
         && (!Matches(before[i], mac) ==> after[i] == before[i])
  }

  lemma WithKeyKeepsRest(data: map<string, string>, key: Option<Key>)
    ensures WithKey(data, key) - {CONF_BINDKEY} == data - {CONF_BINDKEY}
  {}

  /**
   Whatever fails, a sync touches nothing but the key of this device's own entry; and it can report success
   only if that entry held exactly the key asked for, or none, from the moment it was stored.
   */
  lemma SyncTouchesOneKey(entries: seq<Entry>, mac: string, key: Option<Key>, updateRaises: bool, c: Circumstances)
    ensures var s := StoreKey(entries, mac, key, updateRaises);
            && OnlyKeyOf(entries, s.entries, mac)
            && FindEntry(s.entries, mac) == FindEntry(entries, mac)
            && (s.found == NoSuchEntry <==> FindEntry(entries, mac) == None)
            && (s.found.InStore? ==> s.entries[FindEntry(entries, mac).value].data
                                     == WithKey(entries[FindEntry(entries, mac).value].data, key))
            && (!s.found.InStore? ==> s.entries == entries)
            && (EndSync(s.found, key == None, c).status == Updated ==> s.found.InStore?)
  {
    hide FindEntry, WithKey;
    var s := StoreKey(entries, mac, key, updateRaises);
    if FindEntry(entries, mac).Some? {
      var i := FindEntry(entries, mac).value;
      WithKeyKeepsRest(entries[i].data, key);
      assert entries[i := entries[i]] == entries;
      FindEntryIgnoresData(entries, s.entries, mac);
    }
  }

  lemma FindEntryIgnoresData(before: seq<Entry>, after: seq<Entry>, mac: string)
    requires |before| == |after|
    requires forall i | 0 <= i < |before| :: after[i] == before[i].(data := after[i].data)
    ensures FindEntry(after, mac) == FindEntry(before, mac)
  {
    assert forall i | 0 <= i < |before| :: Matches(after[i], mac) == Matches(before[i], mac);
  }

  /** Everything a sync asks of Home Assistant, in order. */
  function SyncEvents(entries: seq<Entry>, mac: string, key: Option<Key>, updateRaises: bool,
                      c: Circumstances): seq<HaEvent> {
    var s := StoreKey(entries, mac, key, updateRaises);
    s.events + EndSync(s.found, key == None, c).events
  }

  /**
   A sync that removes a key reloads only the device's own entry, only once the key is out of it, and while
   encrypted adverts are still held only right after waiting for a plain one. If there was a key to take out,
   storing the entry without it is the first thing asked for.
   */
  lemma RemovalWaitsBeforeReload(entries: seq<Entry>, mac: string, updateRaises: bool, c: Circumstances, n: nat)
    requires var ev := SyncEvents(entries, mac, None, updateRaises, c); n < |ev| && ev[n].Reloaded?
    ensures var ev := SyncEvents(entries, mac, None, updateRaises, c);
            var after := StoreKey(entries, mac, None, updateRaises).entries;
            && FindEntry(entries, mac).Some? && |after| == |entries|
            && var i := FindEntry(entries, mac).value;
               && ev[n] == Reloaded(entries[i].id) && !entries[i].disabled
               && CONF_BINDKEY !in after[i].data
               && (c.lastIsEncrypted ==> n > 0 && ev[n - 1] == AwaitedPlainAdvert)
               && (CONF_BINDKEY in entries[i].data ==> n > 0 && ev[0] == DataStored(entries[i].id))
  {
    hide FindEntry;
    var s := StoreKey(entries, mac, None, updateRaises);
    var i := FindEntry(entries, mac).value;
    var e := entries[i];
    assert s.found == InStore(e);
    if CONF_BINDKEY !in e.data {
      assert WithKey(e.data, None) == e.data;
    } else {
      assert CONF_BINDKEY !in WithKey(e.data, None);
    }
  }

  // ----- the same, changing the entries in place

  class HomeAssistant {
    var entries: seq<Entry>
    var events: seq<HaEvent>

    constructor (initial: seq<Entry>)
      ensures entries == initial && events == []
    {
      entries, events := initial, [];
    }

    method BthomeEntry(mac: string) returns (found: Option<nat>)
      ensures found == FindEntry(entries, mac)
    {
      for i := 0 to |entries|
        invariant forall j | 0 <= j < i :: !Matches(entries[j], mac)
      {
        if Matches(entries[i], mac) {
          return Some(i);
        }
      }
      return None;
    }

    method Store(mac: string, key: Option<Key>, updateRaises: bool) returns (found: StoreResult)
      modifies this
      ensures var s := StoreKey(old(entries), mac, key, updateRaises);
              entries == s.entries && found == s.found && events == old(events) + s.events
    {
      hide FindEntry, Matches, WithKey;
      var at := BthomeEntry(mac);
      if at == None {
        return NoSuchEntry;
      }
      var i := at.value;
      var e := entries[i];
      var data := WithKey(e.data, key);
      if data != e.data {
        if updateRaises {
          return StoreRefused;
        }
        entries := entries[i := e.(data := data)];
        events := events + [DataStored(e.id)];
      }
      return InStore(e);
    }

    method Reload(e: Entry, removing: bool, c: Circumstances) returns (ok: bool)
      modifies this`events
      ensures ok == ReloadEntry(e, removing, c).ok
      ensures events == old(events) + ReloadEntry(e, removing, c).events
    {
      if !e.disabled {
        if removing && c.lastIsEncrypted {
          events := events + [AwaitedPlainAdvert];
          if c.waitRaises {
            return false;
          }
        }
        if c.reloadRaises {
          return false;
        }
        events := events + [Reloaded(e.id)];
      }
      return true;
    }

    method End(found: StoreResult, removing: bool, c: Circumstances) returns (status: Status)
      modifies this`events
      ensures var ending := EndSync(found, removing, c);
              status == ending.status && events == old(events) + ending.events
    {
      hide ReloadEntry;
      if found.NoSuchEntry? {
        return NoEntry;
      }
      if found.StoreRefused? {
        return SyncFailed;
      }
      var ok := Reload(found.entry, removing, c);
      if !ok || c.issueRaises {
        return SyncFailed;
      }
      events := events + [IssueDeleted(found.entry.id)];
      return Updated;
    }

    /** The whole call: the store, and then what has to be awaited. */
    method SyncBthome(mac: string, key: Option<Key>, updateRaises: bool, c: Circumstances) returns (status: Status)
      modifies this
      ensures var s := StoreKey(old(entries), mac, key, updateRaises);
              var ending := EndSync(s.found, key == None, c);
              entries == s.entries && status == ending.status && events == old(events) + s.events + ending.events
    {
      hide StoreKey, EndSync;
      var found := Store(mac, key, updateRaises);
      status := End(found, key == None, c);
    }
  }
}
