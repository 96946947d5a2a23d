/**
 Restoring a device's own snapshot can change its bind key, and Home Assistant's entry is not part of a
 restore: when the two then part.
 */
module RestoreAgreement {
  import opened Bytes
  import opened ConfigBlob
  import opened Thermometers
  import opened BthomeSync
  import opened Restore
  import opened RestoreLaws
  import Agreement

  /** The world once a restore onto this device has given up its lock. */
  function Restored(w: Agreement.World, mac: string, snap: Snapshot, parts: set<Part>,
                    links: seq<Restore.Link>): Agreement.World
    requires mac in w.devices && snap.kind == ThermometerKind
  {
    w.(devices := w.devices[mac := RestoreSnapshot(w.devices[mac], mac, snap, parts, links).dev])
  }

  /** An encrypting thermometer is to be given another key than its own. */
  ghost predicate Rekeys(d: Device, mac: string, snap: Snapshot, parts: set<Part>) {
    var o := OrderOf(mac, snap, parts);
    && Encrypts(d.blob) && !d.repeater && !Unusable(snap, parts)
    && o.keyAsked && !o.clone && o.key.Some? && o.key != d.key
  }

  const KEY_LANDS :=
    Connected(0, false, Raises, false, false, true, 0, CmdDone(true), CmdDone(true), true, Replies(Full), CmdDone(true))

  lemma LandedKeyIsHeld(d: Device, o: Order)
    requires !d.repeater && o.keyAsked && !o.clone && o.key.Some?
    ensures Retry(d, o, [KEY_LANDS], NoAttempt).dev.key == o.key
  {
    hide WithOwnFlag, KeyIn, TryRestore;
    LandsInOne(d, o);
    assert Retry(d, o, [KEY_LANDS], NoAttempt).dev == TryRestore(d, o, KEY_LANDS).dev;
  }

  lemma LandsInOne(d: Device, o: Order)
    requires !d.repeater && o.keyAsked && !o.clone && o.key.Some?
    ensures TryRestore(d, o, KEY_LANDS).Returned? && TryRestore(d, o, KEY_LANDS).dev.key == o.key
  {
    hide WithOwnFlag, KeyIn, ConfigWrite.Verifies;
  }

  lemma KeptOrRekeyed(d: Device, mac: string, snap: Snapshot, parts: set<Part>, links: seq<Restore.Link>)
    requires snap.kind == ThermometerKind
    ensures var dev := RestoreSnapshot(d, mac, snap, parts, links).dev;
            && Encrypts(dev.blob) == Encrypts(d.blob)
            && (dev.key != d.key && Encrypts(d.blob) ==>
               Rekeys(d, mac, snap, parts) && dev.key == OrderOf(mac, snap, parts).key)
  {
    hide Encrypts, WithOwnFlag, Retry, OrderOf, Considerate, Near;
    var o := OrderOf(mac, snap, parts);
    RetryKeepsTrack(d, o, links, NoAttempt);
    FlagWithin(d, o, Retry(d, o, links, NoAttempt).dev);
    if d.repeater {
      assert TakeAll(d, []) == d;
      assert Near(Retry(d, o, links, NoAttempt).dev, d);
      NearHasSameKey(Retry(d, o, links, NoAttempt).dev, d);
    }
  }

  lemma NearHasSameKey(a: Device, b: Device)
    requires Near(a, b)
    ensures a.key == b.key
  {}

  /** Agreement after a restore is agreement before it, but for a changed key of an encrypting device. */
  lemma AgreesAfter(w: Agreement.World, mac: string, dev: Device)
    requires Agreement.Agrees(w, mac) && Encrypts(dev.blob) == Encrypts(w.devices[mac].blob)
    ensures Agreement.Agrees(w.(devices := w.devices[mac := dev]), mac)
            <==> !Encrypts(dev.blob) || dev.key == w.devices[mac].key
  {
    hide Encrypts, FindEntry;
    var key := w.devices[mac].key;
    if key.Some? && dev.key.Some? && Hex(key.value) == Hex(dev.key.value) {
      HexInjective(key.value, dev.key.value);
    }
  }

  /**
   Over all links up to the two attempts there are, a restore leaves device and entry in agreement exactly when
   it does not give an encrypting thermometer another key: its entry would still hold the old one.
   */
  lemma RestoreKeepsAgreementIff(w: Agreement.World, mac: string, snap: Snapshot, parts: set<Part>)
    requires mac in w.devices && Agreement.Agrees(w, mac) && snap.kind == ThermometerKind
    ensures (forall links | |links| <= 2 :: Agreement.Agrees(Restored(w, mac, snap, parts, links), mac))
            <==> !Rekeys(w.devices[mac], mac, snap, parts)
  {
    hide Agreement.Agrees, RestoreSnapshot, Encrypts, OrderOf, Retry;
    var d := w.devices[mac];
    forall links | |links| <= 2
      ensures Agreement.Agrees(Restored(w, mac, snap, parts, links), mac)
              <==> !Encrypts(d.blob) || RestoreSnapshot(d, mac, snap, parts, links).dev.key == d.key
    {
      KeptOrRekeyed(d, mac, snap, parts, links);
      AgreesAfter(w, mac, RestoreSnapshot(d, mac, snap, parts, links).dev);
    }
    if Rekeys(d, mac, snap, parts) {
      LandedKeyIsHeld(d, OrderOf(mac, snap, parts));
      UsableIsRetried(d, mac, snap, parts, [KEY_LANDS]);
      assert !Agreement.Agrees(Restored(w, mac, snap, parts, [KEY_LANDS]), mac);
    } else {
      forall links | |links| <= 2
        ensures Agreement.Agrees(Restored(w, mac, snap, parts, links), mac)
      {
        KeptOrRekeyed(d, mac, snap, parts, links);
      }
    }
  }

  lemma UsableIsRetried(d: Device, mac: string, snap: Snapshot, parts: set<Part>, links: seq<Restore.Link>)
    requires snap.kind == ThermometerKind && !Unusable(snap, parts)
    ensures RestoreSnapshot(d, mac, snap, parts, links) == Retry(d, OrderOf(mac, snap, parts), links, NoAttempt)
  {
    hide Retry, OrderOf;
  }
}
