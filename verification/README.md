# Telink manager: what its device changes keep

The manager is a Home Assistant integration that reconfigures Bluetooth thermometers (PVVX firmware) and
repeaters (BLETHR firmware) over a link that can fail at any await. This project models the parts of it that
change a remote device, a stored history or a shared job, and proves what they promise.

| file | what it models |
|---|---|
| `Wrappers`, `Bytes`, `Logs` | optional values and results; bytes, hex text, upper case and Python's `round`; logs of what was sent |
| `ConfigBlob`, `ConfigAlgebra`, `ConfigLaws` | the 11-byte configuration on three firmware layouts: parse, rebuild, the encryption flag, and their algebra |
| `Thermometers` | a thermometer behind a failing link |
| `ConfigWrite`, `StableRead` | read, rebuild, write, verify, with retries; the doubled read |
| `Encryption`, `EncryptionLaws` | turning encrypted advertising on or off, with retries |
| `BthomeSync`, `Agreement` | Home Assistant's BTHome entry, and its agreement with the device over interleaved calls |
| `Restore`, `RestoreLaws`, `RestoreAgreement` | restoring and cloning snapshots, what can be undone, and what it means for the BTHome entry |
| `BulkJob`, `BulkLaws`, `BulkEncryption` | the bulk job as an interleaving of workers, and the keys of a whole fleet |
| `DeviceLocks` | the per-device lock and the links opened under it |
| `RepeaterConfig`, `RepeaterAddress`, `RepeaterWrite`, `RepeaterLaws` | the repeater's configuration, source address and key, and changing or restoring them |
| `Snapshots` | the snapshot history |
| `Adverts` | BTHome objects in an advertisement, and the stalled-counter memory |

**Links.** Everything the link, the device's timing and the random source decide in one attempt is one value of
a `Link` datatype; a call is given a sequence of them, one for each attempt it may make, of any length (the code
makes two, three or three attempts, depending on the call). A write can be lost or take effect whether or not
the await that sent it raises. Replies can be missing or cut short, but a reply that arrives tells the truth.
All sends are logged. The theorems hold for every sequence of links, or say which links they are about.

**Two forms.** Code that changes things step by step is modelled by classes and methods that change fields and
arrays in place (`Thermometer`, `Device`, `Session`, `HomeAssistant`, `Bulk`, `LockTable`, `SnapshotStore`,
`CounterMemory`, and the two in-place rebuilds). Each method is proved equal to a function of the old state;
the properties are lemmas about those functions over all runs.

**Concurrency.** Tasks are interleaved at their awaits: a machine whose steps are the stretches between awaits,
taken in any order. What a call does to its device under the device's lock is one step, taken as the lock is given
up, since no other call touches that device meanwhile; the states it passes through are the subject of
`EncryptionLaws.EveryStateIsSafe`. Giving up the lock, returning and storing the key in the BTHome entry await
nothing (gatt.py:829-830 and 1294-1301, encryption.py:78-88), so they are that same step; the wait, the reload and
the report are later ones.

**Numbers.** Temperature and humidity offsets are in hundredths, scan windows in microseconds, times of sightings
in milliseconds, all exact; rounding is half to even, as in Python.

## What the proofs found

- `measure_mult` is a second name of `measure_interval` and loses to it in one request, so merging
  two requests differs from applying them in turn exactly when the first names the interval, the second only the
  alias, with another value (`ConfigLaws.BuildBuild`).
- The result "the device did not keep the encryption setting" is never returned: without a send the flag already
  stood, and after a send the verdict is `maybe_changed` (`EncryptionLaws.VerdictIsExact`).
- A restore is described as reversible, because it captures the target's state before overwriting anything. It
  captures it once an attempt. If an attempt is cut off after its write, the next one captures the new configuration
  (`RestoreLaws.RetriedRestoreCapturesItself`; exactly when, `RestoreLaws.UndoIsSafeIff`); if every attempt is cut
  off, no capture is handed over at all (`RestoreLaws.CutTwice`). Either way the old configuration is gone; exactly
  when it cannot be, `RestoreLaws.OldConfigIsKeptIff`.
- A restored bind key counts as restored on any answer to the write; unlike in an encryption change, it is
  not compared with what the device then holds (`RestoreLaws.LostKeyReportedAsRestored`; exactly when the report can be
  relied on, `RestoreLaws.RestoredKeyIsHeldIff`). A restored key is not brought to the BTHome entry either
  (exactly when the two then part, `RestoreAgreement.RestoreKeepsAgreementIff`).
- A repeater change that reports "nothing written" may follow an attempt that wrote
  (`RepeaterLaws.NothingWrittenIsTrueIff`).
- A repeater whose power lies above the offered band can have its other settings changed, but its own snapshot
  cannot be restored (`RepeaterConfig.OwnConfigCanBeRestored`, `RepeaterLaws.OwnSnapshotComesBack`).
- A source address given with dashes or single digits is written and then reported as not verified
  (`RepeaterAddress.SingleDigitsAreNotConfirmed`; exactly when, `RepeaterAddress.ConfirmedIffCanonical`).
- `last_fields` is described as returning the newest readable snapshot's settings; for a text that is hex but too
  short it returns the parser's error instead (`Snapshots.ShortSnapshotHidesSettings`; exactly when,
  `Snapshots.LastFieldsAreSettingsIff`). The model follows the code.
- `_read_raw` is described as requiring two consecutive identical reads; malformed reads in between do not count
  against it (`StableRead.GarbageInBetweenIsSkipped`). The model follows the code (`StableRead.ReadRaw`).


## Model

| member | source | states |
|---|---|---|
| `ConfigBlob.SetBit` | custom_components/telink_manager/pvvx_struct.py:132-137 | a requested switch sets or clears exactly its masked bits; an unrequested one changes nothing |
| `ConfigBlob.BuildInPlace` | custom_components/telink_manager/pvvx_struct.py:203-305 | the in-place rebuild over a byte array is the rebuild function, with the same error on the same first field that does not fit |
| `ConfigBlob.WithAdvCryptoInPlace` | custom_components/telink_manager/pvvx_struct.py:308-319 | the in-place flag change is the function, with both refusals |
| `ConfigAlgebra.BuildMeaning` | custom_components/telink_manager/pvvx_struct.py:203-305 | a rebuild succeeds exactly when the blob is long enough and every requested value of the layout fits; then every requested slot holds its code and every other slot and protected bit is the old one; an error names a requested field that does not fit |
| `ConfigAlgebra.RebuiltUnique` | custom_components/telink_manager/pvvx_struct.py:203-305 | only one blob has that meaning, so the meaning is a complete description of the rebuild |
| `ConfigAlgebra.SlotsDetermine` | custom_components/telink_manager/pvvx_struct.py:203-305 | a blob is nothing but its writable slots and its protected bits, on all three layouts |
| `ConfigLaws.BuildBuild` | custom_components/telink_manager/pvvx_struct.py:203-305 | two rebuilds in turn equal one rebuild with the second request laid over the first, for all requests that fit, if and only if the two names of the measure interval do not clash |
| `ConfigLaws.BuildIdempotent` | custom_components/telink_manager/pvvx_struct.py:203-305 | repeating a rebuild changes nothing more |
| `ConfigLaws.BuildCommutesWithCrypto` | custom_components/telink_manager/pvvx_struct.py:203-319 | rebuilding and changing the encryption flag commute |
| `ConfigLaws.CryptoFrame` | custom_components/telink_manager/pvvx_struct.py:308-319 | the flag change touches flg2 bit 3 and nothing else |
| `ConfigLaws.BuildIgnoresHwVer` | custom_components/telink_manager/pvvx_struct.py:203-305 | a rebuild takes no notice of byte 9 and hands it on |
| `ConfigLaws.ParseOfBuild` | custom_components/telink_manager/pvvx_struct.py:140-305 | parsing a rebuilt blob gives each requested field its stored value (offsets to a tenth) and every other field its old one, with the same keys; of flg3_raw the upper nibble is always kept, and the whole byte unless adv_delay_raw is requested |
| `ConfigLaws.StoredIsClose` | custom_components/telink_manager/pvvx_struct.py:246-255 | an offset is stored to the nearest tenth, every other number as it is |
| `ConfigLaws.CodeOfValue` | custom_components/telink_manager/pvvx_struct.py:140-305 | reading a slot and writing the value back reproduces its bits |
| `ConfigLaws.CopyTakesSlots` | custom_components/telink_manager/pvvx_struct.py:140-305 | writing the parsed fields of one blob onto another keeps exactly the other's protected bits and takes every slot whose value is accepted |
| `ConfigLaws.NotCopied` | custom_components/telink_manager/pvvx_struct.py:240-303 | exactly the slot values that such a copy leaves out: zero intervals and LCD refresh, and offsets of -12.8 |
| `ConfigWrite.AsyncWrite` | custom_components/telink_manager/gatt.py:745-802 | the retry loop on a live device is the run function: same device, same sends, same verdict |
| `ConfigWrite.WriteOnConnection` | custom_components/telink_manager/gatt.py:755-794 | one attempt: read, rebuild, write, read back and compare, or raise |
| `ConfigWrite.VerifiesMeansSame` | custom_components/telink_manager/gatt.py:776-779 | the read-back test passes exactly when the configurations are equal but for byte 9 |
| `ConfigWrite.WriteIsAllOrNothing` | custom_components/telink_manager/gatt.py:745-802 | whatever earlier attempts lost or left behind, the device holds the old configuration or the whole new one; an ok verdict means the new one; a refused value means nothing was sent |
| `ConfigWrite.DoneWriteReadsBack` | custom_components/telink_manager/gatt.py:745-802 | after an ok write every requested field of the layout parses as its stored value and every other field but hw_ver as before the call; flg3_raw is the next row |
| `ConfigWrite.DoneWriteKeepsFlagByte` | custom_components/telink_manager/gatt.py:745-802 | after an ok write flg3_raw keeps its upper nibble, and all of it unless adv_delay_raw was requested |
| `ConfigWrite.VerifiedRequest` | custom_components/telink_manager/gatt.py:745-802 | even on a device that adjusts what it is sent, an ok verdict means every requested slot holds the requested code |
| `ConfigWrite.RewriteFinishes` | custom_components/telink_manager/gatt.py:745-802 | from whatever an interrupted write left, one undisturbed write with the same changes is reported done and leaves the new configuration exactly when every value fits, and is refused otherwise |
| `StableRead.ReadRaw` | custom_components/telink_manager/gatt.py:458-476 | a configuration is believed if and only if a good read repeats the last good one before it within six reads, and it is the first to do so |
| `StableRead.GarbageInBetweenIsSkipped` | custom_components/telink_manager/gatt.py:465-474 | two equal reads with an answer that is no configuration between them are believed |
| `Thermometers.KeyReplyIsTruthful` | custom_components/telink_manager/gatt.py:1149-1153 | a 0x18 reply decodes to the device's own key exactly when it arrives in full |
| `Thermometers.Thermometer.WriteKey` | custom_components/telink_manager/gatt.py:1259-1261 | a key write may land or not, and its echo is what the device then holds |
| `Thermometers.Thermometer.WriteConfig` | custom_components/telink_manager/gatt.py:1264-1267 | a configuration write may be stored, adjusted or lost |
| `Thermometers.SetFlag` | custom_components/telink_manager/pvvx_struct.py:308-319 | setting the flag leaves a twin of the blob that has the flag, and changes nothing if it already stands |
| `Thermometers.TwinsWithSameFlag` | custom_components/telink_manager/pvvx_struct.py:308-319 | blobs equal but for the flag bit, with the same flag, are equal |
| `Encryption.FlagAndReadBack` | custom_components/telink_manager/gatt.py:1263-1292 | the second half of an attempt on a live device is its function: write the flag if it has to change, read back, judge |
| `Encryption.OnConnection` | custom_components/telink_manager/gatt.py:1229-1292 | the work on one connection is its function, including every early return and every raise |
| `Encryption.WithRetries` | custom_components/telink_manager/gatt.py:872-894 | the retry wrapper around it is the run function |
| `Encryption.CallOn` | custom_components/telink_manager/gatt.py:1206-1294 | the whole call, from the key text on |
| `EncryptionLaws.OnlyOneAttemptSends` | custom_components/telink_manager/gatt.py:1239-1275 | on every link and for any number of retries only the last attempt can have sent anything, so a call sends at most one key and at most one configuration |
| `EncryptionLaws.VerdictIsExact` | custom_components/telink_manager/gatt.py:1229-1302 | ok means the device has the flag and the reported key; maybe_changed means something was sent and reports the key that was; anything else means nothing was sent and the device is as it was; "did not keep the setting" never arises |
| `EncryptionLaws.NoKeyIsLost` | custom_components/telink_manager/gatt.py:1242-1263 | after every run the device's key is the one it had or the one in the result |
| `EncryptionLaws.EveryStateIsSafe` | custom_components/telink_manager/gatt.py:1236-1269 | in every intermediate state the blob is the initial one but for the flag, and a device newly encrypting does so under the reported key |
| `EncryptionLaws.FlagFollowsEcho` | custom_components/telink_manager/gatt.py:1259-1267 | a configuration with the flag newly on is sent only after the device echoed exactly that key |
| `EncryptionLaws.RerunFinishes` | custom_components/telink_manager/gatt.py:1253-1276 | from whatever an interrupted call left, one undisturbed rerun ends ok, keeps the key of an encrypting device, and a second changes nothing |
| `EncryptionLaws.RerunKeepsReportedKey` | custom_components/telink_manager/gatt.py:1253-1276 | after an unsure enable that switched the flag on, an undisturbed rerun ends with the key already reported |
| `Bytes.UpperTwice` | custom_components/telink_manager/encryption.py:38-43 | upper case is a normal form of an address |
| `BthomeSync.HomeAssistant.BthomeEntry` | custom_components/telink_manager/encryption.py:38-43 | the loop over the entries finds the first one that matches and is not ignored |
| `BthomeSync.HomeAssistant.Store` | custom_components/telink_manager/encryption.py:78-88 | the part of a sync before its first await: no entry, a refused update, or the key stored |
| `BthomeSync.HomeAssistant.End` | custom_components/telink_manager/encryption.py:89-102 | the rest: wait, reload, delete the issue, and the status |
| `BthomeSync.HomeAssistant.SyncBthome` | custom_components/telink_manager/encryption.py:72-102 | the sync in place: the store, which awaits nothing, then wait, reload and issue deletion, with every failure |
| `BthomeSync.SyncTouchesOneKey` | custom_components/telink_manager/encryption.py:72-102 | whatever fails, only the bind key of this device's own entry can change, and only in the stretch before the first await; "updated" means it held exactly the key asked for, or none, from then on |
| `BthomeSync.RemovalWaitsBeforeReload` | custom_components/telink_manager/encryption.py:51-102 | a whole sync that removes a key reloads only the device's own entry, with the key already out of it, and right after the wait for a plain advert if the newest one held is encrypted; storing the entry without the key comes first |
| `Agreement.AsyncSetEncryption` | custom_components/telink_manager/gatt.py:1206-1302 | device phase, store and report of one call, on a live device and live entries |
| `Agreement.CallIsLocal` | custom_components/telink_manager/gatt.py:1294-1302 | what a call changes, it changes as it gives up its device's lock: one device and the key of one entry, the entry only after a confirming read-back of a device that sends BTHome |
| `Agreement.UpdatedMeansAgreement` | custom_components/telink_manager/gatt.py:1294-1302 | a call that says "updated" put device and entry in agreement as it gave up the lock |
| `Agreement.AgreementSurvivesOtherRuns` | custom_components/telink_manager/gatt.py:1294-1302 | agreement lasts through every interleaving of other calls and commands until the device's lock is next given up |
| `Agreement.LatestUpdateAgrees` | custom_components/telink_manager/gatt.py:1206-1302 | over every interleaving of calls, also of calls that overlap on one device, and of any other commands, a call that says "updated" leaves the entry with exactly the device's key if it encrypts and none if it does not, until the device's lock is next given up by any of them |
| `Restore.RestoreOnConnection` | custom_components/telink_manager/gatt.py:1414-1482 | one restore attempt on a live device is its function, part by part, including what a raise leaves done |
| `Restore.RestoreWithRetries` | custom_components/telink_manager/gatt.py:1380-1484 | the retried restore is the run function |
| `RestoreLaws.RestoreIsConsiderate` | custom_components/telink_manager/gatt.py:1380-1484 | for every snapshot, parts, link and retry: the target's flag is unchanged through every intermediate state, a clone sends no key, a repeater is sent nothing, whichever firmware the cached service table shows; what is sent is all that changes the target but for byte 9 |
| `RestoreLaws.AttemptReportsExactly` | custom_components/telink_manager/gatt.py:1431-1482 | an attempt that got through reports each part it was asked for and no other: the configuration as compared with the device up to byte 9, the rest as the device answered, a clone's key as refused |
| `RestoreLaws.OkRestoreHoldsConfig` | custom_components/telink_manager/gatt.py:1380-1484 | a restore reported ok holds the snapshot's configuration under the target's own flag, however often it was retried |
| `RestoreLaws.LostKeyReportedAsRestored` | custom_components/telink_manager/gatt.py:1460-1469 | a restored key is not read back: for every order with a key of its own, a lost key write answered by anything but silence is reported as restored |
| `RestoreLaws.RestoredKeyIsHeldIff` | custom_components/telink_manager/gatt.py:1460-1469 | over all links up to the two attempts, a key reported as restored is on the device if and only if the target is a repeater, no key is asked for, it is a clone's or none, or the device holds it already |
| `RestoreAgreement.RestoreKeepsAgreementIff` | custom_components/telink_manager/gatt.py:1460-1469 | over all links up to the two attempts, a restore leaves device and BTHome entry in agreement if and only if it does not give an encrypting thermometer another key than its own |
| `RestoreLaws.RepeaterSnapshotIsRefused` | custom_components/telink_manager/gatt.py:1541-1587 | a repeater snapshot aimed at a thermometer sends nothing and is never reported as restored, also through a cached service table that still offers the repeater service |
| `RestoreLaws.UndoIsExact` | custom_components/telink_manager/gatt.py:1422-1441 | the undo always puts back the captured state, byte for byte but for byte 9, which the device rewrites on every connection; that is the state before the restore if and only if no attempt before the last had put the new configuration on the device (or it changed nothing); always, if one attempt was enough |
| `RestoreLaws.RetriedRestoreCapturesItself` | custom_components/telink_manager/gatt.py:1422-1441 | on every thermometer, with whatever else is restored, a restore of a configuration that differs in more than byte 9, whose first link drops after the write, captures its own work as the backup |
| `RestoreLaws.UndoIsSafeIff` | custom_components/telink_manager/gatt.py:1422-1441 | over all links up to the two attempts, every captured state undoes its restore if and only if the target is a repeater, no configuration is restored, or the snapshot's under the target's own flag is what the target holds, byte 9 apart |
| `RestoreLaws.CutTwice` | custom_components/telink_manager/gatt.py:1422-1441 | both attempts cut off after the write: the target is changed, the call ends unreachable and hands over no backup |
| `RestoreLaws.OldConfigIsKeptIff` | custom_components/telink_manager/gatt.py:1422-1441 | over all runs up to the two attempts, captured or not, the configuration the target had is still on it or in the backup handed over, byte 9 apart, if and only if the restore cannot change it: the target is a repeater, no configuration is restored, or it is the one held |
| `BulkJob.GroupByProxy` | custom_components/telink_manager/bulk.py:160-167 | filling the dictionary gives each proxy its devices in entry order, and counts them |
| `BulkJob.Bulk.Start` | custom_components/telink_manager/bulk.py:152-187 | a job starts exactly when none is active and a device is named; the record is then the initial one, else untouched |
| `BulkJob.Bulk.BeginDevice` | custom_components/telink_manager/bulk.py:123-127 | a worker's step to its next device |
| `BulkJob.Bulk.EndDevice` | custom_components/telink_manager/bulk.py:128-135 | a worker's bookkeeping after a device |
| `BulkJob.Bulk.LeaveLoop` | custom_components/telink_manager/bulk.py:123-125 | a worker ends at the end of its list or once cancelled |
| `BulkJob.Bulk.FinishJob` | custom_components/telink_manager/bulk.py:137-149 | the result is taken from the record and the job goes inactive |
| `BulkJob.Bulk.CancelJob` | custom_components/telink_manager/bulk.py:50-54 | only an active job can be cancelled |
| `BulkJob.Bulk.DismissResult` | custom_components/telink_manager/bulk.py:57-62 | only a finished job's result can be dismissed |
| `BulkLaws.GroupsAddUp` | custom_components/telink_manager/bulk.py:160-167 | grouping loses no device and invents none; the proxies are distinct |
| `BulkLaws.CountsAddUp` | custom_components/telink_manager/bulk.py:121-149 | in every interleaving done == ok + fail, fail == the number of failures, done + in hand + untouched == total; a job that ended uncancelled dealt with every device and reports just that |
| `BulkLaws.NothingStartsAfterCancel` | custom_components/telink_manager/bulk.py:123-125 | once cancelled or over, no further device is started |
| `BulkLaws.EachWorkerInOrder` | custom_components/telink_manager/bulk.py:121-135 | a worker takes its own devices one at a time and in order, whatever the interleaving |
| `BulkLaws.RunsAreBounded` | custom_components/telink_manager/bulk.py:121-149 | no run goes on for ever: total - done bounds it |
| `BulkLaws.ActiveJobsCanStep` | custom_components/telink_manager/bulk.py:121-149 | a job that is not over can always take a step |
| `BulkLaws.RunningRun` | custom_components/telink_manager/bulk.py:126-128 | with distinct devices, `running` is exactly the devices in hand |
| `BulkEncryption.UnfollowedKeyIsListed` | custom_components/telink_manager/bulk.py:93-118 | as a call is done, a key it reports is listed for the user unless it says "updated" |
| `BulkEncryption.UnfollowedKeysAreListed` | custom_components/telink_manager/bulk.py:93-149 | over a whole job, in every interleaving, every key in the outcome of a call whose entry was not updated stands in the final list under its device, and in the result |
| `BulkEncryption.NoKeyIsLostInBulk` | custom_components/telink_manager/bulk.py:93-187 | over a whole job, in every interleaving and for any list of devices, also with one device under several proxies: each device's key is its old one, or listed or about to be, or in its entry; a disable changes none |
| `DeviceLocks.LockTable.DevLock` | custom_components/telink_manager/gatt.py:46-55 | one lock for each address, made once, the same for upper and lower case, never replaced |
| `DeviceLocks.OneLinkPerDevice` | custom_components/telink_manager/gatt.py:46-55 | over any interleaving at most one link is open to a device, however its address is written, and it belongs to the holder of its lock; that a path takes no second lock is read off the call paths into the phases of a task, and restated |
| `DeviceLocks.NoDeadlock` | custom_components/telink_manager/gatt.py:826-894 | whatever has happened, if work is left some task can take a step |
| `DeviceLocks.RunsAreBounded` | custom_components/telink_manager/gatt.py:872-894 | every run ends, within a bound known from the calls |
| `DeviceLocks.NobodyOvertakes` | custom_components/telink_manager/gatt.py:829-830 | given that the lock is granted in the order of asking, as asyncio.Lock does: over every run, until a waiting task acquires the lock, those before it are the last of those who were, in the same order, and no one else |
| `RepeaterConfig.WindowsAreRounded` | custom_components/telink_manager/blethr.py:259-260 | windows are converted between ticks and milliseconds by rounding to nearest, ties to even, in both directions |
| `RepeaterConfig.TicksComeBack` | custom_components/telink_manager/blethr.py:259-260 | a stored window shown in milliseconds and written back is the same window |
| `RepeaterConfig.StoredWindow` | custom_components/telink_manager/blethr.py:367-371 | what is stored is within 4 µs of what was asked, and order is kept |
| `RepeaterConfig.WindowInTicks` | custom_components/telink_manager/blethr.py:367-371 | every accepted window is stored as 625 to 6250 ticks, and what is stored is accepted again |
| `RepeaterConfig.BuildMeaning` | custom_components/telink_manager/blethr.py:340-378 | what a built payload says: the merged values, windows to the tick; it is always legal, and a power being set lies in 130..191 |
| `RepeaterConfig.BuildThenBuild` | custom_components/telink_manager/blethr.py:340-378 | writing one set of changes and then another is writing both at once: the same payload or the same refusal |
| `RepeaterConfig.BuildTwice` | custom_components/telink_manager/blethr.py:340-378 | rebuilding what a write left behind, with the same changes, gives the same payload |
| `RepeaterConfig.BuildOfParse` | custom_components/telink_manager/blethr.py:241-378 | reading and writing back is the identity on exactly the legal payloads, whatever their radio power |
| `RepeaterConfig.OwnConfigCanBeRestored` | custom_components/telink_manager/blethr.py:357-361 | a saved configuration can be written again exactly when it is legal and its power lies in the offered band |
| `RepeaterAddress.MacComesBack` | custom_components/telink_manager/blethr.py:213-217 | an address read and written back sends the same six bytes |
| `RepeaterAddress.ConfirmedIffCanonical` | custom_components/telink_manager/blethr.py:332-337 | an address is confirmed, once the device holds it, if and only if it was given as six hex pairs with single colons; other accepted forms are written but never confirmed |
| `RepeaterAddress.SingleDigitsAreNotConfirmed` | custom_components/telink_manager/blethr.py:332-337 | every address given with one digit a byte is accepted, sends those six bytes and reads back as another text |
| `RepeaterWrite.Session.Write` | custom_components/telink_manager/blethr.py:178-210 | a command goes out again only after silence and only while nothing in the session has answered; what it leaves and what it reports |
| `RepeaterWrite.ApplyOn` | custom_components/telink_manager/blethr.py:413-433 | configuration, source and key are sent in order, each read back, until something raises |
| `RepeaterWrite.JobOnConnection` | custom_components/telink_manager/gatt.py:1597-1629 | one attempt of a change or a restore on a live repeater is its function |
| `RepeaterWrite.JobWithRetries` | custom_components/telink_manager/gatt.py:1541-1587 | the retry wrapper, with its one rediscovery, is the run function |
| `RepeaterWrite.AsyncBlethrWrite` | custom_components/telink_manager/gatt.py:1590-1631 | the whole change, with the refusal to let a repeater repeat itself |
| `RepeaterLaws.RunReachesTheEnd` | custom_components/telink_manager/gatt.py:1541-1631 | on every honest link, each of configuration, source and key is as it was or as ordered, and a job reported as applied has all three, with exactly the parts that can be confirmed |
| `RepeaterLaws.RetriedIsUninterrupted` | custom_components/telink_manager/gatt.py:1541-1631 | a change retried after any partial application ends with the same configuration, source and key, and the same verdict, as an uninterrupted one |
| `RepeaterLaws.RefusedMeansUntouched` | custom_components/telink_manager/blethr.py:391-411 | if any of the payloads is refused, nothing is sent on any link in any attempt |
| `RepeaterLaws.RestoreReachesTheEnd` | custom_components/telink_manager/gatt.py:1339-1377 | a restored snapshot, on any links: nothing is sent if its text is no configuration or a payload is refused, and on honest links each part is as it was or as in the snapshot, all of them once it is reported as applied |
| `RepeaterLaws.ReportsAreExact` | custom_components/telink_manager/blethr.py:414-433 | each part is reported as the device holds it at the end, whatever it made of what it was sent |
| `RepeaterLaws.OkMeansFulfilled` | custom_components/telink_manager/gatt.py:1618-1629 | a job reported ok is fulfilled: every requested setting reads as its stored value, the source and key as asked |
| `RepeaterLaws.NothingWrittenAfterAWrite` | custom_components/telink_manager/gatt.py:1601-1613 | a concrete two-attempt run in which "nothing written" is reported after a write reached the device |
| `RepeaterLaws.NothingWrittenIsTrueIff` | custom_components/telink_manager/gatt.py:1601-1613 | "nothing written" can be relied on, over all runs of up to three attempts, if and only if nothing of the order can be sent anyway |
| `RepeaterLaws.OwnSnapshotComesBack` | custom_components/telink_manager/gatt.py:1339-1377 | a repeater's own snapshot brings it back from whatever it was changed to, exactly when its configuration is legal and its power in the offered band |
| `Snapshots.SnapshotStore.AsyncSave` | custom_components/telink_manager/backups.py:237-258 | one save in place: refuse, renew the newest row, or append and trim; what it reports |
| `Snapshots.SnapshotStore.LastFields` | custom_components/telink_manager/backups.py:158-173 | the loop from the newest row back is the specification function |
| `Snapshots.NewestReadableIsNewest` | custom_components/telink_manager/backups.py:158-173 | it gives a readable row that no readable row follows, and nothing only if none can be read |
| `Snapshots.LastFieldsAreSettingsIff` | custom_components/telink_manager/backups.py:158-173 | the result is settings or nothing if and only if the newest thermometer snapshot with a hex text has at least eleven bytes |
| `Snapshots.ShortSnapshotHidesSettings` | custom_components/telink_manager/backups.py:168-173 | a one-byte snapshot after a whole one hides its settings behind the parser's error |
| `Snapshots.HistoryIsCollapsed` | custom_components/telink_manager/backups.py:237-258 | after any run of saves into an empty store, a history is the last 20 of its device's accepted saves with adjacent equal ones collapsed to their first row, last seen at the time of their last; other devices do not matter |
| `Snapshots.BlockIsMaximal` | custom_components/telink_manager/backups.py:247-251 | the blocks hold equal signatures only and end where the next differs |
| `Snapshots.NeighboursDiffer` | custom_components/telink_manager/backups.py:247-251 | neighbouring rows always differ |
| `Snapshots.VerifiedMeansSameSignature` | custom_components/telink_manager/backups.py:106-113 | a write is confirmed if and only if target and read-back have the same normal text in the signature |
| `Adverts.BthomeObjects` | custom_components/telink_manager/adv.py:61-80 | the index loop yields the objects of the specification walk |
| `Adverts.WalkIsExact` | custom_components/telink_manager/adv.py:61-80 | those are exactly the well-formed objects that, written out, begin the data and leave something the walk must stop at |
| `Adverts.WalkOfEncode` | custom_components/telink_manager/adv.py:61-80 | an encoded object list is read back, whatever unreadable bytes follow |
| `Adverts.AppendingExtends` | custom_components/telink_manager/adv.py:61-80 | bytes added to a non-empty payload only extend what is yielded |
| `Adverts.PacketId` | custom_components/telink_manager/adv.py:108-118 | the first packet counter, if there is one |
| `Adverts.IsRelaying` | custom_components/telink_manager/adv.py:121-137 | true if and only if a temperature is among the readable objects; none if and only if there are none |
| `Adverts.RelayingSurvivesMore` | custom_components/telink_manager/adv.py:121-137 | an advertisement that relays still does with anything added behind it |
| `Adverts.CounterMemory.StaleSeconds` | custom_components/telink_manager/adv.py:140-153 | one sighting in place: what is remembered and what is returned |
| `Adverts.MemoryIsBlockStart` | custom_components/telink_manager/adv.py:140-153 | after any run of sightings, what is remembered of a device is its counter and the first sighting of its current block of equal counters |
| `Adverts.StaleIsTimeInBlock` | custom_components/telink_manager/adv.py:140-153 | a call returns the time since the start of the block it belongs to, in tenths of a second, whatever other devices did |

## Left out

- ConfigBlob.Build: offsets finer than a hundredth, fractional numbers for whole-number fields, and values of None are not modelled.
- ConfigBlob.Parse: the derived display values (seconds, milliseconds, names of hardware and advertising types) are left out; they follow from the raw fields.
- Encryption.SetEncryption: byte 9 is taken not to change during an encryption call; `ConfigWrite` lets it change on every connection. `CancelledError` and a device that adjusts the configuration it is sent are not modelled here.
- Encryption.TryOnce: the service table is taken to be the device's own; through one cached from other firmware every command would fail before it is sent, as in `Restore.ThroughStaleTable`.
- Agreement.LatestUpdateAgrees: commands other than encryption calls may leave a device in any state and are not described further; what a restore does to the agreement is `RestoreAgreement.RestoreKeepsAgreementIff`.
- EncryptionLaws.RerunFinishes: speaks of thermometers whose firmware has encrypted advertising and of key texts that parse; any other call is refused before anything is sent.
- ConfigWrite.WriteIsAllOrNothing: for a device that stores what it is sent or loses it; a device that adjusts values is covered by `ConfigWrite.VerifiedRequest`.
- RepeaterConfig.BuildCfg: windows are whole microseconds, so window values finer than that, and the binary rounding of a window that lies exactly between two ticks, are not modelled.
- RepeaterAddress.MacToLe: prefixes, signs, underscores and inner spaces that Python's `int(text, 16)` also accepts are not modelled.
- RepeaterLaws.RetriedIsUninterrupted: for a repeater that keeps what it is sent and answers a write only once it has it; what is reported on any other is `RepeaterLaws.ReportsAreExact`.
- RepeaterWrite.Prepare: `device_time` is not modelled; it is taken again on each attempt and not checked up front.
- Restore.RestoreSnapshot: the contents of the device name, comfort zone and sensor calibration are not modelled, only that they are sent and whether they were confirmed; a repeater snapshot onto a repeater is `RepeaterWrite.RestoreRepeater`.
- Restore.ThroughStaleTable: a handle of a cached table that the device no longer has is taken to reach nothing, as the comment at gatt.py:657-660 describes; a handle that happens to belong to something else is not modelled.
- BulkJob.Apply: workers are taken not to raise; the save of the name cache (bulk.py:69) lies outside the try. The counts of backups and the read job's contents are left out.
- BulkLaws.RunningRun: for distinct devices; a device listed twice leaves `running` when the first of the two is done.
- BulkEncryption.NoKeyIsLostInBulk: speaks of the job's own record, which a finished job keeps until its result is dismissed or the next job starts; a key that was only listed there has to be taken down before that. the snapshot saved after a success, the manager's own text of an error and other calls running beside the job are not modelled.
- DeviceLocks.OneLinkPerDevice: that a path takes one lock, and gives it up before it takes another, is read off the call paths into the phases of a task rather than derived. `_safe_disconnect` is taken to close the link, and an attempt that fails to open one is taken to leave none open.
- Snapshots.SnapshotStore.AsyncSave: saving to disk is taken to succeed; a signature is the tuple of its fields rather than their JSON text; rows are values, so the caller's own dictionary is not shared with the store. Deleting a row by its id is a plain filter and left out, as are the listings for the panel.
- Snapshots.HistoryIsCollapsed: starts from an empty store, and the firmware byte of a row is taken as given rather than recovered from its version text.
- Adverts.Stale: times finer than a millisecond are not modelled.
- Bytes.Upper: only ASCII letters have an upper case here.
- The panel, WebSocket commands, configuration flow and setup: user interface and glue.
- Bluetooth, asyncio timing, sleeps and Home Assistant's own code: they appear only as what a link or a circumstance decides.
- AES and the choice of a random key: a new key is any key.
- The texts that explain a failure, the tables of hardware names and radio power, coverage and the choice of a proxy, areas and names: easy, or data only.
- Single commands that read or write one setting of a thermometer: they run in the wrapper modelled for encryption and would add only easy members.
