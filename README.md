# EEPROM settings persistence of the Repetier firmware, in Dafny

This project models the settings persistence engine of the RF1000/RF2000
Repetier firmware (`Repetier/Eeprom.cpp`) and proves properties of it.
The firmware keeps its settings in two places: a 2048-byte non-volatile store
and a mirror of the settings in memory.

The store has an integrity byte. It holds the 8-bit sum of every other byte.
The engine:

- writes the mirror to the store (`storeDataIntoEEPROM`,
  `storeExtruderDataIntoEEPROM`, `initializeAllOperatingModes`);
- reads the store back with self-repair (`readDataFromEEPROM`): each field
  that fails a range or sentinel test is fixed in the store, `change` is
  raised, and the checksum is rewritten once at the end;
- decides at boot (`init`) whether to wipe the store and restore the build
  defaults, migrate the stored extruder count between 1 and 2, or just load;
- pokes one typed value at a raw address on request (`update`);
- reads the baud rate early (`initBaudrate`).

Modules, bottom up:

- `Bytes`: byte encoding of the four stored kinds: byte, int16, int32 and
  float. Each is little-endian two's complement, with truncation to the
  width made explicit.
- `ByteStore`: the store as class `Hal` over an `array` of 2048 bytes, with
  a typed read and a typed write.
- `Float32`: float settings as IEEE-754 binary32 bit patterns. The engine
  only ever compares floats, so the module gives their order (NaN is
  unordered) and the literals the guards use.
- `Layout`: the fields and their addresses. The addresses,
  `EEPROM_EXTRUDER_OFFSET`, `EEPROM_EXTRUDER_LENGTH`, the integrity address
  and `EEPROM_OFFSET` are a `Layout` parameter. `ValidLayout` requires every
  field in bounds, fields pairwise disjoint, and the integrity byte apart
  from every field. The module also holds the extruder block arithmetic.
- `Settings`: the memory mirror and the build constants (`Config`), with
  the guards the load applies.
- `Writes`: a field write sequence and its effect on a store image.
- `Checksum`: `computeChecksum`, consistency of the integrity byte, and
  corruption detection.
- `Persist`: what the store, restore, reset and migration operations write.
- `Load`: `readDataFromEEPROM` as a chain of step functions over
  (image, mirror, `change`).
- `Repair`: what each repair rule of the load guarantees.
- `Quiet`: `AllValid`, the conjunction of every load guard on the stored
  image, and what a load does when it holds: no write, and memory takes
  the stored values.
- `RoundTrip`: storing a mirror and loading it again.
- `Outcome`: what a repair leaves after the whole load and after `init`,
  carried through the later steps by frame lemmas.
- `Entry`: `init`, `update` and `initBaudrate` as functions.
- `Engine`: class `Eeprom`, which holds the `Hal`, the mirror and a ghost
  count of checksum writes. Its methods perform the operations with loops
  and field writes. Each is proved against the function above that
  specifies it.

Other modelling choices:

- The build is fixed to one feature configuration: milling mode, heated
  bed and service interval counters on; everything else off.
- The key combination read at boot is a boolean input.

## Model

| member | source | states |
|---|---|---|
| ByteStore.Hal.Read | Repetier/Eeprom.cpp:593-599 | a typed read returns the value of that kind encoded at the address, within the kind's range |
| ByteStore.Hal.Write | Repetier/Eeprom.cpp:24-43 | a typed write changes only bytes [pos, pos + width), and reading the same place and kind returns the written value truncated to the kind |
| Bytes.DecodeEncode | Repetier/Eeprom.cpp:24-43 | decoding the bytes a value was encoded as gives back the value truncated to the kind's width |
| Bytes.WriteAtFacts | Repetier/Eeprom.cpp:24-43 | a write changes exactly its own bytes, holds the encoding there, and reads back as the truncated value |
| Bytes.WriteAtDisjoint | Repetier/Eeprom.cpp:24-43 | a write leaves every read of bytes it does not cover unchanged |
| Bytes.ValueAtZeros | Repetier/Eeprom.cpp:303-305 | zero bytes read as 0 in every kind |
| Layout.Put | Repetier/Eeprom.cpp:317-319 | writing one field changes no byte outside it, not the integrity byte and no other field, and the field reads back the truncated value |
| Layout.ExtruderOffsetStep | Repetier/Eeprom.cpp:1171-1173 | consecutive extruder blocks start exactly EEPROM_EXTRUDER_LENGTH apart |
| Layout.PrefixOfBlock | Repetier/Eeprom.cpp:1419-1426 | an address k bytes into block i (k below the block length, address below 800) is labelled extruder i + 1 |
| Layout.PrefixInBlock | Repetier/Eeprom.cpp:1419-1426 | an address is labelled iff it lies in [EEPROM_EXTRUDER_OFFSET, 800), and a label n means the address lies in block n - 1 |
| Layout.PrefixOfExtruderField | Repetier/Eeprom.cpp:1419-1426 | every field of extruder e's block is labelled e + 1 |
| Float32.Min | Repetier/Eeprom.cpp:727 | the minimum is one of its arguments and, for non-NaN arguments, at most both |
| Float32.LtLeComplement | Repetier/Eeprom.cpp:724 | on non-NaN floats the comparisons the guards use are complementary, as on reals |
| Writes.PutAllFrame | Repetier/Eeprom.cpp:315-522 | a field that no write of a sequence names keeps its value |
| Writes.PutAllWritten | Repetier/Eeprom.cpp:315-522 | a field that a sequence writes, always with the same value v, reads v afterwards |
| Writes.PutAllAppend | Repetier/Eeprom.cpp:315-522 | writing one sequence and then another is writing their concatenation |
| Engine.Eeprom.ComputeChecksum | Repetier/Eeprom.cpp:1398-1417 | the loop's running 8-bit sum equals the sum of all 2048 bytes except the one at EEPROM_OFFSET + EPR_INTEGRITY_BYTE, modulo 256 |
| Checksum.ChecksumIgnoresIntegrity | Repetier/Eeprom.cpp:1404-1406 | with the store at offset 0 the checksum does not depend on the integrity byte, and the image is consistent iff that byte equals the checksum |
| Engine.Eeprom.UpdateChecksum | Repetier/Eeprom.cpp:563-568 | the integrity byte receives the checksum, nothing else changes, and the count of checksum writes goes up by one |
| Checksum.WithChecksumConsistent | Repetier/Eeprom.cpp:563-568 | with the store at offset 0, after updateChecksum the integrity byte equals computeChecksum, and the checksum itself is unchanged |
| Checksum.WithChecksumKeepsFields | Repetier/Eeprom.cpp:563-568 | writing the integrity byte changes no settings field |
| Checksum.SingleByteCorruptionDetected | Repetier/Eeprom.cpp:1058 | with the store at offset 0, in a consistent store, changing any one byte other than the integrity byte to a different value makes the store inconsistent |
| Entry.SingleByteChangeForcesReset | Repetier/Eeprom.cpp:1058-1065 | with the store at offset 0, any single changed byte of a consistent store, the integrity byte included, sets the corruption flag, and init then takes the reset path |
| Engine.Eeprom.Clear | Repetier/Eeprom.cpp:299-313 | after the loop every one of the 2048 addresses holds 0 |
| Checksum.ZeroImageConsistent | Repetier/Eeprom.cpp:299-313 | a wiped store has checksum 0 and is consistent |
| Engine.Eeprom.StoreData | Repetier/Eeprom.cpp:315-522 | the store holds every write of storeDataIntoEEPROM, in order, followed by the checksum (one checksum write) |
| Persist.StoredMagic | Repetier/Eeprom.cpp:317 | after a full store the magic byte holds this build's EEPROM mode |
| Persist.StoredNumExtruders | Repetier/Eeprom.cpp:318 | after a full store the extruder-count byte holds NUM_EXTRUDER |
| Persist.StoredBaudrate | Repetier/Eeprom.cpp:319 | after a full store the baud-rate field holds the mirror's baud rate |
| Persist.StoredVersion | Repetier/Eeprom.cpp:520 | after a full store the version byte holds EEPROM_PROTOCOL_VERSION |
| Persist.StoreExactly | Repetier/Eeprom.cpp:315-522 | a full store writes to each field exactly the value the mirror, the mode and the corruption flag name for it, and nothing to a field it leaves alone |
| Persist.StoredField | Repetier/Eeprom.cpp:315-522 | after a full store each field holds the value written to it, truncated to its kind, or its old value when the store leaves it alone |
| Persist.StoredCounter | Repetier/Eeprom.cpp:415-435 | after a full store a usage counter of the active mode is zero when the store was corrupted, and every other counter (every counter when it was not) keeps its value |
| Persist.CounterWritesFacts | Repetier/Eeprom.cpp:415-435 | the counter writes touch no identity field and write only zeros |
| Engine.Eeprom.StoreExtruderData | Repetier/Eeprom.cpp:526-561 | the store holds the writes of extruder e's block, with no checksum |
| Persist.ExtruderWritesOnlyBlock | Repetier/Eeprom.cpp:526-561 | the writes of extruder e's block name no field outside that block |
| Engine.Eeprom.InitializeAllOperatingModes | Repetier/Eeprom.cpp:570-587 | the inactive mode's three homing feed rates receive their defaults, then the checksum (one checksum write) |
| Persist.InitModesWritesUntouched | Repetier/Eeprom.cpp:570-587 | the inactive mode's homing defaults touch neither an identity field nor a usage counter |
| Persist.ModesKeep | Repetier/Eeprom.cpp:570-587 | a checksum and the homing defaults of a mode leave the identity fields and the counters as they were |
| Engine.Eeprom.RestoreExtruderSettings | Repetier/Eeprom.cpp:57-124 | for an existing extruder e, its mirror entry becomes the build defaults; for any other e nothing changes |
| Engine.Eeprom.RestoreMicroSteps | Repetier/Eeprom.cpp:140-153 | every channel's micro-step mode returns to its initial value; the stored micro-step marker is cleared iff some channel differed |
| Engine.Eeprom.RestoreMotorCurrents | Repetier/Eeprom.cpp:265-269 | the first 3 + NUM_EXTRUDER channels take their normal currents; the others keep theirs |
| Engine.Eeprom.RestoreMotionSettings | Repetier/Eeprom.cpp:128-189 | serial, timeouts, steps, feed rates, micro-steps, homing feed rates of the current mode, jerks, move modes, accelerations, bed and axis lengths take the build defaults |
| Engine.Eeprom.RestoreTailSettings | Repetier/Eeprom.cpp:210-294 | step packing, Z mode, driven motor currents and the Z jog step take the build defaults |
| Engine.Eeprom.RestoreSettings | Repetier/Eeprom.cpp:126-297 | the mirror becomes the build defaults for every present extruder, with baud rate and operating mode as the restore leaves them |
| Persist.RestoreMirror | Repetier/Eeprom.cpp:126-297 | the restored mirror stays well formed, holds the default baud rate and keeps the operating mode |
| Persist.WipedField | Repetier/Eeprom.cpp:1066-1067 | after the wipe and the restore every field reads zero |
| Engine.Eeprom.Reset | Repetier/Eeprom.cpp:1065-1068 | wipe, restore the defaults, store them and initialize the inactive mode |
| Persist.ResetIdentity | Repetier/Eeprom.cpp:1065-1068 | after a reset the store names this build's EEPROM mode, extruder count and protocol version and holds the default baud rate |
| Persist.ResetCounter | Repetier/Eeprom.cpp:1065-1068 | after a reset every usage counter is zero, whether or not the store was corrupted |
| Persist.ResetConsistent | Repetier/Eeprom.cpp:1065-1068 | with the store at offset 0, a reset leaves a consistent store |
| Entry.ResetIsStable | Repetier/Eeprom.cpp:1058-1088 | with the store at offset 0, a store a reset just wrote passes every boot check: the next init without keys neither resets nor migrates |
| Entry.PassesBootChecks | Repetier/Eeprom.cpp:1058-1063 | a consistent store naming this build's EEPROM mode and extruder count triggers no reset and no migration |
| Entry.BaudrateAfterReset | Repetier/Eeprom.cpp:1048-1054 | after a reset the early baud-rate read finds the build's default |
| Engine.Eeprom.BootChecks | Repetier/Eeprom.cpp:1058-1063 | the four boot flags: checksum mismatch, EEPROM-mode mismatch, growth to two extruders, shrink to one |
| Engine.Eeprom.Init | Repetier/Eeprom.cpp:1056-1126 | a reset reason wipes, restores, stores, initializes the modes and returns; otherwise growth or shrink migration, then a full load |
| Entry.InitLeavesStoreConsistent | Repetier/Eeprom.cpp:1056-1126 | with the store at offset 0, init always leaves a consistent store, whichever way it goes |
| Engine.Eeprom.AddExtruderDefaults | Repetier/Eeprom.cpp:1093-1094 | the second extruder's mirror entry becomes its defaults, and its block is stored |
| Engine.Eeprom.WriteMigration | Repetier/Eeprom.cpp:1096-1100 | the print-mode X length is written in memory and store, then the extruder count |
| Engine.Eeprom.AddSecondExtruder | Repetier/Eeprom.cpp:1090-1107 | the growth migration: second block, X length, count, then one checksum |
| Persist.GrowFacts | Repetier/Eeprom.cpp:1090-1107 | after growth the count is NUM_EXTRUDER, the print-mode X length its default, and every field of block 1 the build's default for the second extruder; every other field, and every byte outside block 1, those two fields and the integrity byte (block 0 and the magic byte among them), keeps its value |
| Engine.Eeprom.RemoveSecondExtruder | Repetier/Eeprom.cpp:1109-1122 | the shrink migration: X length, count, then one checksum |
| Persist.MigrationFacts | Repetier/Eeprom.cpp:1109-1122 | the shrink writes change no field but the print-mode X length and the count, which end with this build's values |
| Persist.MigrationWritesEffect | Repetier/Eeprom.cpp:1109-1114 | the shrink writes the X length first and the count second |
| Entry.MigrateSettles | Repetier/Eeprom.cpp:1090-1122 | after the migration a second one would do nothing; the magic byte is kept; with the store at offset 0 a consistent store stays consistent |
| Entry.GrowSettles | Repetier/Eeprom.cpp:1090-1107 | after growth the count is settled, the magic byte is kept, and (offset 0) the store is consistent |
| Entry.ShrinkSettles | Repetier/Eeprom.cpp:1109-1122 | after the shrink the count is settled, the magic byte is kept, and (offset 0) the store is consistent |
| Outcome.MigrateKeeps | Repetier/Eeprom.cpp:1090-1122 | the extruder-count migration writes no field but the count, the print-mode X length and the second block |
| Outcome.InitRepairsAccel | Repetier/Eeprom.cpp:1056-1126 | init without a reset leaves an acceleration stored outside its window as the default, in memory and store, and its load rewrites the checksum |
| Outcome.InitOffsetZ | Repetier/Eeprom.cpp:1056-1126 | init without a reset leaves every extruder's Z offset not positive, in memory and store alike, 0 when the migrated image held it positive, and then its load rewrites the checksum |
| Entry.CountSettled | Repetier/Eeprom.cpp:1062-1063 | a store naming this build's extruder count triggers neither migration |
| Engine.Eeprom.ReadData | Repetier/Eeprom.cpp:589-1046 | store and mirror end as the load specification says: the version read first, every field step with its repairs, then the finish |
| Engine.Eeprom.FinishData | Repetier/Eeprom.cpp:1034-1040 | the checksum is rewritten once iff `change`, and a full store (with its own checksum) follows iff the stored version is not the current one |
| Load.LoadKeepsConsistent | Repetier/Eeprom.cpp:1034-1040 | with the store at offset 0, a load keeps a consistent store consistent: a repair always comes with a checksum |
| Load.FinishConsistent | Repetier/Eeprom.cpp:1034-1040 | with the store at offset 0, from a consistent store, the finish of a load leaves a consistent store when every step wrote only while raising `change` |
| Quiet.LoadFieldsQuiet | Repetier/Eeprom.cpp:593-1013 | from no pending change, the field steps raise `change` iff some load guard fails on the stored image; when none fails they leave the store alone and memory holds the stored values |
| Quiet.QuietLoad | Repetier/Eeprom.cpp:589-1040 | a load of a current-version store writes the checksum once iff some guard fails on the stored image, never otherwise; when every guard holds it leaves the store and `change` alone and memory holds the stored values |
| RoundTrip.QuietMirrorBack | Repetier/Eeprom.cpp:315-522 | the values a guard-passing load takes from a full store of a mirror are that mirror's, apart from the accelerations, milling acceleration and motor currents that the store may leave alone |
| RoundTrip.ReloadedStoresSame | Repetier/Eeprom.cpp:315-522 | the reloaded mirror stores every field exactly as the original did |
| RoundTrip.LoadBack | Repetier/Eeprom.cpp:589-1040 | a load of an image that holds a full store of a mirror and passes every guard writes nothing, keeps `change` down and leaves memory as `Reloaded(m)`: the mirror with the accelerations, milling acceleration and motor currents read from the image, for mirrors meeting `LoadsBack` |
| RoundTrip.StoreThenLoad | Repetier/Eeprom.cpp:315-522 | storing a mirror and loading it again, with every guard passing, writes nothing and gives back every setting the store wrote |
| Outcome.FinishKeeps | Repetier/Eeprom.cpp:1034-1040 | the end of a load keeps a field that already holds what a full store would write, and changes neither memory nor `change` |
| Engine.Eeprom.LoadHeaderData | Repetier/Eeprom.cpp:593-598 | serial, timeouts and steps per mm are read into the mirror without a store write |
| Load.LoadHeader | Repetier/Eeprom.cpp:593-598 | the header step only reads: store and `change` stay as they were |
| Engine.Eeprom.LoadMaxFeedrates | Repetier/Eeprom.cpp:601-612 | the max feed rates start from their defaults; a stored rate above its default is overwritten with it and raises `change`, otherwise it is taken |
| Load.MaxFeedrateAxis | Repetier/Eeprom.cpp:604-611 | one feed-rate check writes the store only when it raises `change`, and never lowers `change` |
| Repair.MaxFeedrateRepairs | Repetier/Eeprom.cpp:605-612 | afterwards the rate in memory does not exceed the limit and the store holds it; a stored rate not above the limit is taken without a write; one above it is written over with the limit and raises `change` |
| Repair.NaNFeedrateTaken | Repetier/Eeprom.cpp:606-611 | a stored NaN max feed rate compares false with the limit, so it is taken into memory without a write |
| Outcome.FeedratesKeep | Repetier/Eeprom.cpp:605-613 | the feed-rate checks write no field but the max feed rates and change nothing else in memory |
| Engine.Eeprom.LoadMiscData | Repetier/Eeprom.cpp:614-631 | Z offset and mode, move modes and flags, and jerks are taken as stored |
| Load.LoadMisc | Repetier/Eeprom.cpp:614-631 | the step only reads: store and `change` stay as they were |
| Engine.Eeprom.LoadAccelData | Repetier/Eeprom.cpp:633-669 | the (travel) accelerations are read, then each axis is checked and repaired |
| Engine.Eeprom.AccelRepair | Repetier/Eeprom.cpp:636-669 | one axis check: out of [min, max] becomes the default in memory and in the store |
| Repair.AccelCheckRepairs | Repetier/Eeprom.cpp:636-669 | an accepted acceleration is left alone; a rejected one becomes the default in memory and store and raises `change`; afterwards it passes the check and the store agrees |
| Repair.AccelCheckKeeps | Repetier/Eeprom.cpp:636-669 | checking one axis leaves another axis's agreement with the store, and its validity, as they were |
| Repair.AccelChecksSettle | Repetier/Eeprom.cpp:636-669 | the three checks of a group, started where memory agrees with the store, leave every axis valid and agreeing |
| Outcome.AxesRepairAccel | Repetier/Eeprom.cpp:593-701 | an acceleration stored outside its window is the default, in memory and store, after the steps before the extruder blocks, with `change` raised |
| Outcome.AccelRepairLasts | Repetier/Eeprom.cpp:589-1040 | an acceleration the load finds outside its window ends the whole load as the default, in memory and store, with `change` raised |
| Outcome.AccelRepairWritesChecksum | Repetier/Eeprom.cpp:1034-1035 | a load that repairs an acceleration rewrites the checksum at least once |
| Repair.AccelGroupRepairs | Repetier/Eeprom.cpp:636-669 | after a group (read, then check X, Y, Z) every axis passes its check and the store holds what memory holds |
| Load.AccelCheck | Repetier/Eeprom.cpp:636-669 | one check writes the store only when it raises `change`, and never lowers `change` |
| Engine.Eeprom.LoadBedData | Repetier/Eeprom.cpp:671-678 | the bed controller is taken as stored, a zero sensor type meaning the default |
| Engine.Eeprom.LoadLengths | Repetier/Eeprom.cpp:681-701 | the current mode's X length, repaired when out of (0, 245]; then Y and Z as stored |
| Repair.XLengthRepairs | Repetier/Eeprom.cpp:685-697 | afterwards the X length lies in (0, 245] in memory and the store holds it; a stored value is taken without a write iff it lies in (0, 245] |
| Engine.Eeprom.LoadExtSteps | Repetier/Eeprom.cpp:707-713 | an extruder's steps per mm below 5540 are taken; otherwise the value in memory is written back |
| Repair.ExtStepsRepairs | Repetier/Eeprom.cpp:707-713 | afterwards the store holds the steps per mm in memory; a stored value below 5540 is taken without a write; any other leaves memory alone, is written over and raises `change` |
| Engine.Eeprom.LoadExtFeedrate | Repetier/Eeprom.cpp:715-721 | a max feed rate in (0, 100) is taken; otherwise the value in memory is written back |
| Repair.ExtFeedrateRepairs | Repetier/Eeprom.cpp:715-721 | afterwards the store holds the feed rate in memory; a stored value in (0, 100) is taken without a write; any other leaves memory alone, is written over and raises `change` |
| Engine.Eeprom.LoadExtStartFeedrate | Repetier/Eeprom.cpp:723-730 | a start feed rate in (0, maxFeedrate] is taken; otherwise min(maxFeedrate, value in memory) is written to memory and store |
| Repair.StartFeedrateRepairs | Repetier/Eeprom.cpp:723-730 | afterwards the store holds the start feed rate in memory; an accepted one is taken without a write; a rejected one becomes min(maxFeedrate, old value) and raises `change` |
| Engine.Eeprom.LoadExtAccel | Repetier/Eeprom.cpp:732-738 | an acceleration in (0, 10000) is taken; otherwise the value in memory is written back |
| Repair.ExtAccelRepairs | Repetier/Eeprom.cpp:732-738 | afterwards the store holds the acceleration in memory; a stored value in (0, 10000) is taken without a write; any other leaves memory alone, is written over and raises `change` |
| Engine.Eeprom.LoadExtDrive | Repetier/Eeprom.cpp:740-760 | a sentinel drive pair (40,40) or (0,0) is replaced by the defaults, in memory and store |
| Repair.DriveRepairs | Repetier/Eeprom.cpp:742-760 | afterwards the pair in memory is no sentinel and the store holds it; a stored pair that is no sentinel is taken without a write |
| Engine.Eeprom.LoadExtGains | Repetier/Eeprom.cpp:761-763 | the PID gains are taken as stored |
| Engine.Eeprom.LoadExtPidMax | Repetier/Eeprom.cpp:764-769 | a zero PID maximum is replaced in the store by the value in memory |
| Repair.ExtPidMaxRepairs | Repetier/Eeprom.cpp:764-769 | afterwards the store holds the PID maximum in memory; a positive stored value is taken without a write; zero is written over with memory's value and raises `change` |
| Engine.Eeprom.LoadExtSensor | Repetier/Eeprom.cpp:771-774 | a sensor type in 1..100 is taken; any other is ignored without a repair |
| Load.ReadOffsets | Repetier/Eeprom.cpp:776-778 | the three offsets are read into memory; the store and `change` stay as they were |
| Load.OffsetZCheck | Repetier/Eeprom.cpp:779-783 | the Z offset check writes the store only when it raises `change`, and never lowers `change` |
| Engine.Eeprom.ReadExtOffsets | Repetier/Eeprom.cpp:776-778 | the X, Y and Z offsets in memory become the stored ones; nothing is written |
| Engine.Eeprom.OffsetZRepair | Repetier/Eeprom.cpp:779-783 | a positive Z offset becomes 0 in memory and in the store, and raises `change` |
| Engine.Eeprom.LoadExtOffsets | Repetier/Eeprom.cpp:776-783 | offsets are taken as stored; a positive Z offset becomes 0 in memory and store |
| Repair.OffsetZRepairs | Repetier/Eeprom.cpp:779-783 | afterwards the Z offset is not positive and the store holds it; a stored offset that is not positive is taken without a write |
| Outcome.ExtrudersOffsetZ | Repetier/Eeprom.cpp:704-799 | after the blocks of extruders 0 .. n - 1 each one's Z offset is not positive and the store holds it, and a positive stored one is 0 with `change` raised |
| Outcome.OffsetZLasts | Repetier/Eeprom.cpp:589-1040 | after the whole load every extruder's Z offset is not positive, in memory and store alike; a positive stored one ends as 0 with `change` raised |
| Outcome.OffsetZRepairWritesChecksum | Repetier/Eeprom.cpp:1034-1035 | a load that finds a positive Z offset rewrites the checksum at least once |
| Engine.Eeprom.LoadExtCooler | Repetier/Eeprom.cpp:797-798 | the cooler speed is read only from store version 2 on |
| Engine.Eeprom.LoadExtMotion | Repetier/Eeprom.cpp:707-738 | an extruder's motion limits: steps, feed rate, start feed rate, acceleration, in that order |
| Engine.Eeprom.LoadExtHeater | Repetier/Eeprom.cpp:740-798 | an extruder's drive limits, gains, PID maximum, sensor, offsets and cooler, in that order |
| Engine.Eeprom.LoadExtruders | Repetier/Eeprom.cpp:704-799 | the loop loads the blocks of extruders 0 .. NUM_EXTRUDER - 1 in order |
| Outcome.ExtrudersKeep | Repetier/Eeprom.cpp:704-799 | the blocks of extruders 0 .. n - 1 write no field outside those blocks and change nothing in memory but the extruders |
| Engine.Eeprom.LoadHoming | Repetier/Eeprom.cpp:840-871 | the stored mode (anything but the mill code means printing) with its homing defaults; a stored homing rate above the max feed rate is overwritten with the default and raises `change` |
| Load.HomingAxis | Repetier/Eeprom.cpp:858-870 | one homing check writes the store only when it raises `change`, and never lowers `change` |
| Repair.HomingRepairs | Repetier/Eeprom.cpp:858-870 | afterwards the store holds the homing rate in memory, which stays within the max feed rate when the default is; a stored rate not above it is taken without a write; one above it is written over with the value in memory, the mode's default, and raises `change` |
| Engine.Eeprom.LoadManualStepsData | Repetier/Eeprom.cpp:880 | the Z jog step is the stored unsigned value constrained to [1, largest table entry] |
| Load.Constrain | Repetier/Eeprom.cpp:880 | `constrain` returns x, lo or hi; within [lo, hi] when lo <= hi; x itself when x already lies there |
| Engine.Eeprom.LoadMillAccelData | Repetier/Eeprom.cpp:927-933 | a milling acceleration that is not positive becomes the default in memory and store |
| Load.LoadMillAccel | Repetier/Eeprom.cpp:927-933 | the step writes the store only when it raises `change`, and never lowers `change` |
| Repair.MillAccelRepairs | Repetier/Eeprom.cpp:927-933 | afterwards the milling acceleration is positive and the store holds it; a positive stored value is taken without a write; any other becomes the default in memory and store and raises `change` |
| Engine.Eeprom.LoadMotorCurrents | Repetier/Eeprom.cpp:976-988 | the loop over the driver channels: a current out of range rewrites only the stored byte |
| Repair.MotorCurrentRepairs | Repetier/Eeprom.cpp:979-988 | afterwards the stored current passes the check; an accepted one is taken into memory without a write; a rejected one is replaced in the store only by the normal current, memory unchanged, `change` raised |
| Engine.Eeprom.LoadStepPackingData | Repetier/Eeprom.cpp:1007-1013 | a zero step-packing interval becomes the default in memory and store; otherwise it is taken, constrained |
| Load.LoadStepPacking | Repetier/Eeprom.cpp:1007-1013 | the step writes the store only when it raises `change`, and never lowers `change` |
| Repair.StepPackingRepairs | Repetier/Eeprom.cpp:1007-1013 | afterwards the interval lies in [min, max]; a nonzero stored value is constrained and taken without a write; zero becomes the default in memory and store and raises `change` |
| Outcome.RestKeeps | Repetier/Eeprom.cpp:840-1013 | the steps after the extruder blocks write only their own fields and change neither the accelerations nor the extruders in memory |
| Engine.Eeprom.LoadAxesData | Repetier/Eeprom.cpp:593-701 | the fields before the extruder blocks, in source order |
| Engine.Eeprom.LoadRestData | Repetier/Eeprom.cpp:840-1013 | the fields after the extruder blocks, in source order |
| Engine.Eeprom.LoadFieldsData | Repetier/Eeprom.cpp:593-1013 | every field step of the load, in order |
| Load.LoadFields | Repetier/Eeprom.cpp:593-1013 | the field steps together write the store only when they raise `change`, and never lower it |
| Engine.Eeprom.Update | Repetier/Eeprom.cpp:20-55 | the requested typed write at the raw address, the checksum, then a full load |
| Entry.Requested | Repetier/Eeprom.cpp:22-44 | T 0, 1, 2 write S as a byte, int16 or int32 and T 3 writes X as a float, at address P; nothing is written without T and P, without the value the type needs, or for another T |
| Entry.UpdatePokes | Repetier/Eeprom.cpp:20-47 | after the poke and the checksum, the value reads back unless it covered the integrity byte; no other byte changes; with the store at offset 0 the image is consistent |
| Engine.Eeprom.InitBaudrate | Repetier/Eeprom.cpp:1048-1054 | the stored baud rate is taken iff the magic byte names this build's EEPROM mode |

## Left out

- Floating-point arithmetic: the `lroundf` jog steps of X, Y and E, the Z
  compensation steps, `g_staticZSteps`, `advanceL` snapping and distance
  accumulation. Floats are bit patterns that are only compared. The restore
  sets the Z jog step to a build constant.
- Feature blocks this build switches off: ZOS points, caliper, fan control,
  emergency pause and stop, configurable miller type, micro-step loading
  (lines 989-1004), the Z-scan start repair (lines 966-974), beeper, RGB
  lights, FET outputs, sensible pressure, wobble, and digit flow and Z
  compensation.
- The periodic-actions yield inside the wipe and checksum loops. It is
  timing-driven and does not touch the store.
- Driver and peripheral side effects (`drv8711*`, `setMotorCurrent`,
  `selectExtruderById`, `initHeatedBed`, `updateDerivedParameter`,
  `adjustFan*`), all serial and display output (`writeSettings`,
  `showInformation`, `Com::print*`), and `updatePrinterUsage`, which depends
  on the wall clock.
- The HAL byte primitives are not part of this model. Their encoding is
  assumed little-endian two's complement.
- The consistency lemmas (`Checksum.WithChecksumConsistent`,
  `Checksum.ChecksumIgnoresIntegrity`,
  `Checksum.SingleByteCorruptionDetected`, `Persist.ResetConsistent`,
  `Load.LoadKeepsConsistent`, `Load.FinishConsistent`,
  `Entry.SingleByteChangeForcesReset`,
  `Entry.ResetIsStable`, `Entry.InitLeavesStoreConsistent`) assume
  `EEPROM_OFFSET == 0`. The scan
  skips address `EEPROM_OFFSET + EPR_INTEGRITY_BYTE`, while `updateChecksum`
  writes address `EPR_INTEGRITY_BYTE`.
- Engine.Eeprom.Update: requires that the requested write lies inside the
  2048-byte store. The firmware passes the raw address P on unchecked.
- Engine.Eeprom.ReadData: does not state how many checksum writes the load
  makes. `Engine.Eeprom.FinishData` and `Load.LoadChecksumWrites` do.
- RoundTrip.StoreThenLoad, RoundTrip.LoadBack: hold for mirrors whose Z step size, step
  packing interval and bed sensor type already lie where the load's
  `constrain` and zero-default leave them (`LoadsBack`). The accelerations
  of the other mode, the milling acceleration outside milling mode and the
  motor currents the store does not write come back from the image, not
  from the mirror (`Reloaded`).
- Outcome.InitRepairsAccel, Outcome.InitOffsetZ: cover init without a
  reset. The Z-offset claim is about the image after any migration, which
  is the image the load reads.
- Repair.AccelGroupRepairs, Repair.XLengthRepairs, Repair.DriveRepairs,
  Repair.MotorCurrentRepairs, Repair.MillAccelRepairs,
  Repair.StepPackingRepairs: assume that the build defaults pass their own
  guards (`DefaultsValid`).
- Engine.Eeprom.Init: follows the code, which returns after every reset,
  not only after a wrong EEPROM mode. Because the wipe comes before the
  store, the usage counters end at zero after any reset, not only a
  corrupted one (`Persist.ResetCounter`).
