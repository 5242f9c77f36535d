# Queue configuration of Hazelcast, modelled in Dafny

This project models `com.hazelcast.config.QueueConfig`, the configuration
object of one named distributed queue. The model covers:

- **Fields and defaults.** The object has a name that may be null, a sync
  backup count (default 1), an async backup count (default 0), and a raw
  capacity `maxSize` (default 0). It also has a list of item-listener
  registrations that stays null until first use.
- **Sentinel on read.** A stored capacity of 0 means "unbounded". It reads
  back as `Integer.MAX_VALUE`.
- **Uneven validation.** `setMaxSize` rejects a negative size. The two
  backup-count setters accept any `int`.
- **Derived total.** The total backup count is the Java `int` sum of the two
  counts, so it wraps on overflow.
- **Compatibility.** Two declarations are compatible exactly when their names
  are equal under null-safe equality.
- **Copy constructor.** It copies the four scalar fields but not the
  listeners.
- **Wire form.** `writeData`/`readData` use a fixed order: name, sync count,
  async count, raw `maxSize`. The name goes through `java.io` `writeUTF`: a
  16-bit length, then modified UTF-8. Each count goes through `writeInt`:
  four bytes, big-endian, two's complement.

Files:

- `java_types.dfy`: module `JavaTypes`. Java `int` (`int32`), a stream byte,
  a `char` as one UTF-16 code unit (`jchar`), a non-null `String` as a
  sequence of code units, and `int` wrap-around.
- `wrappers.dfy`: module `Wrappers`. `Option` stands for a nullable
  reference. `Result` stands for a call that returns or throws.
- `data_format.dfy`: module `DataFormat`. The `java.io.DataOutput`/`DataInput`
  encodings the class uses, as pure functions over byte sequences. Includes
  their round-trip lemmas.
- `queue_config.dfy`: module `Config`. The specification functions: read-time
  capacity, total backup count, name comparison, wire encoding, and the
  field-by-field effect of `readData`. Also lemmas about them, and the
  `QueueConfig` class. Its methods mutate the fields in place and return the
  object itself, as the Java setters do.
- `scenarios.dfy`: module `ConfigUsage`. Client methods that create fresh
  configurations, call the public operations, and state what the caller
  observes. They use the class contracts and, for the wire transfer, the
  round-trip lemma `Config.WireRoundTrip`.

Two properties one might expect of the configuration do not hold in the
code, and the model follows the code:

- One might expect the capacity never to be negative, since `setMaxSize`
  refuses a negative size (QueueConfig.java:53-59). Only `setMaxSize`
  enforces this. `readData` stores whatever `int` the stream carries, and `getMaxSize`
  then reports a negative capacity (`Config.ReadDataAcceptsNegativeMaxSize`).
  `MaxSizeNonNegative` is therefore preserved by the constructors and setters
  but is not a class invariant.
- One might expect the two backup counts to be non-negative and their total
  to be their sum. The setters store negative values (QueueConfig.java:69-81). The total is a 32-bit sum that
  can wrap (`Config.TotalBackupCountCanWrap`).

## Model

| member | source | states |
|---|---|---|
| `Config.QueueConfig.constructor` | hazelcast/src/main/java/com/hazelcast/config/QueueConfig.java:29-40 | a new configuration has a null name, sync count 1, async count 0, raw size 0 and no listener list (which reads as empty) |
| `Config.QueueConfig.Copy` | hazelcast/src/main/java/com/hazelcast/config/QueueConfig.java:42-47 | the copy has the same name, both counts and raw size as the original; its listener list is null, so reads as empty |
| `Config.EffectiveMaxSize` | hazelcast/src/main/java/com/hazelcast/config/QueueConfig.java:49-51 | the raw size 0 reads as `Integer.MAX_VALUE`; any other raw size is reported unchanged; so the capacity a reader sees is never 0, and a non-negative raw size is reported as a positive value at least as large |
| `Config.EffectiveMaxSizeCollisions` | hazelcast/src/main/java/com/hazelcast/config/QueueConfig.java:49-51 | two raw sizes read the same exactly when they are equal or are 0 and `Integer.MAX_VALUE`, so the sentinel is lost at read time |
| `Config.QueueConfig.GetMaxSize` | hazelcast/src/main/java/com/hazelcast/config/QueueConfig.java:49-51 | returns the read-time translation of the stored raw size |
| `Config.QueueConfig.SetMaxSize` | hazelcast/src/main/java/com/hazelcast/config/QueueConfig.java:53-59 | a negative size fails with IllegalArgument and changes no field; a non-negative size is stored raw, nothing else changes, the object itself is returned, and a non-negative size stays non-negative |
| `Config.TotalBackupCount` | hazelcast/src/main/java/com/hazelcast/config/QueueConfig.java:61-63 | the total is congruent to sync + async modulo 2^32 and equals it exactly whenever the sum fits in an `int` |
| `Config.TotalBackupCountCanWrap` | hazelcast/src/main/java/com/hazelcast/config/QueueConfig.java:61-81 | because the setters accept any `int`, counts `Integer.MAX_VALUE` and 1 give the total `Integer.MIN_VALUE` |
| `Config.QueueConfig.GetTotalBackupCount` | hazelcast/src/main/java/com/hazelcast/config/QueueConfig.java:61-63 | returns the total of the current two counts, recomputed on every call |
| `Config.QueueConfig.GetSyncBackupCount` | hazelcast/src/main/java/com/hazelcast/config/QueueConfig.java:65-67 | returns the stored sync count untranslated |
| `Config.QueueConfig.SetSyncBackupCount` | hazelcast/src/main/java/com/hazelcast/config/QueueConfig.java:69-72 | stores any `int`, negatives included, without error; no other field changes; returns the object itself |
| `Config.QueueConfig.GetAsyncBackupCount` | hazelcast/src/main/java/com/hazelcast/config/QueueConfig.java:74-76 | returns the stored async count untranslated |
| `Config.QueueConfig.SetAsyncBackupCount` | hazelcast/src/main/java/com/hazelcast/config/QueueConfig.java:78-81 | stores any `int`, negatives included, without error; no other field changes; returns the object itself |
| `Config.QueueConfig.GetName` | hazelcast/src/main/java/com/hazelcast/config/QueueConfig.java:86-88 | returns the stored name, possibly null |
| `Config.QueueConfig.SetName` | hazelcast/src/main/java/com/hazelcast/config/QueueConfig.java:94-97 | stores any name, null included; no other field changes; returns the object itself |
| `Config.QueueConfig.AddItemListenerConfig` | hazelcast/src/main/java/com/hazelcast/config/QueueConfig.java:99-102 | the listener is appended at the end of the list, created if it was null; earlier entries keep their order; scalar fields are untouched |
| `Config.QueueConfig.GetItemListenerConfigs` | hazelcast/src/main/java/com/hazelcast/config/QueueConfig.java:104-109 | returns the current listeners (empty if the list was null) and leaves a non-null list in the field; scalar fields are untouched |
| `Config.QueueConfig.SetItemListenerConfigs` | hazelcast/src/main/java/com/hazelcast/config/QueueConfig.java:111-113 | replaces the whole list, null included (then reading shows an empty list); scalar fields are untouched |
| `Config.NullSafeNameEquals` | hazelcast/src/main/java/com/hazelcast/config/QueueConfig.java:117 | the null-safe comparison of two names holds exactly when both are null or both are present and equal |
| `Config.NameCompatibilityIsEquivalence` | hazelcast/src/main/java/com/hazelcast/config/QueueConfig.java:115-118 | name compatibility is reflexive, symmetric and transitive |
| `Config.QueueConfig.IsCompatible` | hazelcast/src/main/java/com/hazelcast/config/QueueConfig.java:115-118 | false against null; otherwise true exactly when the two names are equal under null-safe equality; no other field takes part |
| `Config.EncodeFields` | hazelcast/src/main/java/com/hazelcast/config/QueueConfig.java:120-125 | encoding succeeds exactly when the name is non-null and its modified UTF-8 form fits in 65535 bytes; a null name fails with NullString; the output is 14 bytes longer than the encoded name and ends with the raw size's four bytes |
| `Config.QueueConfig.WriteData` | hazelcast/src/main/java/com/hazelcast/config/QueueConfig.java:120-125 | the bytes written are the encoding of the four scalar fields in wire order |
| `Config.ReadFields` | hazelcast/src/main/java/com/hazelcast/config/QueueConfig.java:127-132 | the field-by-field effect of readData: a failure to read the name leaves every field as it was; once the name is read it is stored even if a later read fails; a complete read consumes at least 14 bytes and leaves a suffix of the input |
| `Config.QueueConfig.ReadData` | hazelcast/src/main/java/com/hazelcast/config/QueueConfig.java:127-132 | the new fields and the result are the field-by-field read of the stream, stopping at the first failure; the listener list is untouched |
| `Config.WireRoundTrip` | hazelcast/src/main/java/com/hazelcast/config/QueueConfig.java:120-132 | reading what writeData produced restores name, both counts and the raw size exactly (0 stays 0), whatever the reader held, and leaves any following bytes unread |
| `Config.ReadDataKeepsPartialName` | hazelcast/src/main/java/com/hazelcast/config/QueueConfig.java:127-132 | readData is not atomic: if the stream ends after the name, the name is replaced, the counts are unchanged, and EndOfStream is reported |
| `Config.ReadDataAcceptsNegativeMaxSize` | hazelcast/src/main/java/com/hazelcast/config/QueueConfig.java:127-132 | a negative size on the wire is read back and stored without a check, and getMaxSize then reports it as a negative capacity |
| `DataFormat.WriteInt` | hazelcast/src/main/java/com/hazelcast/config/QueueConfig.java:122-124 | writeInt emits exactly four bytes |
| `DataFormat.ReadInt` | hazelcast/src/main/java/com/hazelcast/config/QueueConfig.java:129-131 | readInt fails with EndOfStream exactly when fewer than four bytes remain, and otherwise consumes exactly four |
| `DataFormat.IntRoundTrip` | hazelcast/src/main/java/com/hazelcast/config/QueueConfig.java:122-131 | readInt returns the `int` that writeInt wrote, negatives included, and leaves the following bytes |
| `DataFormat.UtfLength` | hazelcast/src/main/java/com/hazelcast/config/QueueConfig.java:121 | the modified UTF-8 length of a name is between one and three bytes per char |
| `DataFormat.EncodeChars` | hazelcast/src/main/java/com/hazelcast/config/QueueConfig.java:121 | the encoded chars take exactly the length that writeUTF puts in its prefix |
| `DataFormat.WriteUTF` | hazelcast/src/main/java/com/hazelcast/config/QueueConfig.java:121 | writeUTF fails on null (NullString) and on an encoded length over 65535 (EncodedTooLong); it succeeds in every other case, and then the output is the 2-byte prefix plus the encoded length |
| `DataFormat.ShortStringsEncode` | hazelcast/src/main/java/com/hazelcast/config/QueueConfig.java:121 | every name of at most 21845 chars can be written |
| `DataFormat.DecodeChars` | hazelcast/src/main/java/com/hazelcast/config/QueueConfig.java:128 | the only way decoding a block can fail is MalformedInput |
| `DataFormat.ReadUTF` | hazelcast/src/main/java/com/hazelcast/config/QueueConfig.java:128 | readUTF fails with EndOfStream if no length prefix is present; on success it consumes the prefix and a block, leaving a suffix of the input |
| `DataFormat.DecodeEncodedChar` | hazelcast/src/main/java/com/hazelcast/config/QueueConfig.java:121-128 | decoding the one-, two- or three-byte form of a char yields that char and continues right after it |
| `DataFormat.DecodeEncodedChars` | hazelcast/src/main/java/com/hazelcast/config/QueueConfig.java:121-128 | decoding the encoded chars of a string gives back the string |
| `DataFormat.UtfRoundTrip` | hazelcast/src/main/java/com/hazelcast/config/QueueConfig.java:121-128 | readUTF returns exactly the name writeUTF wrote, and leaves the bytes that follow it |
| `ConfigUsage.NewConfigDefaults` | hazelcast/src/main/java/com/hazelcast/config/QueueConfig.java:29-40 | a new configuration reports sync 1, async 0, total 1, capacity `Integer.MAX_VALUE` and an empty listener list |
| `ConfigUsage.SetThenGetMaxSize` | hazelcast/src/main/java/com/hazelcast/config/QueueConfig.java:49-59 | setMaxSize accepts exactly the non-negative sizes; a positive size reads back as set; 0, or a refused negative size, reads back as `Integer.MAX_VALUE` |
| `ConfigUsage.SetBackupCountsThenTotal` | hazelcast/src/main/java/com/hazelcast/config/QueueConfig.java:61-81 | any two counts read back as set, and the total is their `int` sum (the exact sum when it fits) |
| `ConfigUsage.RegisterListenersInOrder` | hazelcast/src/main/java/com/hazelcast/config/QueueConfig.java:99-109 | for any size passed to setMaxSize beforehand, two registrations read back in registration order and the capacity reads as the translation of the stored size (0 if the size was refused), unaffected by the registrations |
| `ConfigUsage.CopyDropsListeners` | hazelcast/src/main/java/com/hazelcast/config/QueueConfig.java:42-47 | a copy has the original's scalar fields and is compatible with it, but has no listeners while the original keeps its own |
| `ConfigUsage.CompatibilityIgnoresSettings` | hazelcast/src/main/java/com/hazelcast/config/QueueConfig.java:115-118 | same-named declarations with different counts, sizes and listeners are compatible; nothing is compatible with null; two unnamed declarations are compatible; a named and an unnamed one are not |
| `ConfigUsage.TransferOverWire` | hazelcast/src/main/java/com/hazelcast/config/QueueConfig.java:120-132 | for every name writeUTF accepts (modified UTF-8 length at most 65535), a fresh object that reads another's writeData output ends up with the same name, counts and raw size, with raw 0 (including after a refused negative size) staying 0 |
| `ConfigUsage.WriteUnnamedFails` | hazelcast/src/main/java/com/hazelcast/config/QueueConfig.java:120-121 | writing a configuration whose name was never set fails with NullString |

## Left out

- `toString` (QueueConfig.java:134-137): a diagnostic string only.
- The adapter test in `TransactionalMapDataStructureAdapterTest.java`. It runs
  against a live cluster and an adapter class that are not part of this model.
- The `DataSerializable` framework and real stream objects. `writeData`
  returns the bytes it would write. `readData` takes the input bytes and
  returns the unread rest. Stream failures other than end of input (an
  `IOException` from the underlying channel) are not modelled.
- Aliasing of listener lists. `getItemListenerConfigs` returns the live
  Java list, and the model returns a copy of its contents. Changes a caller
  makes through that reference are not modelled, except through
  `addItemListenerConfig`. `setItemListenerConfigs` is whole-list
  replacement.
- `Config.QueueConfig.Copy`: a null argument is not modelled. The parameter
  is a non-null reference, so the `NullPointerException` that
  `new QueueConfig(null)` throws at QueueConfig.java:43 has no counterpart.
  A Dafny constructor cannot report a failure.
- `ItemListenerConfig` is an opaque type. Its contents are not part of this
  model.
- `DataFormat.UtfLength`: the encoded length is computed exactly. Any
  overflow of the JDK's own `int` counter for strings of more than about 700
  million chars is not modelled.
- Concurrent mutation of a configuration is not modelled. The source offers
  no synchronisation for it.
