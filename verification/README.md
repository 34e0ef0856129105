# MIDI device descriptor and fingerprint HAL bridge, modelled in Dafny

This project models two small pieces of Android framework logic.

- **`MidiDeviceInfo`**: the immutable descriptor of a MIDI device. It holds a
  type, an id, the input and output port counts, optional port-name arrays, an
  opaque property bundle and a private flag. The model covers the constructor's
  null-array rule, range-checked port lookup, id-based `equals`/`hashCode`, and
  the `writeToParcel`/`createFromParcel` pair.
- **The fingerprint JNI bridge**: `hal_notify_callback` decodes a HAL message
  into a `CallbackHandler` record of four ints. The record is queued on the
  service's looper and later handed to the listener's `notify`. The model also
  covers the `nativeOpenHal` chain of early-exit checks, the four pass-through
  calls into the opened device, and the `nativeCloseHal` stub.

Modules (one per file):

| file | module | contents |
|---|---|---|
| `wrappers.dfy` | `Wrappers` | `Option` (a nullable reference) and `Result` (a value or a thrown exception) |
| `ints.dfy` | `Ints` | 32/64-bit integer types and the two's-complement conversions between C and Java integers |
| `midi_device_info.dfy` | `MidiDeviceInfo` | descriptor, `PortInfo`, constructor, port lookup, equality and hash |
| `midi_parcel.dfy` | `MidiParcel` | parcel as a sequence of typed tokens, the writer, the reader, and round trips |
| `fingerprint_notify.dfy` | `FingerprintNotify` | HAL messages, the decoder and its inverse, the looper queue, and the relay over any interleaving |
| `fingerprint_hal.dfy` | `FingerprintHal` | `nativeOpenHal` over abstract registry/device outcomes, pass-throughs, `nativeCloseHal` |

Modelling choices:

- A Java `String` reference is `Option<string>`. A Java array reference is
  `Option<seq<…>>`. Thrown exceptions are `Failure` values.
- The constructor does not check that a supplied name array is as long as the
  port count. The model does not assume it either: `GetInputPortInfo` and
  `GetOutputPortInfo` return `ArrayIndexOutOfBounds` for an in-range port
  number past the array's end, which is what the Java array access throws.
  `LookupFailsOnlyOutOfRange` shows that this cannot happen when the arrays
  cover the counts. `ConstructedNamesCoverPorts` shows that arrays the
  constructor allocates itself always cover the counts.
- `new String[n]` with `n < 0` throws `NegativeArraySizeException`. The
  constructor models this when a name array is null and its count is negative.
- `hardware/fingerprint.h` and `hardware/hardware.h` are not part of this
  model. The message type codes (`ERROR = -1`, `ACQUIRED = 1`, `PROCESSED = 2`,
  `TEMPLATE_ENROLLING = 3`, `TEMPLATE_REMOVED = 4`) are those of the 2.0 header.
  So are the field widths: error and acquisition codes are C enums (`int`);
  finger ids, group ids, the remaining-sample count, `enroll`'s group id and
  timeout are `uint32_t`; `authenticate`'s operation id is `uint64_t`.
  `kVersion` is `HARDWARE_MODULE_API_VERSION(2, 0)`, the major version in the
  high byte and the minor in the low one: `0x0200`.
- The callback copies the payload into `uint32_t` locals and passes them to
  `CallbackHandler`'s `int` parameters. The model writes this out as a
  two's-complement reinterpretation (`Ints.ToInt32`). `Recover` proves that no
  information is lost.
- The foreign side is abstract input. `ModuleLookup` records what
  `hw_get_module` returns. `HalModule`/`OpenMethod` record whether `open` is
  null and what it returns. `HalDevice` records the version and what
  `set_notify` returns. `Hal` is a function from device and request to the
  status the device returns.
- A HAL message is a `Msg`: its `Unrecognised` case carries only type codes
  outside the five the callback's `switch` handles.
- The looper is modelled sequentially: a FIFO `seq` of records. A `Relay`
  trace interleaves HAL callbacks and looper turns in any order.

## Model

| member | source | states |
|---|---|---|
| MidiDeviceInfo.NewPortInfo | media/java/android/media/midi/MidiDeviceInfo.java:137-141 | type and number are kept; a null name becomes `""` and any other name is kept verbatim |
| MidiDeviceInfo.NullNameLooksEmpty | media/java/android/media/midi/MidiDeviceInfo.java:137-165 | a null port name and an empty one are indistinguishable through `getName` |
| MidiDeviceInfo.NullNames | media/java/android/media/midi/MidiDeviceInfo.java:189 | `new String[n]` is n nulls, and it throws NegativeArraySize exactly when n < 0 |
| MidiDeviceInfo.New | media/java/android/media/midi/MidiDeviceInfo.java:181-200 | scalar fields are stored as given; a non-null name array is kept unchanged; a null one becomes an array of `count` nulls; construction fails only when a null array meets a negative count |
| MidiDeviceInfo.GetInputPortInfo | media/java/android/media/midi/MidiDeviceInfo.java:245-250 | IllegalArgument exactly when `n < 0 \|\| n >= inputPortCount`; ArrayIndexOutOfBounds exactly when n is in range but past the name array; otherwise a TYPE_INPUT port numbered n named after entry n (`""` if null) |
| MidiDeviceInfo.GetOutputPortInfo | media/java/android/media/midi/MidiDeviceInfo.java:258-263 | the same rule against `outputPortCount`, yielding a TYPE_OUTPUT port |
| MidiDeviceInfo.LookupFailsOnlyOutOfRange | media/java/android/media/midi/MidiDeviceInfo.java:245-263 | when the name arrays cover the counts, a lookup succeeds iff the port number is in range, and otherwise fails with IllegalArgument |
| MidiDeviceInfo.ConstructedNamesCoverPorts | media/java/android/media/midi/MidiDeviceInfo.java:188-197 | a constructed descriptor covers its counts whenever each supplied array is null or at least as long as its count |
| MidiDeviceInfo.ShortNameArrayEscapesRangeCheck | media/java/android/media/midi/MidiDeviceInfo.java:181-249 | with two input ports and a one-name array, looking up port 1 throws ArrayIndexOutOfBounds, not IllegalArgument |
| MidiDeviceInfo.Equals | media/java/android/media/midi/MidiDeviceInfo.java:285-291 | true iff the other object is a descriptor with the same id; false for any other object or null |
| MidiDeviceInfo.EqualsIsEquivalence | media/java/android/media/midi/MidiDeviceInfo.java:285-291 | `equals` on descriptors is reflexive, symmetric and transitive, and never equal to a non-descriptor |
| MidiDeviceInfo.EqualsAgreesWithHashCode | media/java/android/media/midi/MidiDeviceInfo.java:285-296 | two descriptors are equal iff their hash codes (`HashCode`, the id) are equal |
| MidiDeviceInfo.EqualityIgnoresContents | media/java/android/media/midi/MidiDeviceInfo.java:285-291 | descriptors differing in everything except the id are still equal |
| MidiParcel.FlagRoundTrip | media/java/android/media/midi/MidiDeviceInfo.java:309-340 | the private flag is written as 1/0 and read back as `== 1`: `true` and `false` both survive, and every int other than 1 reads as false |
| MidiParcel.WriteToParcel | media/java/android/media/midi/MidiDeviceInfo.java:331-340 | eight tokens; both name arrays are written non-null; the flag token is 0 or 1 |
| MidiParcel.CreateFromParcel | media/java/android/media/midi/MidiDeviceInfo.java:309-320 | succeeds iff the first eight tokens have the written kinds (ints, two string arrays, a bundle, an int) and the constructor accepts them; the result is the constructor applied to those eight fields in writing order, with the flag read as `== 1` and a null name array turned into `count` nulls, and the rest of the parcel unread; `Malformed(pos)` names the first token of the wrong kind or missing; otherwise the failure is the constructor's NegativeArraySize |
| MidiParcel.ParcelRoundTrip | media/java/android/media/midi/MidiDeviceInfo.java:309-340 | reading what `writeToParcel` wrote gives back the same descriptor in every field, including name arrays, bundle and private flag, and leaves the following tokens unread |
| MidiParcel.ParcelReencode | media/java/android/media/midi/MidiDeviceInfo.java:309-340 | a parcel that reads successfully, has non-null arrays and a 0/1 flag is exactly the encoding of what it reads to, followed by the rest |
| MidiParcel.ParcelSequenceRoundTrip | media/java/android/media/midi/MidiDeviceInfo.java:309-340 | two descriptors written back to back are read back in order |
| FingerprintNotify.Decode | services/core/jni/com_android_server_fingerprint_FingerprintService.cpp:64-91 | a message is dropped iff its type code is none of the five handled ones; error gives `(ERROR, error, 0, 0)`; acquired gives `(ACQUIRED, info, 0, 0)`; processed and removed give `(type, fid, gid, 0)`; enrolling gives `(type, fid, gid, samples_remaining)`; any other type is dropped |
| FingerprintNotify.Recover | services/core/jni/com_android_server_fingerprint_FingerprintService.cpp:64-91 | a record is the image of some recognised message iff its type is known and its unused arguments are zero; that message decodes back to the record |
| FingerprintNotify.RecoverDecode | services/core/jni/com_android_server_fingerprint_FingerprintService.cpp:64-91 | every recognised message is recovered from its record, despite the `uint32_t` to `int` conversion |
| FingerprintNotify.DecodeInjective | services/core/jni/com_android_server_fingerprint_FingerprintService.cpp:64-91 | distinct recognised messages give distinct records |
| FingerprintNotify.HalNotifyCallback | services/core/jni/com_android_server_fingerprint_FingerprintService.cpp:64-96 | an unrecognised message leaves the queue unchanged; a recognised one appends exactly one record, its decoding, behind the existing ones |
| FingerprintNotify.Dispatch | services/core/jni/com_android_server_fingerprint_FingerprintService.cpp:53-60 | a looper turn on a non-empty queue removes the head and, through `HandleMessage`, hands its four fields unchanged to the listener; an empty queue dispatches nothing |
| FingerprintNotify.Calls | services/core/jni/com_android_server_fingerprint_FingerprintService.cpp:56-60 | draining a queue makes one listener call per record, in queue order, each carrying that record's fields |
| FingerprintNotify.StepOutput | services/core/jni/com_android_server_fingerprint_FingerprintService.cpp:53-95 | a callback or a looper turn extends the delivered-then-queued calls by exactly the calls that step requires |
| FingerprintNotify.RunOutput | services/core/jni/com_android_server_fingerprint_FingerprintService.cpp:53-95 | over any interleaving of callbacks and looper turns, delivered calls followed by queued calls are the recognised callbacks' records in callback order, each exactly once |
| FingerprintNotify.LooperDrain | services/core/jni/com_android_server_fingerprint_FingerprintService.cpp:53-95 | a looper run until idle empties the queue and delivers every pending record, in queue order, after the calls already made |
| FingerprintNotify.DeliveredIsPrefix | services/core/jni/com_android_server_fingerprint_FingerprintService.cpp:53-95 | from an empty relay, delivered calls are always a prefix of the recognised callbacks' records; with the queue empty they are all of them |
| FingerprintNotify.UnrecognisedDropped | services/core/jni/com_android_server_fingerprint_FingerprintService.cpp:88-90 | a callback with an unknown type changes neither the queue nor what the listener has seen |
| FingerprintHal.MakeApiVersion | services/core/jni/com_android_server_fingerprint_FingerprintService.cpp:33 | the API version carries the major number in its high byte and the minor number in its low byte |
| FingerprintHal.OpenHal | services/core/jni/com_android_server_fingerprint_FingerprintService.cpp:131-177 | fails (returns 0) iff module lookup errs, the module is null, `open` is null, `open` errs, or `set_notify` returns a negative value; each failure reason (lookup error, null module, null `open`, `open` error, `set_notify` error) is reported exactly when its check is the first to fail, with the status that check saw; a lookup error or null module leaves the context as it was; a null or failing `open` caches only the module, so an earlier device stays cached; on success the opened device is returned and cached; a `set_notify` failure leaves the module and the new device cached; the version warning is logged iff `open` succeeded with a device whose version differs from `kVersion` |
| FingerprintHal.VersionMismatchTolerated | services/core/jni/com_android_server_fingerprint_FingerprintService.cpp:158-161 | whatever version the device reports, opening succeeds or fails alike, and any failure is for the same reason |
| FingerprintHal.PositiveSetNotifyAccepted | services/core/jni/com_android_server_fingerprint_FingerprintService.cpp:164-168 | a positive `set_notify` status does not fail the open |
| FingerprintHal.NativeEnroll | services/core/jni/com_android_server_fingerprint_FingerprintService.cpp:104-108 | the HAL receives `(groupId, timeout)` in that order, and the HAL's status is returned unchanged |
| FingerprintHal.NativeAuthenticate | services/core/jni/com_android_server_fingerprint_FingerprintService.cpp:110-114 | the HAL receives the session id (as `uint64_t`) and the group id, and its status is returned unchanged |
| FingerprintHal.NativeEnrollCancel | services/core/jni/com_android_server_fingerprint_FingerprintService.cpp:116-120 | the HAL receives a cancel request and its status is returned unchanged |
| FingerprintHal.NativeRemove | services/core/jni/com_android_server_fingerprint_FingerprintService.cpp:122-129 | the finger id the HAL receives has fid and gid equal to the caller's `fingerId` and `groupId`; the HAL's status is returned unchanged |
| FingerprintHal.RemoveEchoDeliversCallerIds | services/core/jni/com_android_server_fingerprint_FingerprintService.cpp:84-129 | when the HAL reports the removal of the finger id it was sent, the listener record is `(TEMPLATE_REMOVED, fingerId, groupId, 0)` |
| FingerprintHal.CloseHal | services/core/jni/com_android_server_fingerprint_FingerprintService.cpp:179-181 | always returns `-ENOSYS` (negative) and releases nothing: the context is unchanged |

## Left out

- `services/core/jni/com_android_server_UsbMidiDevice.cpp` is not part of this model. It only opens, queries and closes ALSA device nodes.
- `toString`, `describeContents`, `CREATOR.newArray` and the `PROPERTY_*` key strings: formatting and constants with no logic. The plain getters are the datatype's fields.
- Array sharing: the constructor stores the caller's name arrays without copying them, so a later write to such an array changes what the port lookups and `writeToParcel` see. Name arrays are immutable sequences here, so that aliasing and later mutation are not modelled.
- Bundle contents: the property bundle is an opaque type parameter that the parcel carries unchanged.
- The real `Parcel` byte format. A parcel is a sequence of typed tokens, so a missing or wrong-kind token is reported as `Malformed`. A real `Parcel` reads 0 or null past the end of its data instead.
- `nativeInit`, `register_android_server_fingerprint_FingerprintService` and the JNI method table: global-reference and method-id binding with no logic.
- Threading: the looper's cross-thread handoff is modelled as a sequential queue. Any interleaving of callbacks and looper turns is covered, but concurrency is not.
- The success value of `nativeOpenHal`: the source casts the device pointer to `jlong`, which the `jint` return type then narrows. The model returns the device itself, because pointer representation is platform-specific.
- A HAL `open` that reports success but yields a null device is not modelled. The source would dereference it. The device is always present in `OpenMethod`.
- `FingerprintHal.NativeEnroll`, `FingerprintHal.NativeAuthenticate`, `FingerprintHal.NativeEnrollCancel` and `FingerprintHal.NativeRemove` require a cached device. Calling them before a successful open dereferences a null device pointer (the zero-initialised static context) in the source, and its behaviour is undefined.
- Logging (`ALOGE`, `ALOG`) and the `notify` check at lines 171-173, which only logs. The version warning is kept as a flag because it is the one log entry that replaces a failure.
