/** The MIDI device descriptor: an immutable record of a device's type, id,
    port counts, optional port names, an opaque property bundle and a private
    flag, with range-checked port lookup and id-based identity. */
module MidiDeviceInfo {
  import opened Wrappers
  import opened Ints

  /** Device types reported by `getType`. */
  const TYPE_USB: int32 := 1
  const TYPE_VIRTUAL: int32 := 2
  const TYPE_BLUETOOTH: int32 := 3

  /** Port types reported by `PortInfo.getType`. */
  const TYPE_INPUT: int32 := 1
  const TYPE_OUTPUT: int32 := 2

  /** A Java `String` reference: `None` is `null`. */
  type Name = Option<string>

  /** The exceptions the descriptor's operations can throw. */
  datatype Exception =
    | IllegalArgument          // port number outside [0, port count)
    | ArrayIndexOutOfBounds    // port number in range but beyond the name array
    | NegativeArraySize        // `new String[n]` with n < 0

  /** Information about one input or output port; its name is never null. */
  datatype PortInfo = PortInfo(portType: int32, portNumber: int32, name: string)

  /** The descriptor. `B` is the opaque property bundle (possibly null in the
      source, which is one more value of `B` here). The name arrays are never
      null once constructed, but their lengths are not tied to the counts. */
  datatype DeviceInfo<B> = DeviceInfo(
    deviceType: int32,
    id: int32,
    inputPortCount: int32,
    outputPortCount: int32,
    inputPortNames: seq<Name>,
    outputPortNames: seq<Name>,
    properties: B,
    isPrivate: bool)

  /** Any Java object `equals` may be handed: a descriptor, or something else
      (another class, or null). */
  datatype Object<B> = Descriptor(info: DeviceInfo<B>) | OtherObject

  /** The `PortInfo` constructor: a null name is stored as the empty string. */
  function NewPortInfo(portType: int32, portNumber: int32, name: Name): (p: PortInfo)
    ensures p.portType == portType && p.portNumber == portNumber
    ensures name.Some? ==> p.name == name.value
    ensures name.None? ==> p.name == ""
  {
    PortInfo(portType, portNumber, if name.None? then "" else name.value)
  }

  /** `new String[count]`: an array of `count` nulls, or NegativeArraySize. */
  function NullNames(count: int32): (r: Result<seq<Name>, Exception>)
    ensures r.Failure? <==> count < 0
    ensures r.Failure? ==> r.error == NegativeArraySize
    ensures r.Success? ==> |r.value| == count
    ensures r.Success? ==> forall i :: 0 <= i < |r.value| ==> r.value[i] == None
  {
    if count < 0 then Failure(NegativeArraySize) else Success(seq(count, _ => None))
  }

  /** The name array the constructor stores: the supplied one, or `count` nulls. */
  function StoredNames(count: int32, names: Option<seq<Name>>): Result<seq<Name>, Exception>
  {
    if names.Some? then Success(names.value) else NullNames(count)
  }

  /** The `MidiDeviceInfo` constructor. The input array is settled before the
      output array, so a failure is always the one `new String[n]` throws. */
  function New<B>(deviceType: int32, id: int32, numInputPorts: int32, numOutputPorts: int32,
                  inputPortNames: Option<seq<Name>>, outputPortNames: Option<seq<Name>>,
                  properties: B, isPrivate: bool): (r: Result<DeviceInfo<B>, Exception>)
    ensures r.Failure? <==>
      ((inputPortNames.None? && numInputPorts < 0) || (outputPortNames.None? && numOutputPorts < 0))
    ensures r.Failure? ==> r.error == NegativeArraySize
    ensures r.Success? ==>
      && r.value.deviceType == deviceType && r.value.id == id
      && r.value.inputPortCount == numInputPorts && r.value.outputPortCount == numOutputPorts
      && r.value.properties == properties && r.value.isPrivate == isPrivate
    ensures r.Success? && inputPortNames.Some? ==> r.value.inputPortNames == inputPortNames.value
    ensures r.Success? && outputPortNames.Some? ==> r.value.outputPortNames == outputPortNames.value
    ensures r.Success? && inputPortNames.None? ==>
      |r.value.inputPortNames| == numInputPorts
      && forall i :: 0 <= i < |r.value.inputPortNames| ==> r.value.inputPortNames[i] == None
    ensures r.Success? && outputPortNames.None? ==>
      |r.value.outputPortNames| == numOutputPorts
      && forall i :: 0 <= i < |r.value.outputPortNames| ==> r.value.outputPortNames[i] == None
  {
    var ins :- StoredNames(numInputPorts, inputPortNames);
    var outs :- StoredNames(numOutputPorts, outputPortNames);
    Success(DeviceInfo(deviceType, id, numInputPorts, numOutputPorts, ins, outs, properties, isPrivate))
  }

  /** The lookup both port getters share: range check against the count, then
      an array access that Java bounds-checks on its own. */
  function PortInfoAt(portType: int32, count: int32, names: seq<Name>, portNumber: int32)
    : Result<PortInfo, Exception>
  {
    if portNumber < 0 || portNumber >= count then Failure(IllegalArgument)
    else if portNumber >= |names| then Failure(ArrayIndexOutOfBounds)
    else Success(NewPortInfo(portType, portNumber, names[portNumber]))
  }

  /** `getInputPortInfo`. */
  function GetInputPortInfo<B>(d: DeviceInfo<B>, portNumber: int32): (r: Result<PortInfo, Exception>)
    ensures r == Failure(IllegalArgument) <==> portNumber < 0 || portNumber >= d.inputPortCount
    ensures r == Failure(ArrayIndexOutOfBounds) <==>
      0 <= portNumber < d.inputPortCount && portNumber >= |d.inputPortNames|
    ensures r.Success? <==> 0 <= portNumber < d.inputPortCount && portNumber < |d.inputPortNames|
    ensures r.Success? ==>
      && 0 <= portNumber < |d.inputPortNames|
      && r.value.portType == TYPE_INPUT
      && r.value.portNumber == portNumber
      && (d.inputPortNames[portNumber].Some? ==> r.value.name == d.inputPortNames[portNumber].value)
      && (d.inputPortNames[portNumber].None? ==> r.value.name == "")
  {
    PortInfoAt(TYPE_INPUT, d.inputPortCount, d.inputPortNames, portNumber)
  }

  /** `getOutputPortInfo`. */
  function GetOutputPortInfo<B>(d: DeviceInfo<B>, portNumber: int32): (r: Result<PortInfo, Exception>)
    ensures r == Failure(IllegalArgument) <==> portNumber < 0 || portNumber >= d.outputPortCount
    ensures r == Failure(ArrayIndexOutOfBounds) <==>
      0 <= portNumber < d.outputPortCount && portNumber >= |d.outputPortNames|
    ensures r.Success? <==> 0 <= portNumber < d.outputPortCount && portNumber < |d.outputPortNames|
    ensures r.Success? ==>
      && 0 <= portNumber < |d.outputPortNames|
      && r.value.portType == TYPE_OUTPUT
      && r.value.portNumber == portNumber
      && (d.outputPortNames[portNumber].Some? ==> r.value.name == d.outputPortNames[portNumber].value)
      && (d.outputPortNames[portNumber].None? ==> r.value.name == "")
  {
    PortInfoAt(TYPE_OUTPUT, d.outputPortCount, d.outputPortNames, portNumber)
  }

  /** Each name array holds an entry for every port its count announces. */
  predicate NamesCoverPorts<B>(d: DeviceInfo<B>) {
    && |d.inputPortNames| >= d.inputPortCount
    && |d.outputPortNames| >= d.outputPortCount
  }

  /** On a descriptor whose arrays cover its ports, a lookup fails exactly when
      the port number is out of range, and then with IllegalArgument. */
  lemma LookupFailsOnlyOutOfRange<B>(d: DeviceInfo<B>, n: int32)
    requires NamesCoverPorts(d)
    ensures GetInputPortInfo(d, n).Success? <==> 0 <= n < d.inputPortCount
    ensures GetInputPortInfo(d, n).Failure? ==> GetInputPortInfo(d, n).error == IllegalArgument
    ensures GetOutputPortInfo(d, n).Success? <==> 0 <= n < d.outputPortCount
    ensures GetOutputPortInfo(d, n).Failure? ==> GetOutputPortInfo(d, n).error == IllegalArgument
  {
  }

  /** The constructor always yields a covering descriptor when it fills in the
      arrays itself, or when the supplied arrays are at least as long as the counts. */
  lemma ConstructedNamesCoverPorts<B>(deviceType: int32, id: int32, nIn: int32, nOut: int32,
                                      ins: Option<seq<Name>>, outs: Option<seq<Name>>,
                                      properties: B, isPrivate: bool)
    requires ins.Some? ==> |ins.value| >= nIn
    requires outs.Some? ==> |outs.value| >= nOut
    requires New(deviceType, id, nIn, nOut, ins, outs, properties, isPrivate).Success?
    ensures NamesCoverPorts(New(deviceType, id, nIn, nOut, ins, outs, properties, isPrivate).value)
  {
  }

  /** A name array shorter than its count makes an in-range lookup throw
      ArrayIndexOutOfBounds rather than the range check's IllegalArgument: the
      constructor does not compare the lengths. */
  lemma ShortNameArrayEscapesRangeCheck()
    ensures var d := New(TYPE_USB, 7, 2, 0, Some([Some("in")]), None, 0, false);
            && d.Success?
            && GetInputPortInfo(d.value, 1) == Failure(ArrayIndexOutOfBounds)
  {
  }

  /** A null port name and an empty one give the same `PortInfo`. */
  lemma NullNameLooksEmpty(portType: int32, portNumber: int32)
    ensures NewPortInfo(portType, portNumber, None) == NewPortInfo(portType, portNumber, Some(""))
  {
  }

  /** `equals`: another descriptor with the same id, and nothing else. */
  function Equals<B>(d: DeviceInfo<B>, o: Object<B>): (r: bool)
    ensures r <==> o.Descriptor? && o.info.id == d.id
  {
    match o
    case Descriptor(other) => other.id == d.id
    case OtherObject => false
  }

  /** `hashCode`: the id. */
  function HashCode<B>(d: DeviceInfo<B>): int32
  {
    d.id
  }

  /** `equals` restricted to descriptors is an equivalence relation. */
  lemma EqualsIsEquivalence<B>(a: DeviceInfo<B>, b: DeviceInfo<B>, c: DeviceInfo<B>)
    ensures Equals(a, Descriptor(a))
    ensures Equals(a, Descriptor(b)) <==> Equals(b, Descriptor(a))
    ensures Equals(a, Descriptor(b)) && Equals(b, Descriptor(c)) ==> Equals(a, Descriptor(c))
    ensures !Equals(a, OtherObject)
  {
  }

  /** Equal descriptors have equal hash codes, and equal hash codes mean equal
      descriptors: identity is the id alone. */
  lemma EqualsAgreesWithHashCode<B>(a: DeviceInfo<B>, b: DeviceInfo<B>)
    ensures Equals(a, Descriptor(b)) <==> HashCode(a) == HashCode(b)
  {
  }

  /** Descriptors that differ in every field but the id are still equal. */
  lemma EqualityIgnoresContents()
    ensures var a := DeviceInfo(TYPE_USB, 5, 1, 1, [None], [None], 0, false);
            var b := DeviceInfo(TYPE_VIRTUAL, 5, 0, 2, [], [Some("x"), None], 1, true);
            a != b && Equals(a, Descriptor(b))
  {
  }
}
