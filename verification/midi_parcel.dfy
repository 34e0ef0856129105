/** The descriptor's parcel encoding. A parcel is a sequence of typed tokens;
    `WriteToParcel` appends the descriptor's eight fields and `CreateFromParcel`
    reads them back in the same order, leaving whatever follows unread. */
module MidiParcel {
  import opened Wrappers
  import opened Ints
  import opened MidiDeviceInfo

  /** One value written to a parcel: an int, a (nullable) string array, or a bundle. */
  datatype Token<B> = TInt(i: int32) | TStrArr(arr: Option<seq<Name>>) | TBundle(bundle: B)

  type Parcel<B> = seq<Token<B>>

  /** Why reading a descriptor from a parcel failed. */
  datatype ReadError =
    | Malformed(pos: nat)         // the token at `pos` is missing or of the wrong kind
    | Thrown(cause: Exception)    // the constructor threw

  /** The number of tokens one descriptor occupies. */
  const DESCRIPTOR_TOKENS: nat := 8

  /** The private flag as `writeInt` sees it. */
  function EncodeFlag(b: bool): int32 {
    if b then 1 else 0
  }

  /** The private flag as `readInt() == 1` sees it. */
  function DecodeFlag(n: int32): bool {
    n == 1
  }

  /** The flag survives encoding, and decoding is true exactly for 1. */
  lemma FlagRoundTrip(b: bool, n: int32)
    ensures DecodeFlag(EncodeFlag(b)) == b
    ensures DecodeFlag(n) <==> n == 1
    ensures EncodeFlag(DecodeFlag(n)) == n <==> n == 0 || n == 1
  {
  }

  /** `writeToParcel`: type, id, input count, output count, input names,
      output names, bundle, private flag. */
  function WriteToParcel<B>(d: DeviceInfo<B>): (p: Parcel<B>)
    ensures |p| == DESCRIPTOR_TOKENS
    ensures p[4].TStrArr? && p[4].arr.Some? && p[5].TStrArr? && p[5].arr.Some?
    ensures p[7].TInt? && (p[7].i == 0 || p[7].i == 1)
  {
    [ TInt(d.deviceType), TInt(d.id), TInt(d.inputPortCount), TInt(d.outputPortCount),
      TStrArr(Some(d.inputPortNames)), TStrArr(Some(d.outputPortNames)),
      TBundle(d.properties), TInt(EncodeFlag(d.isPrivate)) ]
  }

  function ReadInt<B>(p: Parcel<B>, pos: nat): Result<int32, ReadError> {
    if pos < |p| && p[pos].TInt? then Success(p[pos].i) else Failure(Malformed(pos))
  }

  function ReadStringArray<B>(p: Parcel<B>, pos: nat): Result<Option<seq<Name>>, ReadError> {
    if pos < |p| && p[pos].TStrArr? then Success(p[pos].arr) else Failure(Malformed(pos))
  }

  function ReadBundle<B>(p: Parcel<B>, pos: nat): Result<B, ReadError> {
    if pos < |p| && p[pos].TBundle? then Success(p[pos].bundle) else Failure(Malformed(pos))
  }

  /** Whether `t` is of the kind `writeToParcel` puts at position `k`: ints at
      0-3 and 7, string arrays at 4 and 5, the bundle at 6. */
  predicate HasSlotKind<B>(t: Token<B>, k: nat) {
    if k == 4 || k == 5 then t.TStrArr?
    else if k == 6 then t.TBundle?
    else t.TInt?
  }

  /** Position `k` of the parcel holds a token of the expected kind. */
  predicate SlotOk<B>(p: Parcel<B>, k: nat) {
    k < |p| && HasSlotKind(p[k], k)
  }

  /** The first eight tokens have the kinds of a written descriptor. */
  predicate HeaderWellTyped<B>(p: Parcel<B>) {
    && SlotOk(p, 0) && SlotOk(p, 1) && SlotOk(p, 2) && SlotOk(p, 3)
    && SlotOk(p, 4) && SlotOk(p, 5) && SlotOk(p, 6) && SlotOk(p, 7)
  }

  /** The constructor call `createFromParcel` makes on the eight fields it read. */
  function ConstructFromHeader<B>(p: Parcel<B>): Result<DeviceInfo<B>, Exception>
    requires HeaderWellTyped(p)
  {
    New(p[0].i, p[1].i, p[2].i, p[3].i, p[4].arr, p[5].arr, p[6].bundle, DecodeFlag(p[7].i))
  }

  /** `createFromParcel`: read the eight fields in writing order, then run the
      constructor on them. Returns the descriptor and the unread rest. */
  function CreateFromParcel<B>(p: Parcel<B>): (r: Result<(DeviceInfo<B>, Parcel<B>), ReadError>)
    ensures r.Success? <==> HeaderWellTyped(p) && ConstructFromHeader(p).Success?
    ensures r.Success? ==> r.value == (ConstructFromHeader(p).value, p[DESCRIPTOR_TOKENS..])
    ensures r.Success? ==>
      && |p| >= DESCRIPTOR_TOKENS
      && r.value.1 == p[DESCRIPTOR_TOKENS..]
      && p[0] == TInt(r.value.0.deviceType)
      && p[1] == TInt(r.value.0.id)
      && p[2] == TInt(r.value.0.inputPortCount)
      && p[3] == TInt(r.value.0.outputPortCount)
      && p[4].TStrArr? && p[5].TStrArr?
      && p[6] == TBundle(r.value.0.properties)
      && p[7].TInt? && (r.value.0.isPrivate <==> p[7].i == 1)
    ensures r.Success? && p[4].arr.Some? ==> r.value.0.inputPortNames == p[4].arr.value
    ensures r.Success? && p[5].arr.Some? ==> r.value.0.outputPortNames == p[5].arr.value
    ensures r.Success? && p[4].arr.None? ==>
      |r.value.0.inputPortNames| == p[2].i
      && forall i :: 0 <= i < |r.value.0.inputPortNames| ==> r.value.0.inputPortNames[i] == None
    ensures r.Success? && p[5].arr.None? ==>
      |r.value.0.outputPortNames| == p[3].i
      && forall i :: 0 <= i < |r.value.0.outputPortNames| ==> r.value.0.outputPortNames[i] == None
    ensures (r.Failure? && r.error.Malformed?) <==> !HeaderWellTyped(p)
    ensures r.Failure? && r.error.Malformed? ==>
      && r.error.pos < DESCRIPTOR_TOKENS
      && !SlotOk(p, r.error.pos)
      && forall k :: 0 <= k < r.error.pos ==> SlotOk(p, k)
    ensures (r.Failure? && r.error.Thrown?) <==> HeaderWellTyped(p) && ConstructFromHeader(p).Failure?
    ensures r.Failure? && r.error.Thrown? ==> r.error.cause == NegativeArraySize
  {
    var deviceType :- ReadInt(p, 0);
    var id :- ReadInt(p, 1);
    var inputPorts :- ReadInt(p, 2);
    var outputPorts :- ReadInt(p, 3);
    var inputPortNames :- ReadStringArray(p, 4);
    var outputPortNames :- ReadStringArray(p, 5);
    var properties :- ReadBundle(p, 6);
    var isPrivate :- ReadInt(p, 7);
    match New(deviceType, id, inputPorts, outputPorts, inputPortNames, outputPortNames,
              properties, DecodeFlag(isPrivate))
    case Success(d) => Success((d, p[DESCRIPTOR_TOKENS..]))
    case Failure(e) => Failure(Thrown(e))
  }

  /** Reading back what was written yields the same descriptor, field for field,
      and leaves the following tokens untouched. */
  lemma ParcelRoundTrip<B>(d: DeviceInfo<B>, rest: Parcel<B>)
    ensures CreateFromParcel(WriteToParcel(d) + rest) == Success((d, rest))
  {
  }

  /** Conversely, a parcel that decodes, whose arrays are non-null and whose
      flag is 0 or 1, is exactly the encoding of what it decodes to. */
  lemma ParcelReencode<B>(p: Parcel<B>)
    requires CreateFromParcel(p).Success?
    requires p[4].arr.Some? && p[5].arr.Some?
    requires p[7].i == 0 || p[7].i == 1
    ensures WriteToParcel(CreateFromParcel(p).value.0) + CreateFromParcel(p).value.1 == p
  {
  }

  /** Several descriptors written one after another read back in order. */
  lemma ParcelSequenceRoundTrip<B>(d1: DeviceInfo<B>, d2: DeviceInfo<B>, rest: Parcel<B>)
    ensures var r1 := CreateFromParcel(WriteToParcel(d1) + WriteToParcel(d2) + rest);
            && r1 == Success((d1, WriteToParcel(d2) + rest))
            && CreateFromParcel(r1.value.1) == Success((d2, rest))
  {
    assert WriteToParcel(d1) + WriteToParcel(d2) + rest == WriteToParcel(d1) + (WriteToParcel(d2) + rest);
    ParcelRoundTrip(d1, WriteToParcel(d2) + rest);
    ParcelRoundTrip(d2, rest);
  }
}
