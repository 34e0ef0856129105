/** The fingerprint bridge's synchronous side: opening the HAL through a chain
    of early-exit checks, the pass-through calls into the opened device, and
    the close stub. The module registry and the device are abstract inputs
    recording what each foreign call would return. */
module FingerprintHal {
  import opened Wrappers
  import opened Ints
  import opened FingerprintNotify

  /** `ENOSYS` ("function not implemented") on Linux. */
  const ENOSYS: int32 := 38

  /** `HARDWARE_MODULE_API_VERSION(major, minor)`: major in the high byte, minor in the low one. */
  function MakeApiVersion(major: nat, minor: nat): (v: uint16)
    ensures v / 256 == major % 256 && v % 256 == minor % 256
  {
    (major % 256) * 256 + minor % 256
  }

  /** The HAL API version the bridge was built against (2.0). */
  const kVersion: uint16 := MakeApiVersion(2, 0)

  /** An opened device: its address, its reported version, and what its
      `set_notify` entry point returns. */
  datatype HalDevice = HalDevice(handle: nat, version: uint32, setNotifyResult: int32)

  /** The module's `open` entry point: its status and the device it yields. */
  datatype OpenMethod = OpenMethod(result: int32, device: HalDevice)

  /** A fingerprint module; its `open` method pointer may be null. */
  datatype HalModule = HalModule(open: Option<OpenMethod>)

  /** What `hw_get_module` does: a status and a (nullable) module. */
  datatype ModuleLookup = ModuleLookup(result: int32, hwModule: Option<HalModule>)

  /** The process-wide context: the cached module and device. */
  datatype Context = Context(hwModule: Option<HalModule>, device: Option<HalDevice>)

  /** The check at which `nativeOpenHal` gave up; each makes it return 0. */
  datatype OpenFailure =
    | ModuleLookupFailed(err: int32)
    | NoValidModule
    | NoValidOpenMethod
    | OpenFailed(err: int32)
    | SetNotifyFailed(err: int32)

  datatype OpenOutcome = Opened(device: HalDevice) | Failed(reason: OpenFailure)

  /** Outcome, the context as left behind, and whether the version warning was logged. */
  datatype OpenResult = OpenResult(outcome: OpenOutcome, context: Context, versionWarning: bool)

  /** `nativeOpenHal`. The module is cached as soon as it is known to be
      non-null and the device as soon as `open` succeeds, so a later failure
      leaves them cached. A version other than `kVersion` is only logged. */
  function OpenHal(ctx: Context, lookup: ModuleLookup): (r: OpenResult)
    ensures r.outcome.Failed? <==>
      || lookup.result != 0
      || lookup.hwModule.None?
      || lookup.hwModule.value.open.None?
      || lookup.hwModule.value.open.value.result != 0
      || lookup.hwModule.value.open.value.device.setNotifyResult < 0
    ensures r.outcome == Failed(ModuleLookupFailed(lookup.result)) <==> lookup.result != 0
    ensures r.outcome == Failed(NoValidModule) <==> lookup.result == 0 && lookup.hwModule.None?
    ensures r.outcome == Failed(NoValidOpenMethod) <==>
      lookup.result == 0 && lookup.hwModule.Some? && lookup.hwModule.value.open.None?
    ensures (r.outcome.Failed? && r.outcome.reason.OpenFailed?) <==>
      && lookup.result == 0 && lookup.hwModule.Some? && lookup.hwModule.value.open.Some?
      && lookup.hwModule.value.open.value.result != 0
    ensures r.outcome.Failed? && r.outcome.reason.OpenFailed? ==>
      r.outcome.reason.err == lookup.hwModule.value.open.value.result
    ensures (r.outcome.Failed? && r.outcome.reason.SetNotifyFailed?) <==>
      && lookup.result == 0 && lookup.hwModule.Some? && lookup.hwModule.value.open.Some?
      && lookup.hwModule.value.open.value.result == 0
      && lookup.hwModule.value.open.value.device.setNotifyResult < 0
    ensures r.outcome.Failed? && r.outcome.reason.SetNotifyFailed? ==>
      r.outcome.reason.err == lookup.hwModule.value.open.value.device.setNotifyResult
    ensures r.outcome.Opened? ==>
      && r.outcome.device == lookup.hwModule.value.open.value.device
      && r.context == Context(lookup.hwModule, Some(r.outcome.device))
    ensures r.outcome.Failed? && r.outcome.reason.SetNotifyFailed? ==>
      && lookup.hwModule.Some? && lookup.hwModule.value.open.Some?
      && r.context.device == Some(lookup.hwModule.value.open.value.device)
      && r.context.hwModule == lookup.hwModule
    ensures r.context.hwModule != ctx.hwModule ==> r.context.hwModule == lookup.hwModule
    ensures r.outcome.Failed? && (r.outcome.reason.ModuleLookupFailed? || r.outcome.reason.NoValidModule?) ==>
      r.context == ctx
    ensures r.outcome.Failed? && (r.outcome.reason.NoValidOpenMethod? || r.outcome.reason.OpenFailed?) ==>
      r.context == ctx.(hwModule := lookup.hwModule)
    ensures r.versionWarning <==>
      && lookup.result == 0 && lookup.hwModule.Some? && lookup.hwModule.value.open.Some?
      && lookup.hwModule.value.open.value.result == 0
      && lookup.hwModule.value.open.value.device.version != kVersion
    ensures r.versionWarning ==>
      r.context.device.Some? && r.context.device.value.version != kVersion
  {
    if lookup.result != 0 then OpenResult(Failed(ModuleLookupFailed(lookup.result)), ctx, false)
    else if lookup.hwModule.None? then OpenResult(Failed(NoValidModule), ctx, false)
    else
      var hwModule := lookup.hwModule.value;
      var ctx1 := ctx.(hwModule := Some(hwModule));
      if hwModule.open.None? then OpenResult(Failed(NoValidOpenMethod), ctx1, false)
      else if hwModule.open.value.result != 0 then
        OpenResult(Failed(OpenFailed(hwModule.open.value.result)), ctx1, false)
      else
        var device := hwModule.open.value.device;
        var warn := device.version != kVersion;
        var ctx2 := ctx1.(device := Some(device));
        if device.setNotifyResult < 0 then
          OpenResult(Failed(SetNotifyFailed(device.setNotifyResult)), ctx2, warn)
        else OpenResult(Opened(device), ctx2, warn)
  }

  /** The same registry with the opened device reporting version `v`. */
  function WithDeviceVersion(lookup: ModuleLookup, v: uint32): ModuleLookup {
    if lookup.hwModule.Some? && lookup.hwModule.value.open.Some? then
      var om := lookup.hwModule.value.open.value;
      lookup.(hwModule := Some(HalModule(Some(om.(device := om.device.(version := v))))))
    else lookup
  }

  /** A version mismatch is tolerated: whatever version the device reports,
      `nativeOpenHal` succeeds or fails alike, for the same reason. */
  lemma VersionMismatchTolerated(ctx: Context, lookup: ModuleLookup, v: uint32)
    ensures OpenHal(ctx, lookup).outcome.Failed? == OpenHal(ctx, WithDeviceVersion(lookup, v)).outcome.Failed?
    ensures OpenHal(ctx, lookup).outcome.Failed? ==>
      OpenHal(ctx, lookup).outcome == OpenHal(ctx, WithDeviceVersion(lookup, v)).outcome
  {
  }

  /** A positive `set_notify` status is not a failure: only negative ones are. */
  lemma PositiveSetNotifyAccepted(ctx: Context, d: HalDevice)
    requires d.setNotifyResult > 0
    ensures OpenHal(ctx, ModuleLookup(0, Some(HalModule(Some(OpenMethod(0, d)))))).outcome == Opened(d)
  {
  }

  // ---------------------------------------------------------------------------
  // Pass-through calls on the cached device.

  /** A request made to the opened device, with the argument values it receives. */
  datatype HalRequest =
    | Enroll(gid: uint32, timeoutSec: uint32)
    | Authenticate(operationId: uint64, gid: uint32)
    | EnrollCancel
    | Remove(finger: FingerId)

  /** The device's answer to a request: its `int` status. */
  type Hal = (HalDevice, HalRequest) -> int32

  /** A pass-through: the request sent and the status returned to Java unchanged. */
  datatype PassThrough = PassThrough(request: HalRequest, status: int32)

  /** `nativeEnroll(timeout, groupId)`: the HAL takes the group id first. */
  function NativeEnroll(ctx: Context, hal: Hal, timeout: int32, groupId: int32): (r: PassThrough)
    requires ctx.device.Some?
    ensures r.request.Enroll?
    ensures ToInt32(r.request.gid) == groupId && ToInt32(r.request.timeoutSec) == timeout
    ensures r.status == hal(ctx.device.value, r.request)
  {
    Int32ThroughUint32(groupId);
    Int32ThroughUint32(timeout);
    var req := Enroll(ToUint32(groupId), ToUint32(timeout));
    PassThrough(req, hal(ctx.device.value, req))
  }

  /** `nativeAuthenticate(sessionId, groupId)`. */
  function NativeAuthenticate(ctx: Context, hal: Hal, sessionId: int64, groupId: int32): (r: PassThrough)
    requires ctx.device.Some?
    ensures r.request.Authenticate?
    ensures (r.request.operationId - sessionId) % TWO_64 == 0
    ensures ToInt32(r.request.gid) == groupId
    ensures r.status == hal(ctx.device.value, r.request)
  {
    Int32ThroughUint32(groupId);
    var req := Authenticate(ToUint64(sessionId), ToUint32(groupId));
    PassThrough(req, hal(ctx.device.value, req))
  }

  /** `nativeEnrollCancel`. */
  function NativeEnrollCancel(ctx: Context, hal: Hal): (r: PassThrough)
    requires ctx.device.Some?
    ensures r.request == EnrollCancel
    ensures r.status == hal(ctx.device.value, EnrollCancel)
  {
    PassThrough(EnrollCancel, hal(ctx.device.value, EnrollCancel))
  }

  /** `nativeRemove(fingerId, groupId)`: the finger id sent carries both ids. */
  function NativeRemove(ctx: Context, hal: Hal, fingerId: int32, groupId: int32): (r: PassThrough)
    requires ctx.device.Some?
    ensures r.request.Remove?
    ensures ToInt32(r.request.finger.fid) == fingerId && ToInt32(r.request.finger.gid) == groupId
    ensures r.status == hal(ctx.device.value, r.request)
  {
    Int32ThroughUint32(fingerId);
    Int32ThroughUint32(groupId);
    var req := Remove(FingerId(ToUint32(groupId), ToUint32(fingerId)));
    PassThrough(req, hal(ctx.device.value, req))
  }

  /** A HAL that confirms a removal by echoing back the finger id it was sent
      makes the listener see exactly the ids the caller asked to remove. */
  lemma RemoveEchoDeliversCallerIds(ctx: Context, hal: Hal, fingerId: int32, groupId: int32)
    requires ctx.device.Some?
    ensures var req := NativeRemove(ctx, hal, fingerId, groupId).request;
            Decode(TemplateRemoved(req.finger))
              == Post(Event(FINGERPRINT_TEMPLATE_REMOVED, fingerId, groupId, 0))
  {
  }

  /** `nativeCloseHal`: not implemented; reports ENOSYS and releases nothing. */
  function CloseHal(ctx: Context): (r: (int32, Context))
    ensures r.0 < 0 && r.0 == -ENOSYS
    ensures r.1 == ctx
  {
    (-ENOSYS, ctx)
  }
}
