/**
 * Disk attach/detach and SCSI-controller handling of the vSphere client
 * library (vclib/virtualmachine.go).
 *
 * vCenter is replaced by an abstract virtual machine whose state is its
 * device list plus the log of the device changes this code asked for.
 * Everything the code learns from outside that list comes from an Env:
 * the datastore's disk UUIDs, the UUID formatter, the supported controller
 * types, the controller limit, and which remote operations fail in the run.
 *
 * Each state-changing operation is given twice: as a step function over a
 * VmState value (the specification, about which the lemmas speak) and as a
 * method of the class VirtualMachine that performs it step by step.
 */
module Vclib {
  import opened Results

  // ---------------------------------------------------------------------
  // Devices

  datatype Sharing = NoSharing | VirtualSharing | PhysicalSharing

  /** Disk backings: only the flat version-2 backing carries a UUID. */
  datatype Backing = FlatVer2Backing(uuid: string) | OtherBacking

  /** The Go type of a device, which SelectByType and TypeName look at. */
  datatype DeviceType =
    | VirtualDiskType
    | ScsiControllerType(controllerType: string)
    | OtherType(typeName: string)

  datatype Device = Device(
    key: int,
    name: string,          // the label VirtualDeviceList.Name gives the device
    deviceType: DeviceType,
    controllerKey: int,
    backing: Backing,
    hotAddRemove: bool,    // meaningful for controllers only
    sharedBus: Sharing)    // meaningful for controllers only

  datatype ProfileSpec = DefinedProfile(profileId: string)

  datatype DeviceOperation = AddOperation | RemoveOperation

  /** One entry of a reconfigure request's DeviceChange list. */
  datatype DeviceConfigSpec = DeviceConfigSpec(operation: DeviceOperation, device: Device, profile: seq<ProfileSpec>)

  /**
   * A device change this code asked vCenter for.  A request is logged once
   * it has been sent: Reconfigure's own error means no task was created, so
   * nothing is logged, while AddDevice and RemoveDevice send the request and
   * wait for it in one call, so a failed one is logged.
   */
  datatype RemoteCall =
    | ReconfigureCall(deviceChange: seq<DeviceConfigSpec>)
    | AddDeviceCall(device: Device)
    | RemoveDeviceCall(device: Device)

  /**
   * The remote operations that can fail.  DiskInfoDevices is the device fetch
   * of GetVMDiskInfo, which runs after the reconfigure and may fail on its
   * own; ListDevices is every other device fetch.
   */
  datatype RemoteOp = ListDevices | DiskInfoDevices | Reconfigure | TaskWait | AddDevice | RemoveDevice | CreateController

  datatype VmError =
    | ErrNoDiskUUIDFound
    | ErrNoDevicesFound
    | ErrNoDiskIDFound
    | UnsupportedControllerType(controllerType: string)
    | ControllerLimitReached(limit: nat)
    | NilControllerDevice
    | DeviceNameNotFound(name: string)
    | RemoteFailed(op: RemoteOp)

  /** Everything the code learns from outside the VM's device list. */
  datatype Env = Env(
    diskUuids: map<string, string>,         // QueryVirtualDiskUuid: raw UUID of each disk path it resolves
    formatUuid: string -> string,           // formatVirtualDiskUUID
    supportedControllerTypes: set<string>,  // CheckControllerSupported
    controllerLimit: nat,                   // SCSIControllerLimit
    failing: set<RemoteOp>,                 // remote operations that fail in this run
    needsController: bool,                  // createDiskSpec finds no usable controller of the type
    newController: Device,                  // the device CreateSCSIController builds
    newDisk: Device)                        // the disk device createDiskSpec builds

  /** The abstract VM: its device list and the device changes requested so far. */
  datatype VmState = VmState(devices: seq<Device>, calls: seq<RemoteCall>)

  // ---------------------------------------------------------------------
  // Paths and UUIDs

  /** Every '.' of the path is followed by a '/': the last path element has no dot. */
  predicate NoDotInLastElement(p: string) {
    forall i :: 0 <= i < |p| && p[i] == '.' ==> '/' in p[i..]
  }

  /** filepath.Ext: the suffix from the last '.' of the last path element, or "". */
  function Ext(p: string): (r: string)
    ensures r != [] ==> r[0] == '.' && |r| <= |p| && r == p[|p| - |r|..]
    ensures r != [] ==> '.' !in r[1..] && '/' !in r
    ensures r == [] ==> NoDotInLastElement(p)
  {
    if p == [] then ""
    else if p[|p| - 1] == '/' then
      NoDotBeforeSlash(p);
      ""
    else if p[|p| - 1] == '.' then "."
    else
      var q := p[..|p| - 1];
      var e := Ext(q);
      if e == "" then
        NoDotAppend(q, p[|p| - 1]);
        assert q + [p[|p| - 1]] == p;
        ""
      else
        assert (e + [p[|p| - 1]])[1..] == e[1..] + [p[|p| - 1]];
        e + [p[|p| - 1]]
  }

  lemma NoDotBeforeSlash(p: string)
    requires p != [] && p[|p| - 1] == '/'
    ensures NoDotInLastElement(p)
  {
    forall i | 0 <= i < |p| ensures '/' in p[i..] {
      assert p[i..][|p| - 1 - i] == '/';
    }
  }

  lemma NoDotAppend(q: string, c: char)
    requires NoDotInLastElement(q) && c != '.'
    ensures NoDotInLastElement(q + [c])
  {
    var p := q + [c];
    forall i | 0 <= i < |p| && p[i] == '.' ensures '/' in p[i..] {
      assert i < |q| && q[i] == '.';
      assert p[i..] == q[i..] + [c];
    }
  }

  lemma ExtAppendChar(p: string, c: char)
    requires c != '.' && c != '/' && Ext(p) != ""
    ensures Ext(p + [c]) == Ext(p) + [c]
  {
    assert (p + [c])[..|p|] == p;
  }

  /** A suffix that starts with the only dot it holds and has no slash is exactly the extension. */
  lemma {:induction false} ExtOfSuffix(p: string, e: string)
    requires e != [] && e[0] == '.' && '.' !in e[1..] && '/' !in e
    ensures Ext(p + e) == e
    decreases |e|
  {
    if |e| == 1 {
      assert p + e == p + ".";
    } else {
      var init := e[..|e| - 1];
      var last := e[|e| - 1];
      assert e == init + [last];
      assert e[1..] == init[1..] + [last];
      ExtOfSuffix(p, init);
      assert p + e == (p + init) + [last];
      ExtAppendChar(p + init, last);
    }
  }

  lemma ExtOfVmdkPath(p: string)
    ensures Ext(p + ".vmdk") == ".vmdk"
  {
    ExtOfSuffix(p, ".vmdk");
  }

  /** The path fix-up of GetVirtualDiskUUIDByPath. */
  function WithVmdkExtension(diskPath: string): (r: string)
    ensures diskPath != "" ==> Ext(r) == ".vmdk"
    ensures r == diskPath || r == diskPath + ".vmdk"
    ensures r == diskPath <==> diskPath == "" || Ext(diskPath) == ".vmdk"
  {
    if |diskPath| > 0 && Ext(diskPath) != ".vmdk" then ExtOfVmdkPath(diskPath); diskPath + ".vmdk"
    else diskPath
  }

  /** GetVirtualDiskUUIDByPath: every failure of the query becomes ErrNoDiskUUIDFound. */
  function GetVirtualDiskUuidByPath(env: Env, diskPath: string): (r: Result<string, VmError>)
    ensures r.Ok? <==> WithVmdkExtension(diskPath) in env.diskUuids
    ensures r.Ok? ==> r.value == env.formatUuid(env.diskUuids[WithVmdkExtension(diskPath)])
    ensures r.Err? ==> r.error == ErrNoDiskUUIDFound
  {
    var path := WithVmdkExtension(diskPath);
    if path in env.diskUuids then Ok(env.formatUuid(env.diskUuids[path])) else Err(ErrNoDiskUUIDFound)
  }

  /** getVirtualDiskUUIDByDevice. */
  function GetVirtualDiskUuidByDevice(env: Env, d: Device): (r: Result<string, VmError>)
    ensures r.Ok? <==> d.backing.FlatVer2Backing?
    ensures r.Ok? ==> r.value == env.formatUuid(d.backing.uuid)
    ensures r.Err? ==> r.error == ErrNoDiskUUIDFound
  {
    if d.backing.FlatVer2Backing? then Ok(env.formatUuid(d.backing.uuid)) else Err(ErrNoDiskUUIDFound)
  }

  /** The comparison in getVirtualDeviceByPath: a disk whose UUID (or "" when it has none) is the given one. */
  predicate DiskHasUuid(env: Env, d: Device, uuid: string) {
    d.deviceType == VirtualDiskType &&
    (if d.backing.FlatVer2Backing? then env.formatUuid(d.backing.uuid) else "") == uuid
  }

  /** The first disk of the list with the given UUID. */
  function FirstDiskWithUuid(env: Env, devices: seq<Device>, uuid: string): (r: Option<Device>)
    ensures r.Some? ==> r.value in devices && DiskHasUuid(env, r.value, uuid)
  {
    if devices == [] then None
    else if DiskHasUuid(env, devices[0], uuid) then Some(devices[0])
    else FirstDiskWithUuid(env, devices[1..], uuid)
  }

  /** Device i is a disk carrying the UUID, and no device before it is. */
  predicate IsFirstDiskWithUuid(env: Env, devices: seq<Device>, i: int, uuid: string) {
    0 <= i < |devices| && DiskHasUuid(env, devices[i], uuid) &&
    forall j :: 0 <= j < i ==> !DiskHasUuid(env, devices[j], uuid)
  }

  /** No device of the list is a disk carrying the UUID. */
  predicate NoDiskWithUuid(env: Env, devices: seq<Device>, uuid: string) {
    forall i :: 0 <= i < |devices| ==> !DiskHasUuid(env, devices[i], uuid)
  }

  /** getVirtualDeviceByPath over an already fetched device list: the first disk carrying the path's UUID. */
  function VirtualDeviceByPath(env: Env, devices: seq<Device>, diskPath: string): (r: Result<Option<Device>, VmError>)
    ensures r.Ok? <==> WithVmdkExtension(diskPath) in env.diskUuids
    ensures r.Err? ==> r.error == ErrNoDiskUUIDFound
    ensures r.Ok? && r.value.Some? ==>
      r.value.value in devices && DiskHasUuid(env, r.value.value, GetVirtualDiskUuidByPath(env, diskPath).value)
    ensures r.Ok? ==> (r.value.None? <==> NoDiskWithUuid(env, devices, GetVirtualDiskUuidByPath(env, diskPath).value))
    ensures r.Ok? && r.value.Some? ==> exists i ::
      IsFirstDiskWithUuid(env, devices, i, GetVirtualDiskUuidByPath(env, diskPath).value) && devices[i] == r.value.value
  {
    match GetVirtualDiskUuidByPath(env, diskPath)
    case Err(e) => Err(e)
    case Ok(uuid) =>
      FirstDiskWithUuidIsFirstMatch(env, devices, uuid);
      Ok(FirstDiskWithUuid(env, devices, uuid))
  }

  /** getVirtualDeviceByPath, with its search loop. */
  method GetVirtualDeviceByPath(env: Env, devices: seq<Device>, diskPath: string) returns (r: Result<Option<Device>, VmError>)
    ensures r == VirtualDeviceByPath(env, devices, diskPath)
  {
    var volumeUuid := GetVirtualDiskUuidByPath(env, diskPath);
    if volumeUuid.Err? {
      return Err(volumeUuid.error);
    }
    var i := 0;
    while i < |devices|
      invariant 0 <= i <= |devices|
      invariant FirstDiskWithUuid(env, devices[i..], volumeUuid.value) == FirstDiskWithUuid(env, devices, volumeUuid.value)
    {
      var device := devices[i];
      if device.deviceType == VirtualDiskType {
        var diskUuid := GetVirtualDiskUuidByDevice(env, device);
        var uuid := if diskUuid.Ok? then diskUuid.value else "";
        if uuid == volumeUuid.value {
          return Ok(Some(device));
        }
      }
      assert devices[i..][1..] == devices[i + 1..];
      i := i + 1;
    }
    return Ok(None);
  }

  /** The search returns the first disk carrying the UUID, and nothing when there is none. */
  lemma {:induction false} FirstDiskWithUuidIsFirstMatch(env: Env, devices: seq<Device>, uuid: string)
    ensures FirstDiskWithUuid(env, devices, uuid).None? <==>
      forall i :: 0 <= i < |devices| ==> !DiskHasUuid(env, devices[i], uuid)
    ensures FirstDiskWithUuid(env, devices, uuid).Some? ==>
      exists i :: 0 <= i < |devices| && devices[i] == FirstDiskWithUuid(env, devices, uuid).value &&
        DiskHasUuid(env, devices[i], uuid) &&
        forall j :: 0 <= j < i ==> !DiskHasUuid(env, devices[j], uuid)
    ensures FirstDiskWithUuid(env, devices, uuid).Some? ==>
      FirstDiskWithUuid(env, devices, uuid).value.deviceType == VirtualDiskType
  {
    if devices != [] {
      FirstDiskWithUuidIsFirstMatch(env, devices[1..], uuid);
      if !DiskHasUuid(env, devices[0], uuid) {
        if FirstDiskWithUuid(env, devices, uuid).Some? {
          var i :| 0 <= i < |devices[1..]| && devices[1..][i] == FirstDiskWithUuid(env, devices, uuid).value &&
            DiskHasUuid(env, devices[1..][i], uuid) &&
            forall j :: 0 <= j < i ==> !DiskHasUuid(env, devices[1..][j], uuid);
          assert devices[i + 1] == devices[1..][i];
          assert forall j :: 0 <= j < i + 1 ==> !DiskHasUuid(env, devices[j], uuid) by {
            forall j | 0 <= j < i + 1 ensures !DiskHasUuid(env, devices[j], uuid) {
              if j > 0 { assert devices[j] == devices[1..][j - 1]; }
            }
          }
        } else {
          forall i | 0 <= i < |devices| ensures !DiskHasUuid(env, devices[i], uuid) {
            if i > 0 { assert devices[i] == devices[1..][i - 1]; }
          }
        }
      }
    }
  }

  lemma {:induction false} FirstDiskWithUuidAppend(env: Env, devices: seq<Device>, extra: seq<Device>, uuid: string)
    ensures FirstDiskWithUuid(env, devices, uuid).Some? ==>
      FirstDiskWithUuid(env, devices + extra, uuid) == FirstDiskWithUuid(env, devices, uuid)
    ensures FirstDiskWithUuid(env, devices, uuid).None? ==>
      FirstDiskWithUuid(env, devices + extra, uuid) == FirstDiskWithUuid(env, extra, uuid)
  {
    if devices == [] {
      assert devices + extra == extra;
    } else {
      assert (devices + extra)[1..] == devices[1..] + extra;
      FirstDiskWithUuidAppend(env, devices[1..], extra, uuid);
    }
  }

  // ---------------------------------------------------------------------
  // Lookups over the fetched device list

  /** GetVirtualDiskControllerKey. */
  function GetVirtualDiskControllerKey(env: Env, devices: seq<Device>, diskPath: string): (r: Result<int, VmError>)
    ensures r.Ok? ==> exists d :: d in devices && d.deviceType == VirtualDiskType && d.controllerKey == r.value
    ensures r.Ok? ==> WithVmdkExtension(diskPath) in env.diskUuids && exists i ::
      IsFirstDiskWithUuid(env, devices, i, GetVirtualDiskUuidByPath(env, diskPath).value) && devices[i].controllerKey == r.value
    ensures r.Err? ==> r.error in {RemoteFailed(ListDevices), ErrNoDiskUUIDFound, ErrNoDevicesFound}
    ensures r.Err? && r.error == RemoteFailed(ListDevices) <==> ListDevices in env.failing
    ensures r == Err(ErrNoDiskUUIDFound) <==> ListDevices !in env.failing && WithVmdkExtension(diskPath) !in env.diskUuids
    ensures r == Err(ErrNoDevicesFound) <==>
      ListDevices !in env.failing && WithVmdkExtension(diskPath) in env.diskUuids &&
      NoDiskWithUuid(env, devices, GetVirtualDiskUuidByPath(env, diskPath).value)
  {
    if ListDevices in env.failing then Err(RemoteFailed(ListDevices))
    else match VirtualDeviceByPath(env, devices, diskPath)
      case Err(e) => Err(e)
      case Ok(Some(d)) => Ok(d.controllerKey)
      case Ok(None) => Err(ErrNoDevicesFound)
  }

  /** GetVirtualDiskID: the name of the device holding the disk. */
  function GetVirtualDiskId(env: Env, devices: seq<Device>, diskPath: string): (r: Result<string, VmError>)
    ensures r.Ok? ==> exists d :: d in devices && d.deviceType == VirtualDiskType && d.name == r.value
    ensures r.Ok? ==> WithVmdkExtension(diskPath) in env.diskUuids && exists i ::
      IsFirstDiskWithUuid(env, devices, i, GetVirtualDiskUuidByPath(env, diskPath).value) && devices[i].name == r.value
    ensures r.Err? ==> r.error in {RemoteFailed(ListDevices), ErrNoDiskUUIDFound, ErrNoDiskIDFound}
    ensures r.Err? && r.error == RemoteFailed(ListDevices) <==> ListDevices in env.failing
    ensures r == Err(ErrNoDiskUUIDFound) <==> ListDevices !in env.failing && WithVmdkExtension(diskPath) !in env.diskUuids
    ensures r == Err(ErrNoDiskIDFound) <==>
      ListDevices !in env.failing && WithVmdkExtension(diskPath) in env.diskUuids &&
      NoDiskWithUuid(env, devices, GetVirtualDiskUuidByPath(env, diskPath).value)
  {
    if ListDevices in env.failing then Err(RemoteFailed(ListDevices))
    else match VirtualDeviceByPath(env, devices, diskPath)
      case Err(e) => Err(e)
      case Ok(Some(d)) => Ok(d.name)
      case Ok(None) => Err(ErrNoDiskIDFound)
  }

  /** IsDiskAttached. */
  function IsDiskAttached(env: Env, devices: seq<Device>, diskPath: string): (r: Result<bool, VmError>)
    ensures r == Ok(true) ==> exists d :: d in devices && d.deviceType == VirtualDiskType
    ensures r.Err? ==> r.error == RemoteFailed(ListDevices) || r.error == ErrNoDiskUUIDFound
    ensures r.Err? ==> GetVirtualDiskControllerKey(env, devices, diskPath) == Err(r.error)
  {
    match GetVirtualDiskControllerKey(env, devices, diskPath)
    case Err(ErrNoDevicesFound) => Ok(false)
    case Err(e) => Err(e)
    case Ok(_) => Ok(true)
  }

  /**
   * IsDiskAttached turns "no such device" into false, a found device into
   * true, and passes every other error through unchanged.
   */
  lemma IsDiskAttachedMeaning(env: Env, devices: seq<Device>, diskPath: string)
    ensures IsDiskAttached(env, devices, diskPath) == Ok(true) <==>
      ListDevices !in env.failing && GetVirtualDiskUuidByPath(env, diskPath).Ok? &&
      exists i :: 0 <= i < |devices| && DiskHasUuid(env, devices[i], GetVirtualDiskUuidByPath(env, diskPath).value)
    ensures IsDiskAttached(env, devices, diskPath) == Ok(false) <==>
      GetVirtualDiskControllerKey(env, devices, diskPath) == Err(ErrNoDevicesFound)
    ensures IsDiskAttached(env, devices, diskPath).Err? <==>
      GetVirtualDiskControllerKey(env, devices, diskPath).Err? && GetVirtualDiskControllerKey(env, devices, diskPath) != Err(ErrNoDevicesFound)
    ensures IsDiskAttached(env, devices, diskPath).Err? ==>
      IsDiskAttached(env, devices, diskPath).error in {RemoteFailed(ListDevices), ErrNoDiskUUIDFound}
    ensures IsDiskAttached(env, devices, diskPath).Err? ==>
      IsDiskAttached(env, devices, diskPath).error == GetVirtualDiskControllerKey(env, devices, diskPath).error
  {
    if ListDevices !in env.failing && GetVirtualDiskUuidByPath(env, diskPath).Ok? {
      FirstDiskWithUuidIsFirstMatch(env, devices, GetVirtualDiskUuidByPath(env, diskPath).value);
    }
  }

  /**
   * The devices of the list with the given Go type, in list order
   * (VirtualDeviceList.SelectByType).  SelectByTypeConcat gives the order,
   * SelectByTypeCount the multiplicities and SelectByTypeLast the last element.
   */
  function SelectByType(devices: seq<Device>, t: DeviceType): (r: seq<Device>)
    ensures forall d :: d in r <==> d in devices && d.deviceType == t
    ensures |r| <= |devices|
  {
    if devices == [] then []
    else
      assert devices == [devices[0]] + devices[1..];
      if devices[0].deviceType == t then [devices[0]] + SelectByType(devices[1..], t)
      else SelectByType(devices[1..], t)
  }

  /** A list with no device of the type selects nothing. */
  lemma SelectByTypeNone(devices: seq<Device>, t: DeviceType)
    requires forall d :: d in devices ==> d.deviceType != t
    ensures SelectByType(devices, t) == []
  {
  }

  /** A list of devices all of the type is selected whole. */
  lemma {:induction false} SelectByTypeAll(devices: seq<Device>, t: DeviceType)
    requires forall d :: d in devices ==> d.deviceType == t
    ensures SelectByType(devices, t) == devices
  {
    if devices != [] {
      assert devices[0] in devices;
      assert forall d :: d in devices[1..] ==> d in devices;
      SelectByTypeAll(devices[1..], t);
      assert devices == [devices[0]] + devices[1..];
    }
  }

  /** Selecting from two lists one after the other: the order of the list is kept. */
  lemma {:induction false} SelectByTypeConcat(a: seq<Device>, b: seq<Device>, t: DeviceType)
    ensures SelectByType(a + b, t) == SelectByType(a, t) + SelectByType(b, t)
  {
    if a == [] {
      assert a + b == b;
    } else {
      assert (a + b)[1..] == a[1..] + b;
      SelectByTypeConcat(a[1..], b, t);
    }
  }

  /** Each device of the type is selected as often as it occurs, so the length is the number of such devices. */
  lemma {:induction false} SelectByTypeCount(devices: seq<Device>, t: DeviceType)
    ensures forall d :: multiset(SelectByType(devices, t))[d] == if d.deviceType == t then multiset(devices)[d] else 0
  {
    if devices != [] {
      assert devices == [devices[0]] + devices[1..];
      SelectByTypeCount(devices[1..], t);
    }
  }

  /** Index i holds the last device of type t in the list. */
  predicate IsLastOfType(devices: seq<Device>, i: int, t: DeviceType) {
    0 <= i < |devices| && devices[i].deviceType == t && forall j :: i < j < |devices| ==> devices[j].deviceType != t
  }

  /** The last device selected is the last device of the type in the list. */
  /** The selection of the type ends with devices[i]. */
  predicate SelectionEndsWith(devices: seq<Device>, t: DeviceType, i: int) {
    var selected := SelectByType(devices, t);
    0 <= i < |devices| && selected != [] && selected[|selected| - 1] == devices[i]
  }

  lemma SelectByTypeLast(devices: seq<Device>, t: DeviceType, i: int)
    requires IsLastOfType(devices, i, t)
    ensures SelectionEndsWith(devices, t, i)
  {
    var pre := devices[..i];
    var post := devices[i + 1..];
    assert devices == pre + [devices[i]] + post;
    forall d | d in post ensures d.deviceType != t {
      var k :| 0 <= k < |post| && post[k] == d;
      assert d == devices[i + 1 + k];
    }
    SelectByTypeNone(post, t);
    SelectByTypeConcat(pre + [devices[i]], post, t);
    SelectByTypeAppend(pre, devices[i], t);
  }

  lemma SelectByTypeLastAll(devices: seq<Device>, t: DeviceType)
    ensures forall i :: IsLastOfType(devices, i, t) ==> SelectionEndsWith(devices, t, i)
  {
    forall i | IsLastOfType(devices, i, t) ensures SelectionEndsWith(devices, t, i) {
      SelectByTypeLast(devices, t, i);
    }
  }


  /** getSCSIControllers: the SCSI controllers of every type. */
  function ScsiControllers(devices: seq<Device>): (r: seq<Device>)
    ensures forall d :: d in r <==> d in devices && d.deviceType.ScsiControllerType?
    ensures (forall d :: d in devices ==> d.deviceType.ScsiControllerType?) ==> r == devices
  {
    if devices == [] then []
    else
      assert devices == [devices[0]] + devices[1..];
      if devices[0].deviceType.ScsiControllerType? then [devices[0]] + ScsiControllers(devices[1..])
      else ScsiControllers(devices[1..])
  }

  /** Each SCSI controller is selected as often as it occurs, so the length is the number of controllers. */
  lemma {:induction false} ScsiControllersCount(devices: seq<Device>)
    ensures forall d :: multiset(ScsiControllers(devices))[d] ==
                        if d.deviceType.ScsiControllerType? then multiset(devices)[d] else 0
  {
    if devices != [] {
      assert devices == [devices[0]] + devices[1..];
      ScsiControllersCount(devices[1..]);
    }
  }

  /** Appending a device adds one to the controller count exactly when it is a SCSI controller. */
  lemma {:induction false} ScsiControllersAppend(devices: seq<Device>, d: Device)
    ensures ScsiControllers(devices + [d]) == ScsiControllers(devices) + (if d.deviceType.ScsiControllerType? then [d] else [])
    ensures |ScsiControllers(devices + [d])| == |ScsiControllers(devices)| + (if d.deviceType.ScsiControllerType? then 1 else 0)
  {
    if devices == [] {
      assert devices + [d] == [d];
    } else {
      assert (devices + [d])[1..] == devices[1..] + [d];
      ScsiControllersAppend(devices[1..], d);
    }
  }

  /** VirtualDeviceList.Find: the first device with the given name. */
  function FindByName(devices: seq<Device>, name: string): (r: Option<Device>)
    ensures r.Some? ==> r.value in devices && r.value.name == name
    ensures r.None? <==> forall d :: d in devices ==> d.name != name
  {
    if devices == [] then None
    else if devices[0].name == name then Some(devices[0])
    else FindByName(devices[1..], name)
  }

  /** The device found is the first one with the name. */
  lemma {:induction false} FindByNameIsFirst(devices: seq<Device>, name: string, i: int)
    requires 0 <= i < |devices| && devices[i].name == name
    requires forall j :: 0 <= j < i ==> devices[j].name != name
    ensures FindByName(devices, name) == Some(devices[i])
  {
    if i > 0 {
      assert devices[1..][i - 1] == devices[i];
      forall j | 0 <= j < i - 1 ensures devices[1..][j].name != name {
        assert devices[1..][j] == devices[j + 1];
      }
      FindByNameIsFirst(devices[1..], name, i - 1);
    }
  }

  /** GetVMDiskInfo: name and UUID of the last disk of the list. */
  function GetVmDiskInfo(env: Env, devices: seq<Device>): (r: Result<(string, string), VmError>)
    ensures r.Err? ==> r.error in {RemoteFailed(DiskInfoDevices), ErrNoDevicesFound, ErrNoDiskUUIDFound}
    ensures DiskInfoDevices in env.failing ==> r == Err(RemoteFailed(DiskInfoDevices))
    ensures r == Err(ErrNoDevicesFound) <==>
      DiskInfoDevices !in env.failing && forall d :: d in devices ==> d.deviceType != VirtualDiskType
    ensures forall i :: IsLastOfType(devices, i, VirtualDiskType) && DiskInfoDevices !in env.failing ==>
      (r.Ok? <==> devices[i].backing.FlatVer2Backing?) &&
      (r.Ok? ==> r.value == (devices[i].name, env.formatUuid(devices[i].backing.uuid)))
  {
    SelectByTypeLastAll(devices, VirtualDiskType);
    if DiskInfoDevices in env.failing then Err(RemoteFailed(DiskInfoDevices))
    else
      var disks := SelectByType(devices, VirtualDiskType);
      if |disks| < 1 then Err(ErrNoDevicesFound)
      else
        var newDevice := disks[|disks| - 1];
        match GetVirtualDiskUuidByDevice(env, newDevice)
        case Err(e) => Err(e)
        case Ok(uuid) => Ok((newDevice.name, uuid))
  }

  lemma {:induction false} SelectByTypeAppend(devices: seq<Device>, d: Device, t: DeviceType)
    ensures SelectByType(devices + [d], t) == SelectByType(devices, t) + (if d.deviceType == t then [d] else [])
  {
    if devices == [] {
      assert devices + [d] == [d];
    } else {
      assert (devices + [d])[1..] == devices[1..] + [d];
      SelectByTypeAppend(devices[1..], d, t);
    }
  }

  /** Disk info after a disk has been appended describes that disk. */
  lemma DiskInfoOfAppendedDisk(env: Env, devices: seq<Device>, disk: Device)
    requires DiskInfoDevices !in env.failing && disk.deviceType == VirtualDiskType
    ensures GetVmDiskInfo(env, devices + [disk]).Ok? <==> disk.backing.FlatVer2Backing?
    ensures GetVmDiskInfo(env, devices + [disk]).Ok? ==>
      GetVmDiskInfo(env, devices + [disk]).value == (disk.name, env.formatUuid(disk.backing.uuid))
  {
    assert IsLastOfType(devices + [disk], |devices|, VirtualDiskType);
  }

  // ---------------------------------------------------------------------
  // Remote device changes and the operations built on them

  /**
   * The list without the given device, the others in their order (what
   * vCenter's device list is after RemoveDevice).  WithoutConcat gives the order.
   */
  function Without(devices: seq<Device>, d: Device): (r: seq<Device>)
    ensures forall x :: x in r <==> x in devices && x != d
    ensures d !in devices ==> r == devices
  {
    if devices == [] then []
    else
      assert devices == [devices[0]] + devices[1..];
      if devices[0] == d then Without(devices[1..], d)
      else [devices[0]] + Without(devices[1..], d)
  }

  /** Every occurrence of the device goes, and every other device keeps its multiplicity. */
  lemma {:induction false} WithoutCount(devices: seq<Device>, d: Device)
    ensures forall x :: multiset(Without(devices, d))[x] == if x == d then 0 else multiset(devices)[x]
  {
    if devices != [] {
      assert devices == [devices[0]] + devices[1..];
      WithoutCount(devices[1..], d);
    }
  }

  /** Removing from two lists one after the other: the remaining devices keep their order. */
  lemma {:induction false} WithoutConcat(a: seq<Device>, b: seq<Device>, d: Device)
    ensures Without(a + b, d) == Without(a, d) + Without(b, d)
  {
    if a == [] {
      assert a + b == b;
    } else {
      assert (a + b)[1..] == a[1..] + b;
      WithoutConcat(a[1..], b, d);
    }
  }

  lemma {:induction false} WithoutAppendedFresh(devices: seq<Device>, d: Device)
    requires d !in devices
    ensures Without(devices + [d], d) == devices
  {
    if devices == [] {
      assert devices + [d] == [d];
    } else {
      assert (devices + [d])[1..] == devices[1..] + [d];
      WithoutAppendedFresh(devices[1..], d);
    }
  }

  /** VirtualMachine.AddDevice: the request is logged; unless it fails the device is appended. */
  function AddDeviceStep(env: Env, s: VmState, d: Device): (r: (Result<(), VmError>, VmState))
    ensures r.1.calls == s.calls + [AddDeviceCall(d)]
    ensures r.0.Ok? <==> AddDevice !in env.failing
    ensures r.0.Ok? ==> r.1.devices == s.devices + [d]
    ensures r.0.Err? ==> r.1.devices == s.devices
  {
    var logged := s.(calls := s.calls + [AddDeviceCall(d)]);
    if AddDevice in env.failing then (Err(RemoteFailed(AddDevice)), logged)
    else (Ok(()), logged.(devices := s.devices + [d]))
  }

  /** VirtualMachine.RemoveDevice: the request is logged; unless it fails the device is gone. */
  function RemoveDeviceStep(env: Env, s: VmState, d: Device): (r: (Result<(), VmError>, VmState))
    ensures r.1.calls == s.calls + [RemoveDeviceCall(d)]
    ensures r.0.Ok? <==> RemoveDevice !in env.failing
    ensures r.0.Ok? ==> forall x :: x in r.1.devices <==> x in s.devices && x != d
    ensures r.0.Ok? && d !in s.devices ==> r.1.devices == s.devices
    ensures r.0.Err? ==> r.1.devices == s.devices
  {
    var logged := s.(calls := s.calls + [RemoveDeviceCall(d)]);
    if RemoveDevice in env.failing then (Err(RemoteFailed(RemoveDevice)), logged)
    else (Ok(()), logged.(devices := Without(s.devices, d)))
  }

  /** Reconfigure followed by task.Wait with one add change; the device appears only if both succeed. */
  function ReconfigureStep(env: Env, s: VmState, change: DeviceConfigSpec): (r: (Result<(), VmError>, VmState))
    ensures r.0.Ok? <==> Reconfigure !in env.failing && TaskWait !in env.failing
    ensures r.0.Ok? ==> r.1.devices == s.devices + [change.device]
    ensures r.0.Err? ==> r.1.devices == s.devices
    ensures r.1.calls == s.calls + if Reconfigure in env.failing then [] else [ReconfigureCall([change])]
  {
    var logged := s.(calls := s.calls + [ReconfigureCall([change])]);
    if Reconfigure in env.failing then (Err(RemoteFailed(Reconfigure)), s)
    else if TaskWait in env.failing then (Err(RemoteFailed(TaskWait)), logged)
    else (Ok(()), logged.(devices := s.devices + [change.device]))
  }

  /** DeleteController: removes the LAST device of the controller's type. */
  function DeleteControllerStep(env: Env, s: VmState, controller: Option<Device>): (r: (Result<(), VmError>, VmState))
    ensures controller.None? ==> r == (Err(NilControllerDevice), s)
    ensures ListDevices in env.failing ==> r.1 == s
    ensures controller.Some? && ListDevices in env.failing ==> r == (Err(RemoteFailed(ListDevices)), s)
    ensures controller.Some? && ListDevices !in env.failing && (forall d :: d in s.devices ==> d.deviceType != controller.value.deviceType)
      ==> r == (Err(ErrNoDevicesFound), s)
    ensures forall i :: (controller.Some? && ListDevices !in env.failing && IsLastOfType(s.devices, i, controller.value.deviceType)
                         ==> r == RemoveDeviceStep(env, s, s.devices[i]))
  {
    if controller.None? then (Err(NilControllerDevice), s)
    else if ListDevices in env.failing then (Err(RemoteFailed(ListDevices)), s)
    else
      SelectByTypeLastAll(s.devices, controller.value.deviceType);
      var sameType := SelectByType(s.devices, controller.value.deviceType);
      if |sameType| < 1 then (Err(ErrNoDevicesFound), s)
      else
        assert sameType[|sameType| - 1] in sameType;
        RemoveDeviceStep(env, s, sameType[|sameType| - 1])
  }

  /** The controller CreateSCSIController builds, with the settings createAndAttachSCSIController gives it. */
  function NewScsiController(env: Env, controllerType: string): Device {
    env.newController.(deviceType := ScsiControllerType(controllerType), hotAddRemove := true, sharedBus := NoSharing)
  }

  /** createAndAttachSCSIController. */
  function CreateAndAttachScsiControllerStep(env: Env, s: VmState, controllerType: string): (r: (Result<Device, VmError>, VmState))
    ensures r.0 == Err(ControllerLimitReached(env.controllerLimit)) <==>
      ListDevices !in env.failing && |ScsiControllers(s.devices)| >= env.controllerLimit
    ensures r.0.Ok? ==> r.0.value == NewScsiController(env, controllerType)
    ensures r.0.Ok? ==> r.1 == VmState(s.devices + [r.0.value], s.calls + [AddDeviceCall(r.0.value)])
    ensures r.0.Ok? ==> |ScsiControllers(r.1.devices)| == |ScsiControllers(s.devices)| + 1 <= env.controllerLimit
    ensures ListDevices in env.failing ==> r == (Err(RemoteFailed(ListDevices)), s)
    ensures ListDevices !in env.failing && |ScsiControllers(s.devices)| < env.controllerLimit && CreateController in env.failing ==>
      r == (Err(RemoteFailed(CreateController)), s)
    // a failed add is undone by deleting the last controller of the new controller's type
    ensures ListDevices !in env.failing && |ScsiControllers(s.devices)| < env.controllerLimit && CreateController !in env.failing ==>
      (r.0.Ok? <==> AddDevice !in env.failing)
    ensures (ListDevices !in env.failing && |ScsiControllers(s.devices)| < env.controllerLimit && CreateController !in env.failing &&
             AddDevice in env.failing) ==>
      var logged := s.(calls := s.calls + [AddDeviceCall(NewScsiController(env, controllerType))]);
      r == (Err(RemoteFailed(AddDevice)), DeleteControllerStep(env, logged, Some(NewScsiController(env, controllerType))).1)
  {
    ScsiControllersAppend(s.devices, NewScsiController(env, controllerType));
    if ListDevices in env.failing then (Err(RemoteFailed(ListDevices)), s)
    else if |ScsiControllers(s.devices)| >= env.controllerLimit then (Err(ControllerLimitReached(env.controllerLimit)), s)
    else if CreateController in env.failing then (Err(RemoteFailed(CreateController)), s)
    else
      var controller := NewScsiController(env, controllerType);
      var added := AddDeviceStep(env, s, controller);
      if added.0.Err? then
        var cleaned := DeleteControllerStep(env, added.1, Some(controller));
        (Err(added.0.error), cleaned.1)
      else (Ok(controller), added.1)
  }

  /** DetachDisk. */
  function DetachDiskStep(env: Env, s: VmState, diskPath: string): (r: (Result<(), VmError>, VmState))
    ensures r.0.Ok? ==> exists d :: d in s.devices && r.1 == VmState(Without(s.devices, d), s.calls + [RemoveDeviceCall(d)])
    ensures r.0.Err? ==> r.1.devices == s.devices
    ensures ListDevices in env.failing ==> r == (Err(RemoteFailed(ListDevices)), s)
    ensures GetVirtualDiskId(env, s.devices, diskPath).Err? ==> r == (Err(GetVirtualDiskId(env, s.devices, diskPath).error), s)
    // otherwise the device named by the disk ID is removed
    ensures GetVirtualDiskId(env, s.devices, diskPath).Ok? ==>
      exists d :: d in s.devices && d.name == GetVirtualDiskId(env, s.devices, diskPath).value && r == RemoveDeviceStep(env, s, d)
  {
    if ListDevices in env.failing then (Err(RemoteFailed(ListDevices)), s)
    else match GetVirtualDiskId(env, s.devices, diskPath)
      case Err(e) => (Err(e), s)
      case Ok(diskId) =>
        match FindByName(s.devices, diskId)
        case None => (Err(DeviceNameNotFound(diskId)), s)
        case Some(device) => RemoveDeviceStep(env, s, device)
  }

  /** The add change for the disk, with a profile entry only for a non-empty policy ID. */
  function AddDiskSpec(disk: Device, storagePolicyId: string): DeviceConfigSpec {
    DeviceConfigSpec(AddOperation, disk, if storagePolicyId != "" then [DefinedProfile(storagePolicyId)] else [])
  }

  /** The disk device createDiskSpec builds. */
  function NewDisk(env: Env): Device {
    env.newDisk.(deviceType := VirtualDiskType)
  }

  /** What a successful attach reports. */
  datatype AttachInfo = AttachInfo(deviceName: string, diskUuid: string)

  /** The part of createDiskSpec this model keeps: a new controller when none is usable. */
  function DiskSpecStep(env: Env, s: VmState, controllerType: string): (r: (Result<Option<Device>, VmError>, VmState))
    ensures r.0.Ok? ==> (r.0.value.Some? <==> env.needsController)
    ensures r.0.Ok? && r.0.value.None? ==> r.1 == s
    ensures r.0.Ok? && r.0.value.Some? ==> r.0.value.value == NewScsiController(env, controllerType)
    ensures r.0.Ok? && r.0.value.Some? ==> r.1 == VmState(s.devices + [r.0.value.value], s.calls + [AddDeviceCall(r.0.value.value)])
  {
    if env.needsController then
      var created := CreateAndAttachScsiControllerStep(env, s, controllerType);
      if created.0.Err? then (Err(created.0.error), created.1) else (Ok(Some(created.0.value)), created.1)
    else (Ok(None), s)
  }

  /** Deletes the controller this request created, if any. */
  function RollbackStep(env: Env, s: VmState, newController: Option<Device>): VmState {
    if newController.Some? then DeleteControllerStep(env, s, newController).1 else s
  }

  /** The part of AttachDisk after createDiskSpec: reconfigure, read back the disk, roll back on failure. */
  function CommitStep(env: Env, s: VmState, diskPath: string, storagePolicyId: string, newController: Option<Device>)
    : (r: (Result<AttachInfo, VmError>, VmState))
    ensures r.0.Ok? ==> r.1 == VmState(s.devices + [NewDisk(env)], s.calls + [ReconfigureCall([AddDiskSpec(NewDisk(env), storagePolicyId)])])
    ensures r.0.Ok? ==> NewDisk(env).backing.FlatVer2Backing?
    ensures r.0.Ok? ==> r.0.value == AttachInfo(NewDisk(env).name, env.formatUuid(NewDisk(env).backing.uuid))
  {
    var reconfigured := ReconfigureStep(env, s, AddDiskSpec(NewDisk(env), storagePolicyId));
    if reconfigured.0.Err? then (Err(reconfigured.0.error), RollbackStep(env, reconfigured.1, newController))
    else match GetVmDiskInfo(env, reconfigured.1.devices)
      case Err(e) =>
        var rolledBack := RollbackStep(env, reconfigured.1, newController);
        (Err(e), DetachDiskStep(env, rolledBack, diskPath).1)
      case Ok(info) =>
        DiskInfoOfAppendedDisk(env, s.devices, NewDisk(env));
        (Ok(AttachInfo(info.0, info.1)), reconfigured.1)
  }

  /** AttachDisk, in the three-value form its body returns. */
  function AttachDiskStep(env: Env, s: VmState, diskPath: string, storagePolicyId: string, controllerType: string)
    : (r: (Result<AttachInfo, VmError>, VmState))
    ensures controllerType !in env.supportedControllerTypes ==> r == (Err(UnsupportedControllerType(controllerType)), s)
    ensures r.0.Ok? ==> (r.1 == s <==> IsDiskAttached(env, s.devices, diskPath) == Ok(true))
    ensures r.0.Ok? && r.1 != s ==>
      || r.1.devices == s.devices + [NewDisk(env)]
      || r.1.devices == s.devices + [NewScsiController(env, controllerType), NewDisk(env)]
    ensures controllerType in env.supportedControllerTypes && IsDiskAttached(env, s.devices, diskPath).Err? ==>
      r == (Err(IsDiskAttached(env, s.devices, diskPath).error), s)
    ensures (controllerType in env.supportedControllerTypes && IsDiskAttached(env, s.devices, diskPath) == Ok(false) &&
             DiskSpecStep(env, s, controllerType).0.Err?) ==>
      r == (Err(DiskSpecStep(env, s, controllerType).0.error), DiskSpecStep(env, s, controllerType).1)
  {
    if controllerType !in env.supportedControllerTypes then (Err(UnsupportedControllerType(controllerType)), s)
    else match IsDiskAttached(env, s.devices, diskPath)
      case Err(e) => (Err(e), s)
      case Ok(true) =>
        var uuid := GetVirtualDiskUuidByPath(env, diskPath);
        (Ok(AttachInfo("", if uuid.Ok? then uuid.value else "")), s)
      case Ok(false) =>
        var spec := DiskSpecStep(env, s, controllerType);
        if spec.0.Err? then (Err(spec.0.error), spec.1)
        else
          var committed := CommitStep(env, spec.1, diskPath, storagePolicyId, spec.0.value);
          assert committed.0.Ok? ==> |committed.1.devices| > |s.devices|;
          committed
  }

  // ---------------------------------------------------------------------
  // Properties of the operations

  /** An attached disk short-circuits: its UUID is returned and nothing is requested. */
  lemma AttachWhenAttachedChangesNothing(env: Env, s: VmState, diskPath: string, storagePolicyId: string, controllerType: string)
    requires controllerType in env.supportedControllerTypes
    requires ListDevices !in env.failing && GetVirtualDiskUuidByPath(env, diskPath).Ok?
    requires exists i :: 0 <= i < |s.devices| && DiskHasUuid(env, s.devices[i], GetVirtualDiskUuidByPath(env, diskPath).value)
    ensures AttachDiskStep(env, s, diskPath, storagePolicyId, controllerType) ==
      (Ok(AttachInfo("", GetVirtualDiskUuidByPath(env, diskPath).value)), s)
  {
    IsDiskAttachedMeaning(env, s.devices, diskPath);
  }

  /**
   * Attaching twice: once a first attach has succeeded with a disk that is
   * the one at the path, a second attach returns the same UUID and requests
   * nothing more.
   */
  lemma AttachTwiceIsIdempotent(env: Env, s: VmState, diskPath: string, storagePolicyId: string, controllerType: string)
    requires WithVmdkExtension(diskPath) in env.diskUuids
    requires env.newDisk.backing == FlatVer2Backing(env.diskUuids[WithVmdkExtension(diskPath)])
    requires AttachDiskStep(env, s, diskPath, storagePolicyId, controllerType).0.Ok?
    ensures var first := AttachDiskStep(env, s, diskPath, storagePolicyId, controllerType);
      var second := AttachDiskStep(env, first.1, diskPath, storagePolicyId, controllerType);
      second == (Ok(AttachInfo("", first.0.value.diskUuid)), first.1)
  {
    var first := AttachDiskStep(env, s, diskPath, storagePolicyId, controllerType);
    var uuid := GetVirtualDiskUuidByPath(env, diskPath).value;
    if IsDiskAttached(env, s.devices, diskPath) == Ok(true) {
      IsDiskAttachedMeaning(env, s.devices, diskPath);
    } else {
      var spec := DiskSpecStep(env, s, controllerType);
      var disk := NewDisk(env);
      FreshAttachAppendsDisk(env, s, diskPath, storagePolicyId, controllerType);
      DiskInfoOfAppendedDisk(env, spec.1.devices, disk);
      assert first.0.value.diskUuid == uuid;
      assert DiskHasUuid(env, disk, uuid);
      FirstDiskWithUuidIsFirstMatch(env, [disk], uuid);
      FirstDiskWithUuidAppend(env, spec.1.devices, [disk], uuid);
      IsDiskAttachedMeaning(env, first.1.devices, diskPath);
      FirstDiskWithUuidIsFirstMatch(env, first.1.devices, uuid);
    }
  }

  /** A successful attach of a disk that was not attached appends the new disk and reports its info. */
  lemma FreshAttachAppendsDisk(env: Env, s: VmState, diskPath: string, storagePolicyId: string, controllerType: string)
    requires IsDiskAttached(env, s.devices, diskPath) == Ok(false)
    requires AttachDiskStep(env, s, diskPath, storagePolicyId, controllerType).0.Ok?
    ensures var first := AttachDiskStep(env, s, diskPath, storagePolicyId, controllerType);
      var devices := DiskSpecStep(env, s, controllerType).1.devices + [NewDisk(env)];
      && first.1.devices == devices
      && GetVmDiskInfo(env, devices).Ok?
      && first.0.value == AttachInfo(GetVmDiskInfo(env, devices).value.0, GetVmDiskInfo(env, devices).value.1)
  {
    var spec := DiskSpecStep(env, s, controllerType);
    assert AttachDiskStep(env, s, diskPath, storagePolicyId, controllerType)
      == CommitStep(env, spec.1, diskPath, storagePolicyId, spec.0.value);
  }

  /** The calls of t begin with those of s. */
  predicate Extends(s: VmState, t: VmState) {
    |s.calls| <= |t.calls| && t.calls[..|s.calls|] == s.calls
  }

  /** t only appends calls to those of s, and none of them is a reconfigure. */
  predicate AddsNoReconfigure(s: VmState, t: VmState) {
    Extends(s, t) && forall i :: |s.calls| <= i < |t.calls| ==> !t.calls[i].ReconfigureCall?
  }

  lemma AddsNoReconfigureTrans(s: VmState, t: VmState, u: VmState)
    requires AddsNoReconfigure(s, t) && AddsNoReconfigure(t, u)
    ensures AddsNoReconfigure(s, u)
  {
    assert u.calls[..|s.calls|] == u.calls[..|t.calls|][..|s.calls|];
    forall i | |s.calls| <= i < |u.calls| ensures !u.calls[i].ReconfigureCall? {
      if i < |t.calls| { assert u.calls[i] == u.calls[..|t.calls|][i]; }
    }
  }

  lemma RemoveDeviceAddsNoReconfigure(env: Env, s: VmState, d: Device)
    ensures AddsNoReconfigure(s, RemoveDeviceStep(env, s, d).1)
  {
    assert (s.calls + [RemoveDeviceCall(d)])[..|s.calls|] == s.calls;
  }

  lemma DeleteControllerAddsNoReconfigure(env: Env, s: VmState, controller: Option<Device>)
    ensures AddsNoReconfigure(s, DeleteControllerStep(env, s, controller).1)
  {
    if controller.Some? && ListDevices !in env.failing {
      var sameType := SelectByType(s.devices, controller.value.deviceType);
      if |sameType| >= 1 {
        RemoveDeviceAddsNoReconfigure(env, s, sameType[|sameType| - 1]);
      }
    }
  }

  lemma DiskSpecAddsNoReconfigure(env: Env, s: VmState, controllerType: string)
    ensures AddsNoReconfigure(s, DiskSpecStep(env, s, controllerType).1)
  {
    if env.needsController && ListDevices !in env.failing && |ScsiControllers(s.devices)| < env.controllerLimit
      && CreateController !in env.failing
    {
      var controller := NewScsiController(env, controllerType);
      var added := AddDeviceStep(env, s, controller);
      assert added.1.calls[..|s.calls|] == s.calls;
      if added.0.Err? {
        DeleteControllerAddsNoReconfigure(env, added.1, Some(controller));
        AddsNoReconfigureTrans(s, added.1, DeleteControllerStep(env, added.1, Some(controller)).1);
      }
    }
  }

  lemma DetachAddsNoReconfigure(env: Env, s: VmState, diskPath: string)
    ensures AddsNoReconfigure(s, DetachDiskStep(env, s, diskPath).1)
  {
    if ListDevices !in env.failing && GetVirtualDiskId(env, s.devices, diskPath).Ok? {
      var found := FindByName(s.devices, GetVirtualDiskId(env, s.devices, diskPath).value);
      if found.Some? {
        RemoveDeviceAddsNoReconfigure(env, s, found.value);
      }
    }
  }

  lemma RollbackAddsNoReconfigure(env: Env, s: VmState, newController: Option<Device>)
    ensures AddsNoReconfigure(s, RollbackStep(env, s, newController))
  {
    if newController.Some? {
      DeleteControllerAddsNoReconfigure(env, s, newController);
    }
  }

  /** t only appends calls to those of s, and every reconfigure among them carries exactly the given change. */
  predicate OnlyReconfigures(s: VmState, t: VmState, change: DeviceConfigSpec) {
    Extends(s, t) &&
    forall i :: |s.calls| <= i < |t.calls| && t.calls[i].ReconfigureCall? ==> t.calls[i].deviceChange == [change]
  }

  lemma OnlyReconfiguresBefore(s: VmState, t: VmState, u: VmState, change: DeviceConfigSpec)
    requires AddsNoReconfigure(s, t) && OnlyReconfigures(t, u, change)
    ensures OnlyReconfigures(s, u, change)
  {
    assert u.calls[..|s.calls|] == u.calls[..|t.calls|][..|s.calls|];
    forall i | |s.calls| <= i < |t.calls| ensures u.calls[i] == t.calls[i] {
      assert u.calls[i] == u.calls[..|t.calls|][i];
    }
  }

  lemma OnlyReconfiguresAfter(s: VmState, t: VmState, u: VmState, change: DeviceConfigSpec)
    requires OnlyReconfigures(s, t, change) && AddsNoReconfigure(t, u)
    ensures OnlyReconfigures(s, u, change)
  {
    assert u.calls[..|s.calls|] == u.calls[..|t.calls|][..|s.calls|];
    forall i | |s.calls| <= i < |t.calls| ensures u.calls[i] == t.calls[i] {
      assert u.calls[i] == u.calls[..|t.calls|][i];
    }
  }

  lemma ReconfigureOnlyReconfigures(env: Env, s: VmState, change: DeviceConfigSpec)
    ensures OnlyReconfigures(s, ReconfigureStep(env, s, change).1, change)
  {
    assert (s.calls + [ReconfigureCall([change])])[..|s.calls|] == s.calls;
  }

  lemma CommitOnlyReconfigures(env: Env, s: VmState, diskPath: string, storagePolicyId: string, newController: Option<Device>)
    ensures OnlyReconfigures(s, CommitStep(env, s, diskPath, storagePolicyId, newController).1, AddDiskSpec(NewDisk(env), storagePolicyId))
  {
    var change := AddDiskSpec(NewDisk(env), storagePolicyId);
    var r := ReconfigureStep(env, s, change).1;
    ReconfigureOnlyReconfigures(env, s, change);
    RollbackAddsNoReconfigure(env, r, newController);
    var rolledBack := RollbackStep(env, r, newController);
    if ReconfigureStep(env, s, change).0.Err? {
      OnlyReconfiguresAfter(s, r, rolledBack, change);
    } else if GetVmDiskInfo(env, r.devices).Err? {
      DetachAddsNoReconfigure(env, rolledBack, diskPath);
      AddsNoReconfigureTrans(r, rolledBack, DetachDiskStep(env, rolledBack, diskPath).1);
      OnlyReconfiguresAfter(s, r, DetachDiskStep(env, rolledBack, diskPath).1, change);
    }
  }

  /** Every reconfigure an attach requests adds the disk, with the policy as its only profile when one is given. */
  lemma AttachProfile(env: Env, s: VmState, diskPath: string, storagePolicyId: string, controllerType: string)
    ensures var after := AttachDiskStep(env, s, diskPath, storagePolicyId, controllerType).1;
      && Extends(s, after)
      && forall i :: |s.calls| <= i < |after.calls| && after.calls[i].ReconfigureCall? ==>
        && after.calls[i].deviceChange == [AddDiskSpec(NewDisk(env), storagePolicyId)]
        && (after.calls[i].deviceChange[0].profile != [] <==> storagePolicyId != "")
        && forall p :: p in after.calls[i].deviceChange[0].profile ==> p.profileId == storagePolicyId
  {
    var change := AddDiskSpec(NewDisk(env), storagePolicyId);
    if controllerType in env.supportedControllerTypes && IsDiskAttached(env, s.devices, diskPath) == Ok(false) {
      var spec := DiskSpecStep(env, s, controllerType);
      DiskSpecAddsNoReconfigure(env, s, controllerType);
      if spec.0.Ok? {
        CommitOnlyReconfigures(env, spec.1, diskPath, storagePolicyId, spec.0.value);
        OnlyReconfiguresBefore(s, spec.1, CommitStep(env, spec.1, diskPath, storagePolicyId, spec.0.value).1, change);
      }
    }
  }

  /**
   * When the reconfigure or its task fails after this request created a
   * controller, the controller is deleted before the error is returned,
   * the error returned is the reconfigure's own, and when the deletion
   * succeeds the device list is back to what it was.
   */
  lemma AttachRollsBackNewController(env: Env, s: VmState, diskPath: string, storagePolicyId: string, controllerType: string)
    requires controllerType in env.supportedControllerTypes
    requires IsDiskAttached(env, s.devices, diskPath) == Ok(false)
    requires env.needsController && |ScsiControllers(s.devices)| < env.controllerLimit
    requires CreateController !in env.failing && AddDevice !in env.failing
    requires Reconfigure in env.failing || TaskWait in env.failing
    requires NewScsiController(env, controllerType) !in s.devices
    ensures var r := AttachDiskStep(env, s, diskPath, storagePolicyId, controllerType);
      var c := NewScsiController(env, controllerType);
      && r.0 == Err(RemoteFailed(if Reconfigure in env.failing then Reconfigure else TaskWait))
      && r.1.calls == s.calls + [AddDeviceCall(c)]
           + (if Reconfigure in env.failing then [] else [ReconfigureCall([AddDiskSpec(NewDisk(env), storagePolicyId)])])
           + [RemoveDeviceCall(c)]
      && (RemoveDevice !in env.failing ==> r.1.devices == s.devices)
  {
    var c := NewScsiController(env, controllerType);
    var spec := DiskSpecStep(env, s, controllerType);
    NewControllerAppended(env, s, controllerType);
    assert AttachDiskStep(env, s, diskPath, storagePolicyId, controllerType)
      == CommitStep(env, spec.1, diskPath, storagePolicyId, Some(c));
    var reconfigured := ReconfigureStep(env, spec.1, AddDiskSpec(NewDisk(env), storagePolicyId));
    assert reconfigured.1.devices == s.devices + [c] + [];
    RollbackOfController(env, reconfigured.1, s.devices, c, []);
  }

  /**
   * When the reconfigure succeeds but reading back the disk info fails,
   * AttachDisk returns that error, deletes a controller it created and
   * detaches the disk it just added: with the removals succeeding, the VM
   * has the devices it had before the call.
   */
  lemma AttachDiskInfoFailureCleansUp(env: Env, s: VmState, diskPath: string, storagePolicyId: string, controllerType: string)
    requires controllerType in env.supportedControllerTypes
    requires IsDiskAttached(env, s.devices, diskPath) == Ok(false)
    requires DiskSpecStep(env, s, controllerType).0.Ok?
    requires Reconfigure !in env.failing && TaskWait !in env.failing && RemoveDevice !in env.failing
    requires DiskInfoDevices in env.failing
    requires WithVmdkExtension(diskPath) in env.diskUuids
    requires env.newDisk.backing == FlatVer2Backing(env.diskUuids[WithVmdkExtension(diskPath)])
    requires forall d :: d in s.devices ==> d.name != NewDisk(env).name
    requires env.needsController ==> NewScsiController(env, controllerType) !in s.devices
    ensures var r := AttachDiskStep(env, s, diskPath, storagePolicyId, controllerType);
      var disk := NewDisk(env);
      var c := NewScsiController(env, controllerType);
      && r.0 == Err(RemoteFailed(DiskInfoDevices))
      && r.1.devices == s.devices
      && r.1.calls == s.calls + (if env.needsController then [AddDeviceCall(c)] else [])
           + [ReconfigureCall([AddDiskSpec(disk, storagePolicyId)])]
           + (if env.needsController then [RemoveDeviceCall(c)] else [])
           + [RemoveDeviceCall(disk)]
  {
    var spec := DiskSpecStep(env, s, controllerType);
    IsDiskAttachedMeaning(env, s.devices, diskPath);
    AttachOfDetachedDiskCommits(env, s, diskPath, storagePolicyId, controllerType);
    CommitDiskInfoFailureCleansUp(env, s, spec.1, diskPath, storagePolicyId, spec.0.value);
    var c := NewScsiController(env, controllerType);
    var adds := if env.needsController then [AddDeviceCall(c)] else [];
    assert spec.1.calls == s.calls + adds;
  }

  /** For a disk that is not attached, once createDiskSpec succeeds AttachDisk is the commit. */
  lemma AttachOfDetachedDiskCommits(env: Env, s: VmState, diskPath: string, storagePolicyId: string, controllerType: string)
    requires controllerType in env.supportedControllerTypes
    requires IsDiskAttached(env, s.devices, diskPath) == Ok(false)
    requires DiskSpecStep(env, s, controllerType).0.Ok?
    ensures var spec := DiskSpecStep(env, s, controllerType);
      AttachDiskStep(env, s, diskPath, storagePolicyId, controllerType)
        == CommitStep(env, spec.1, diskPath, storagePolicyId, spec.0.value)
  {
  }

  /** CommitStep's half of AttachDiskInfoFailureCleansUp, from the state createDiskSpec left. */
  lemma CommitDiskInfoFailureCleansUp(env: Env, s: VmState, t: VmState, diskPath: string, storagePolicyId: string,
                                      newController: Option<Device>)
    requires newController.None? ==> t == s
    requires newController.Some? ==>
      && t == VmState(s.devices + [newController.value], s.calls + [AddDeviceCall(newController.value)])
      && newController.value !in s.devices && newController.value.deviceType != VirtualDiskType
    requires ListDevices !in env.failing && Reconfigure !in env.failing && TaskWait !in env.failing
    requires RemoveDevice !in env.failing && DiskInfoDevices in env.failing
    requires WithVmdkExtension(diskPath) in env.diskUuids
    requires DiskHasUuid(env, NewDisk(env), GetVirtualDiskUuidByPath(env, diskPath).value)
    requires forall i :: 0 <= i < |s.devices| ==> !DiskHasUuid(env, s.devices[i], GetVirtualDiskUuidByPath(env, diskPath).value)
    requires forall d :: d in s.devices ==> d.name != NewDisk(env).name
    ensures var r := CommitStep(env, t, diskPath, storagePolicyId, newController);
      && r.0 == Err(RemoteFailed(DiskInfoDevices))
      && r.1.devices == s.devices
      && r.1.calls == t.calls + [ReconfigureCall([AddDiskSpec(NewDisk(env), storagePolicyId)])]
           + (if newController.Some? then [RemoveDeviceCall(newController.value)] else [])
           + [RemoveDeviceCall(NewDisk(env))]
  {
    var disk := NewDisk(env);
    var reconfigured := ReconfigureStep(env, t, AddDiskSpec(disk, storagePolicyId));
    var rolledBack := RollbackStep(env, reconfigured.1, newController);
    if newController.Some? {
      assert reconfigured.1.devices == s.devices + [newController.value] + [disk];
      RollbackOfController(env, reconfigured.1, s.devices, newController.value, [disk]);
    }
    assert rolledBack.devices == s.devices + [disk];
    DetachOfAppendedDisk(env, rolledBack, s.devices, disk, diskPath);
  }

  /** With the controller created and added, createDiskSpec's half appends it and logs one add. */
  lemma NewControllerAppended(env: Env, s: VmState, controllerType: string)
    requires env.needsController && |ScsiControllers(s.devices)| < env.controllerLimit
    requires ListDevices !in env.failing && CreateController !in env.failing && AddDevice !in env.failing
    ensures var c := NewScsiController(env, controllerType);
      DiskSpecStep(env, s, controllerType) == (Ok(Some(c)), VmState(s.devices + [c], s.calls + [AddDeviceCall(c)]))
  {
  }

  /**
   * Rolling back a controller that is the last device of its type removes
   * exactly it, with one logged removal.
   */
  lemma RollbackOfController(env: Env, t: VmState, before: seq<Device>, c: Device, after: seq<Device>)
    requires t.devices == before + [c] + after && c !in before
    requires forall x :: x in after ==> x.deviceType != c.deviceType
    requires ListDevices !in env.failing
    ensures RollbackStep(env, t, Some(c)).calls == t.calls + [RemoveDeviceCall(c)]
    ensures RemoveDevice !in env.failing ==> RollbackStep(env, t, Some(c)).devices == before + after
  {
    assert t.devices[|before|] == c;
    assert IsLastOfType(t.devices, |before|, c.deviceType) by {
      forall j | |before| < j < |t.devices| ensures t.devices[j].deviceType != c.deviceType {
        assert t.devices[j] == after[j - |before| - 1];
      }
    }
    WithoutConcat(before + [c], after, c);
    WithoutAppendedFresh(before, c);
  }

  /**
   * Detaching the disk at the path, when it is the disk appended last and no
   * earlier device has its UUID or its name, removes exactly that disk.
   */
  lemma DetachOfAppendedDisk(env: Env, t: VmState, before: seq<Device>, disk: Device, diskPath: string)
    requires WithVmdkExtension(diskPath) in env.diskUuids
    requires t.devices == before + [disk]
    requires ListDevices !in env.failing
    requires DiskHasUuid(env, disk, GetVirtualDiskUuidByPath(env, diskPath).value)
    requires forall i :: 0 <= i < |before| ==> !DiskHasUuid(env, before[i], GetVirtualDiskUuidByPath(env, diskPath).value)
    requires forall d :: d in before ==> d.name != disk.name
    ensures DetachDiskStep(env, t, diskPath) == RemoveDeviceStep(env, t, disk)
    ensures RemoveDevice !in env.failing ==> DetachDiskStep(env, t, diskPath).1.devices == before
  {
    var uuid := GetVirtualDiskUuidByPath(env, diskPath).value;
    FirstDiskWithUuidIsFirstMatch(env, before, uuid);
    FirstDiskWithUuidAppend(env, before, [disk], uuid);
    assert FirstDiskWithUuid(env, [disk], uuid) == Some(disk);
    assert GetVirtualDiskId(env, t.devices, diskPath) == Ok(disk.name);
    assert t.devices[|before|] == disk;
    FindByNameIsFirst(t.devices, disk.name, |before|);
    WithoutAppendedFresh(before, disk);
  }

  /** The controller limit: creation fails without any request exactly at or above the limit. */
  lemma ControllerLimitEnforced(env: Env, s: VmState, controllerType: string)
    requires ListDevices !in env.failing
    ensures CreateAndAttachScsiControllerStep(env, s, controllerType).0 == Err(ControllerLimitReached(env.controllerLimit))
      <==> |ScsiControllers(s.devices)| >= env.controllerLimit
    ensures |ScsiControllers(s.devices)| >= env.controllerLimit ==>
      CreateAndAttachScsiControllerStep(env, s, controllerType).1 == s
  {
  }

  /** A created controller can hot-add, shares no bus, has the asked-for type and is appended. */
  lemma CreatedControllerSettings(env: Env, s: VmState, controllerType: string)
    requires CreateAndAttachScsiControllerStep(env, s, controllerType).0.Ok?
    ensures var r := CreateAndAttachScsiControllerStep(env, s, controllerType);
      && r.0.value.hotAddRemove && r.0.value.sharedBus == NoSharing
      && r.0.value.deviceType == ScsiControllerType(controllerType)
      && r.1.devices == s.devices + [r.0.value]
      && |ScsiControllers(s.devices)| < env.controllerLimit
  {
  }

  /**
   * The clean-up after a failed AddDevice deletes the last controller of the
   * requested type that was ALREADY on the VM: the new one was never added.
   */
  lemma FailedAddRemovesExistingController(env: Env, s: VmState, controllerType: string)
    requires ListDevices !in env.failing && CreateController !in env.failing
    requires AddDevice in env.failing && RemoveDevice !in env.failing
    requires |ScsiControllers(s.devices)| < env.controllerLimit
    requires |SelectByType(s.devices, ScsiControllerType(controllerType))| > 0
    ensures var existing := SelectByType(s.devices, ScsiControllerType(controllerType));
      var r := CreateAndAttachScsiControllerStep(env, s, controllerType);
      && r.0 == Err(RemoteFailed(AddDevice))
      && r.1.devices == Without(s.devices, existing[|existing| - 1])
      && existing[|existing| - 1] in s.devices && existing[|existing| - 1] !in r.1.devices
  {
    var c := NewScsiController(env, controllerType);
    var existing := SelectByType(s.devices, ScsiControllerType(controllerType));
    var added := AddDeviceStep(env, s, c);
    assert existing[|existing| - 1] in existing;
    assert DeleteControllerStep(env, added.1, Some(c)) == RemoveDeviceStep(env, added.1, existing[|existing| - 1]);
  }

  /** Detaching a disk that no device holds is refused without asking for any removal. */
  lemma DetachMissingDiskRequestsNothing(env: Env, s: VmState, diskPath: string)
    requires ListDevices !in env.failing
    requires VirtualDeviceByPath(env, s.devices, diskPath) == Ok(None)
    ensures DetachDiskStep(env, s, diskPath) == (Err(ErrNoDiskIDFound), s)
  {
  }

  /** A successful detach removes the device found for the disk and nothing else. */
  lemma DetachRemovesTheDisk(env: Env, s: VmState, diskPath: string)
    requires DetachDiskStep(env, s, diskPath).0.Ok?
    ensures VirtualDeviceByPath(env, s.devices, diskPath).Ok?
    ensures VirtualDeviceByPath(env, s.devices, diskPath).value.Some?
    ensures var d := FindByName(s.devices, VirtualDeviceByPath(env, s.devices, diskPath).value.value.name);
      && d.Some?
      && DetachDiskStep(env, s, diskPath).1 == VmState(Without(s.devices, d.value), s.calls + [RemoveDeviceCall(d.value)])
  {
  }

  // ---------------------------------------------------------------------
  // The virtual machine

  class VirtualMachine {
    var devices: seq<Device>
    var calls: seq<RemoteCall>

    constructor (devices: seq<Device>)
      ensures State() == VmState(devices, [])
    {
      this.devices := devices;
      calls := [];
    }

    function State(): VmState
      reads this
    {
      VmState(devices, calls)
    }

    method AddDevice(env: Env, d: Device) returns (r: Result<(), VmError>)
      modifies this
      ensures (r, State()) == AddDeviceStep(env, old(State()), d)
    {
      calls := calls + [AddDeviceCall(d)];
      if RemoteOp.AddDevice in env.failing {
        return Err(RemoteFailed(RemoteOp.AddDevice));
      }
      devices := devices + [d];
      r := Ok(());
    }

    method RemoveDevice(env: Env, d: Device) returns (r: Result<(), VmError>)
      modifies this
      ensures (r, State()) == RemoveDeviceStep(env, old(State()), d)
    {
      calls := calls + [RemoveDeviceCall(d)];
      if RemoteOp.RemoveDevice in env.failing {
        return Err(RemoteFailed(RemoteOp.RemoveDevice));
      }
      devices := Without(devices, d);
      r := Ok(());
    }

    /** Reconfigure, then task.Wait. */
    method ReconfigureAndWait(env: Env, change: DeviceConfigSpec) returns (r: Result<(), VmError>)
      modifies this
      ensures (r, State()) == ReconfigureStep(env, old(State()), change)
    {
      if Reconfigure in env.failing {
        return Err(RemoteFailed(Reconfigure));
      }
      calls := calls + [ReconfigureCall([change])];
      if TaskWait in env.failing {
        return Err(RemoteFailed(TaskWait));
      }
      devices := devices + [change.device];
      r := Ok(());
    }

    method DeleteController(env: Env, controller: Option<Device>) returns (r: Result<(), VmError>)
      modifies this
      ensures (r, State()) == DeleteControllerStep(env, old(State()), controller)
    {
      if controller.None? {
        return Err(NilControllerDevice);
      }
      if ListDevices in env.failing {
        return Err(RemoteFailed(ListDevices));
      }
      var controllerDeviceList := SelectByType(devices, controller.value.deviceType);
      if |controllerDeviceList| < 1 {
        return Err(ErrNoDevicesFound);
      }
      var device := controllerDeviceList[|controllerDeviceList| - 1];
      r := RemoveDevice(env, device);
    }

    method CreateAndAttachScsiController(env: Env, controllerType: string) returns (r: Result<Device, VmError>)
      modifies this
      ensures (r, State()) == CreateAndAttachScsiControllerStep(env, old(State()), controllerType)
    {
      if ListDevices in env.failing {
        return Err(RemoteFailed(ListDevices));
      }
      var allScsiControllers := ScsiControllers(devices);
      if |allScsiControllers| >= env.controllerLimit {
        return Err(ControllerLimitReached(env.controllerLimit));
      }
      if CreateController in env.failing {
        return Err(RemoteFailed(CreateController));
      }
      var newController := env.newController.(deviceType := ScsiControllerType(controllerType));
      newController := newController.(hotAddRemove := true);
      newController := newController.(sharedBus := NoSharing);
      var added := AddDevice(env, newController);
      if added.Err? {
        var _ := DeleteController(env, Some(newController));
        return Err(added.error);
      }
      r := Ok(newController);
    }

    method DetachDisk(env: Env, diskPath: string) returns (r: Result<(), VmError>)
      modifies this
      ensures (r, State()) == DetachDiskStep(env, old(State()), diskPath)
    {
      if ListDevices in env.failing {
        return Err(RemoteFailed(ListDevices));
      }
      var vmDevices := devices;
      var diskId := GetVirtualDiskId(env, devices, diskPath);
      if diskId.Err? {
        return Err(diskId.error);
      }
      var name := diskId.value;
      var device := FindByName(vmDevices, name);
      if device.None? {
        return Err(DeviceNameNotFound(name));
      }
      r := RemoveDevice(env, device.value);
    }

    method AttachDisk(env: Env, vmDiskPath: string, storagePolicyId: string, diskControllerType: string)
      returns (r: Result<AttachInfo, VmError>)
      modifies this
      ensures (r, State()) == AttachDiskStep(env, old(State()), vmDiskPath, storagePolicyId, diskControllerType)
    {
      if diskControllerType !in env.supportedControllerTypes {
        return Err(UnsupportedControllerType(diskControllerType));
      }
      var attached := IsDiskAttached(env, devices, vmDiskPath);
      if attached.Err? {
        return Err(attached.error);
      }
      if attached.value {
        var diskUuid := GetVirtualDiskUuidByPath(env, vmDiskPath);
        return Ok(AttachInfo("", if diskUuid.Ok? then diskUuid.value else ""));
      }
      // createDiskSpec
      var newScsiController: Option<Device> := None;
      if env.needsController {
        var created := CreateAndAttachScsiController(env, diskControllerType);
        if created.Err? {
          return Err(created.error);
        }
        newScsiController := Some(created.value);
      }
      var disk := NewDisk(env);
      var deviceConfigSpec := AddDiskSpec(disk, storagePolicyId);
      var reconfigured := ReconfigureAndWait(env, deviceConfigSpec);
      if reconfigured.Err? {
        if newScsiController.Some? {
          var _ := DeleteController(env, newScsiController);
        }
        return Err(reconfigured.error);
      }
      var info := GetVmDiskInfo(env, devices);
      if info.Err? {
        if newScsiController.Some? {
          var _ := DeleteController(env, newScsiController);
        }
        var _ := DetachDisk(env, vmDiskPath);
        return Err(info.error);
      }
      r := Ok(AttachInfo(info.value.0, info.value.1));
    }
  }
}
