/**
 * Disk-manager dispatch of the vSphere client library (diskmanagers/virtualdisk.go).
 *
 * A VirtualDisk is created either by the plain virtual-disk manager or by the
 * policy-aware VM-disk manager; deletion always goes through the plain one.
 * The managers themselves talk to vCenter and are not modelled: the model
 * says which manager receives the call, and with which options.
 */
module DiskManagers {
  import opened Results

  const VirtualDiskCreateOperation: string := "Create"
  const VirtualDiskDeleteOperation: string := "Delete"

  /** The disk format a disk gets when none was asked for (vclib.ThinDiskType). */
  const ThinDiskType: string := "thin"

  /** The fields of vclib.VolumeOptions that the dispatch reads or writes. */
  datatype Options = Options(
    diskFormat: string,
    storagePolicyName: string,
    vsanStorageProfileData: string,
    storagePolicyId: string)

  /** vclib.VMOptions, passed through to the policy-aware manager untouched. */
  datatype VmOptions = VmOptions(fields: map<string, string>)

  /** The two implementations of VirtualDiskProvider. */
  datatype Provider =
    | VirtualDiskManager(diskPath: string, volumeOptions: Options)
    | VmDiskManager(diskPath: string, volumeOptions: Options, vmOptions: VmOptions)

  /** What VirtualDisk.Create ends in: one of its own errors, or a call to a manager's Create. */
  datatype CreateOutcome =
    | ErrInvalidVolumeOptions
    | ErrPolicyIdAndNameBothSet
    | CreateDispatched(manager: Provider)

  /** Some storage-policy field is filled in. */
  predicate PolicyRequested(o: Options) {
    o.storagePolicyName != "" || o.vsanStorageProfileData != "" || o.storagePolicyId != ""
  }

  /** getDiskManager: None stands for the nil provider of an unknown operation. */
  function GetDiskManager(diskPath: string, o: Options, vmOptions: VmOptions, operation: string): (r: Option<Provider>)
    ensures r.None? <==> operation != VirtualDiskCreateOperation && operation != VirtualDiskDeleteOperation
    ensures r.Some? ==> r.value.diskPath == diskPath && r.value.volumeOptions == o
    ensures r.Some? ==> (r.value.VmDiskManager? <==> operation == VirtualDiskCreateOperation && PolicyRequested(o))
    ensures r.Some? && r.value.VmDiskManager? ==> r.value.vmOptions == vmOptions
  {
    if operation == VirtualDiskDeleteOperation then Some(VirtualDiskManager(diskPath, o))
    else if operation == VirtualDiskCreateOperation then
      if PolicyRequested(o) then Some(VmDiskManager(diskPath, o, vmOptions))
      else Some(VirtualDiskManager(diskPath, o))
    else None
  }

  /** The defaulting step of Create: an empty format becomes thin, any other is kept. */
  function WithDefaultFormat(o: Options): (r: Options)
    ensures r.diskFormat != ""
    ensures o.diskFormat == "" ==> r.diskFormat == ThinDiskType
    ensures o.diskFormat != "" ==> r == o
    ensures r.(diskFormat := o.diskFormat) == o
  {
    if o.diskFormat == "" then o.(diskFormat := ThinDiskType) else o
  }

  /** vclib.VolumeOptions: shared by pointer, so Create's defaulting is seen by the caller. */
  class VolumeOptions {
    var diskFormat: string
    var storagePolicyName: string
    var vsanStorageProfileData: string
    var storagePolicyId: string

    constructor (o: Options)
      ensures Value() == o
    {
      diskFormat := o.diskFormat;
      storagePolicyName := o.storagePolicyName;
      vsanStorageProfileData := o.vsanStorageProfileData;
      storagePolicyId := o.storagePolicyId;
    }

    /** The current field values. */
    function Value(): Options
      reads this
    {
      Options(diskFormat, storagePolicyName, vsanStorageProfileData, storagePolicyId)
    }
  }

  class VirtualDisk {
    const diskPath: string
    const volumeOptions: VolumeOptions
    const vmOptions: VmOptions

    constructor (diskPath: string, volumeOptions: VolumeOptions, vmOptions: VmOptions)
      ensures this.diskPath == diskPath && this.volumeOptions == volumeOptions && this.vmOptions == vmOptions
    {
      this.diskPath := diskPath;
      this.volumeOptions := volumeOptions;
      this.vmOptions := vmOptions;
    }

    /**
     * VirtualDisk.Create.  The format is defaulted in place first; then the
     * options are verified (VerifyVolumeOptions, whose body is not part of
     * this model, is the parameter verify); then a policy ID together with a
     * policy name is refused; only then is a manager chosen.
     */
    method Create(verify: Options -> bool) returns (r: CreateOutcome)
      modifies volumeOptions`diskFormat
      ensures volumeOptions.Value() == WithDefaultFormat(old(volumeOptions.Value()))
      ensures old(volumeOptions.diskFormat) == "" ==> volumeOptions.diskFormat == ThinDiskType
      ensures old(volumeOptions.diskFormat) != "" ==> volumeOptions.diskFormat == old(volumeOptions.diskFormat)
      ensures !verify(volumeOptions.Value()) ==> r == ErrInvalidVolumeOptions
      ensures verify(volumeOptions.Value()) && volumeOptions.storagePolicyId != "" && volumeOptions.storagePolicyName != ""
        ==> r == ErrPolicyIdAndNameBothSet
      ensures r.CreateDispatched? <==>
        verify(volumeOptions.Value()) && (volumeOptions.storagePolicyId == "" || volumeOptions.storagePolicyName == "")
      ensures r.CreateDispatched? ==>
        Some(r.manager) == GetDiskManager(diskPath, volumeOptions.Value(), vmOptions, VirtualDiskCreateOperation)
    {
      if volumeOptions.diskFormat == "" {
        volumeOptions.diskFormat := ThinDiskType;
      }
      if !verify(volumeOptions.Value()) {
        return ErrInvalidVolumeOptions;
      }
      if volumeOptions.storagePolicyId != "" && volumeOptions.storagePolicyName != "" {
        return ErrPolicyIdAndNameBothSet;
      }
      var manager := GetDiskManager(diskPath, volumeOptions.Value(), vmOptions, VirtualDiskCreateOperation);
      r := CreateDispatched(manager.value);
    }

    /** VirtualDisk.Delete: the manager whose Delete is called is always the plain one. */
    method Delete() returns (r: Provider)
      ensures r == VirtualDiskManager(diskPath, volumeOptions.Value())
    {
      var manager := GetDiskManager(diskPath, volumeOptions.Value(), vmOptions, VirtualDiskDeleteOperation);
      r := manager.value;
    }
  }
}
