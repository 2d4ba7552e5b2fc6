# vSphere disk attach, modelled in Dafny

This project models the decision logic of a vSphere volume stack, in four parts:

- **The BIOS-UUID normaliser** of the vSphere cloud provider (`getvmUUID`) is in `vm_uuid.dfy`, module `VmUuid`. The raw product-UUID file contents are processed in five steps:
  - surrounding white space is trimmed;
  - the `VMware-` prefix is checked;
  - spaces and hyphens are deleted;
  - the length is checked to be 32 (in characters here; Go's `len` counts bytes, see "## Left out");
  - the result is re-hyphenated in the 8-4-4-4-12 layout.
- **Disk attach and detach in the vSphere client library** (`vclib/virtualmachine.go`) are in `virtual_machine.dfy`, module `Vclib`.
  - A VM is its device list plus the log of the device changes requested for it.
  - Each state-changing operation has two forms. One is a step function over a `VmState` value, which the lemmas talk about. The other is a method of the class `VirtualMachine` whose contract ties it to that step function.
  - The operations covered are:
    - the controller-type check;
    - the "already attached" short-circuit;
    - the storage-policy profile on the add spec;
    - rollback of a controller created by the request;
    - the clean-up after the disk info cannot be read back, which removes that controller and the new disk;
    - the SCSI controller limit;
    - `DeleteController`, which removes the last device of the controller's type;
    - `DetachDisk`.
- **Disk-manager dispatch** (`diskmanagers/virtualdisk.go`) is in `virtual_disk.dfy`, module `DiskManagers`.
  - `Create` defaults the disk format in place.
  - It then verifies the options and refuses a policy ID together with a policy name.
  - Only then does it pick the plain or the policy-aware manager. `Delete` always uses the plain manager.
- **The ESX-side volume service** (`vmdkops-esxsrv/vmdk_ops.py`) is in `vmdk_ops.dfy`, module `VmdkOps`. It covers:
  - request dispatch and volume-path naming;
  - `findDeviceByPath`;
  - the attach planner;
  - `disk_attach` and `disk_detach`;
  - the volume-metadata status;
  - the pending-task loop of `wait_for_tasks`.

  The planner reuses the first PVSCSI controller, or adds one on a free bus 0..3 with key 1000 + bus. It then picks a free unit in 0..5 or 8..15.

  The planner's `set.pop()` picks an arbitrary element. The method `PlanAttach` models it with a choice (`:|`) and is specified by the predicate `IsAttachPlan`. That predicate admits every plan the code can make.

`results.dfy` (module `Results`) holds the `Option` and `Result` types shared by the others.

The remote vSphere API is not modelled. Its answers are inputs:

- In `Vclib`, an `Env` value carries these answers:
  - the datastore's disk UUIDs (`QueryVirtualDiskUuid`);
  - the UUID formatter;
  - the supported controller types;
  - `SCSIControllerLimit`;
  - whether `createDiskSpec` needs a new controller;
  - the devices `CreateSCSIController` and `createDiskSpec` build;
  - which remote operations fail.
- In `VmdkOps`, the outcome of the reconfigure task is a parameter. So are `os.path.realpath` and the property collector's stream of updates.

The UUID payload is described as 32 hexadecimal digits. The code checks only the length, and the model follows the code (`VmUuid.NonHexPayloadAccepted`).

In `vclib/virtualmachine.go`, the clean-up after a failed `AddDevice` calls `DeleteController`, which removes the last controller of the type on the VM. The new controller was never added, so that is a controller that was already there. The model keeps this behaviour, and `Vclib.FailedAddRemovesExistingController` states it.

## Model

| member | source | states |
|---|---|---|
| VmUuid.TrimLeft | pkg/cloudprovider/providers/vsphere/vsphere_util.go:86 | the result is a suffix of the input, it does not start with white space, and everything cut off is white space |
| VmUuid.TrimRight | pkg/cloudprovider/providers/vsphere/vsphere_util.go:86 | the result is a prefix of the input, it does not end with white space, and everything cut off is white space |
| VmUuid.TrimSpace | pkg/cloudprovider/providers/vsphere/vsphere_util.go:86 | the result sits inside the input with nothing but white space cut off on either side, and it neither starts nor ends with white space |
| VmUuid.RemoveAll | pkg/cloudprovider/providers/vsphere/vsphere_util.go:92-93 | deleting a character leaves no occurrence of it and never lengthens the string |
| VmUuid.Payload | pkg/cloudprovider/providers/vsphere/vsphere_util.go:92-93 | what remains after the prefix holds no space and no hyphen and is no longer than the text after the prefix |
| VmUuid.Hyphenate | pkg/cloudprovider/providers/vsphere/vsphere_util.go:98 | the 8-4-4-4-12 form of a 32-character payload has 36 characters |
| VmUuid.NormalizeTrimmed | pkg/cloudprovider/providers/vsphere/vsphere_util.go:88-98 | a missing prefix is reported exactly when the prefix is absent; a success has 36 characters, hyphens exactly at 8, 13, 18 and 23, and no space |
| VmUuid.GetVmUuid | pkg/cloudprovider/providers/vsphere/vsphere_util.go:84-99 | a prefix error happens exactly when the trimmed contents lack `VMware-`; every error quotes the untrimmed contents; a success has the canonical 36-character shape with no space |
| VmUuid.TrimSpacePadding | pkg/cloudprovider/providers/vsphere/vsphere_util.go:86 | white space added on either side does not change the trimmed form |
| VmUuid.PaddingIsIgnored | pkg/cloudprovider/providers/vsphere/vsphere_util.go:84-90 | padding the contents with white space changes neither the verdict, the UUID, nor the kind of error |
| VmUuid.SameTrimSameVerdict | pkg/cloudprovider/providers/vsphere/vsphere_util.go:86-98 | contents that trim to the same text get the same verdict, the same UUID and the same kind of error |
| VmUuid.AcceptedExactly | pkg/cloudprovider/providers/vsphere/vsphere_util.go:88-96 | success exactly when the prefix is present and 32 characters remain; a length error exactly when the prefix is present and another count remains |
| VmUuid.RoundTrip | pkg/cloudprovider/providers/vsphere/vsphere_util.go:92-98 | deleting the hyphens of a successful result gives back exactly the stripped 32-character payload |
| VmUuid.UnhyphenateHyphenate | pkg/cloudprovider/providers/vsphere/vsphere_util.go:98 | the hyphens inserted by the layout are the only ones: removing them restores a hyphen-free payload |
| VmUuid.ReformatIsIdentity | pkg/cloudprovider/providers/vsphere/vsphere_util.go:92-98 | stripping and re-hyphenating a canonical result gives it back unchanged |
| VmUuid.NonHexPayloadAccepted | pkg/cloudprovider/providers/vsphere/vsphere_util.go:94-96 | only the length is checked: a payload of 32 non-hexadecimal letters is accepted |
| DiskManagers.GetDiskManager | pkg/cloudprovider/providers/vsphere/vclib/diskmanagers/virtualdisk.go:30-43 | the nil provider exactly for an operation other than Create and Delete; the path and options are passed on; the policy-aware manager exactly for Create with a policy field set, and then it gets the VM options |
| DiskManagers.WithDefaultFormat | pkg/cloudprovider/providers/vsphere/vclib/diskmanagers/virtualdisk.go:47-49 | an empty format becomes "thin", a non-empty format is kept, and no other option changes |
| DiskManagers.VirtualDisk.Create | pkg/cloudprovider/providers/vsphere/vclib/diskmanagers/virtualdisk.go:46-58 | the shared options get the defaulted format, "thin" when it was empty; a failed verification gives ErrInvalidVolumeOptions; a policy ID with a name is refused; otherwise the manager getDiskManager picks is called |
| DiskManagers.VirtualDisk.Delete | pkg/cloudprovider/providers/vsphere/vclib/diskmanagers/virtualdisk.go:61-63 | the plain manager with the disk's path and options receives the Delete |
| Vclib.Ext | pkg/cloudprovider/providers/vsphere/vclib/virtualmachine.go:44 | a non-empty extension is the suffix of the path that starts at a '.' and holds no other '.' and no '/'; the extension is empty only when the last path element has no '.' |
| Vclib.ExtOfSuffix | pkg/cloudprovider/providers/vsphere/vclib/virtualmachine.go:44 | a path ending in a '.'-led suffix without another '.' or any '/' has exactly that suffix as its extension |
| Vclib.ExtOfVmdkPath | pkg/cloudprovider/providers/vsphere/vclib/virtualmachine.go:44-46 | appending ".vmdk" gives a path whose extension is ".vmdk" |
| Vclib.WithVmdkExtension | pkg/cloudprovider/providers/vsphere/vclib/virtualmachine.go:44-46 | the path is unchanged exactly when it is empty or already ends in ".vmdk", and otherwise gets ".vmdk" appended |
| Vclib.GetVirtualDiskUuidByPath | pkg/cloudprovider/providers/vsphere/vclib/virtualmachine.go:43-57 | succeeds exactly when the datastore knows the path with ".vmdk" added where needed, returning its formatted UUID; every failure is ErrNoDiskUUIDFound |
| Vclib.GetVirtualDiskUuidByDevice | pkg/cloudprovider/providers/vsphere/vclib/virtualmachine.go:59-66 | succeeds exactly for a disk with a flat backing, returning the formatted backing UUID; otherwise ErrNoDiskUUIDFound |
| Vclib.VirtualDeviceByPath | pkg/cloudprovider/providers/vsphere/vclib/virtualmachine.go:68-84 | fails exactly when the path's UUID is unknown, with ErrNoDiskUUIDFound; otherwise nothing is found exactly when no disk carries the UUID, and a device found is the first disk of the list that carries it |
| Vclib.GetVirtualDeviceByPath | pkg/cloudprovider/providers/vsphere/vclib/virtualmachine.go:68-84 | the search loop returns what the first-match specification gives: the UUID lookup's error, the first disk with the UUID, or nothing |
| Vclib.FirstDiskWithUuidIsFirstMatch | pkg/cloudprovider/providers/vsphere/vclib/virtualmachine.go:75-83 | nothing is found exactly when no disk carries the UUID; a found device is a disk that carries it with none before it |
| Vclib.GetVirtualDiskControllerKey | pkg/cloudprovider/providers/vsphere/vclib/virtualmachine.go:87-102 | a key returned is the controller key of the first listed disk that carries the path's UUID; the listing failure exactly when listing fails; otherwise ErrNoDiskUUIDFound exactly when the UUID is unknown, and ErrNoDevicesFound exactly when it is known but no disk carries it |
| Vclib.GetVirtualDiskId | pkg/cloudprovider/providers/vsphere/vclib/virtualmachine.go:104-119 | a name returned is the name of the first listed disk that carries the path's UUID; the listing failure exactly when listing fails; otherwise ErrNoDiskUUIDFound exactly when the UUID is unknown, and ErrNoDiskIDFound exactly when it is known but no disk carries it |
| Vclib.IsDiskAttached | pkg/cloudprovider/providers/vsphere/vclib/virtualmachine.go:20-31 | true only when a disk is listed; any error is the controller-key lookup's own error, passed through, and it can only be the listing failure or ErrNoDiskUUIDFound |
| Vclib.IsDiskAttachedMeaning | pkg/cloudprovider/providers/vsphere/vclib/virtualmachine.go:20-31 | true exactly when the device list is readable, the path's UUID is known and a disk carries it; false exactly for ErrNoDevicesFound; an error exactly for every other lookup error, which is returned unchanged |
| Vclib.SelectByType | pkg/cloudprovider/providers/vsphere/vclib/virtualmachine.go:202 | every selected device is a listed device of the type, and the selection is no longer than the list |
| Vclib.SelectByTypeNone | pkg/cloudprovider/providers/vsphere/vclib/virtualmachine.go:202 | nothing is selected from a list with no device of the type |
| Vclib.SelectByTypeAll | pkg/cloudprovider/providers/vsphere/vclib/virtualmachine.go:202 | a list whose devices all have the type is selected whole, in order |
| Vclib.SelectByTypeConcat | pkg/cloudprovider/providers/vsphere/vclib/virtualmachine.go:202 | selecting from two lists joined is joining the two selections, so the list order is kept |
| Vclib.SelectByTypeCount | pkg/cloudprovider/providers/vsphere/vclib/virtualmachine.go:202 | each device of the type is selected as often as it is listed, and no other device is selected |
| Vclib.SelectByTypeAppend | pkg/cloudprovider/providers/vsphere/vclib/virtualmachine.go:202 | an appended device of the type becomes the last selected one |
| Vclib.SelectByTypeLast | pkg/cloudprovider/providers/vsphere/vclib/virtualmachine.go:202-208 | the last selected device is the last listed device of the type, the one GetVMDiskInfo and DeleteController take |
| Vclib.ScsiControllers | pkg/cloudprovider/providers/vsphere/vclib/virtualmachine.go:323 | exactly the SCSI controllers of the list, and the whole list when every device is one |
| Vclib.ScsiControllersCount | pkg/cloudprovider/providers/vsphere/vclib/virtualmachine.go:323 | each SCSI controller is selected as often as it is listed, so the length compared with the limit is the controller count |
| Vclib.ScsiControllersAppend | pkg/cloudprovider/providers/vsphere/vclib/virtualmachine.go:323-347 | appending a device appends it to the selection exactly when it is a SCSI controller, and the count grows by one exactly then |
| Vclib.FindByName | pkg/cloudprovider/providers/vsphere/vclib/virtualmachine.go:234 | a found device is listed and has the name; nothing is found exactly when no device has it |
| Vclib.FindByNameIsFirst | pkg/cloudprovider/providers/vsphere/vclib/virtualmachine.go:234 | the device found is the first listed device with the name |
| Vclib.GetVmDiskInfo | pkg/cloudprovider/providers/vsphere/vclib/virtualmachine.go:196-219 | the device fetch's failure is returned as is; ErrNoDevicesFound exactly when the fetch works and no disk is listed; otherwise the info is the name and formatted UUID of the last listed disk, and fails exactly when that disk has no flat backing |
| Vclib.Without | pkg/cloudprovider/providers/vsphere/vclib/virtualmachine.go:240 | a removal leaves exactly the other devices, and a device that is not listed leaves the list as it is |
| Vclib.WithoutCount | pkg/cloudprovider/providers/vsphere/vclib/virtualmachine.go:240 | every occurrence of the device goes, and every other device keeps its multiplicity |
| Vclib.WithoutConcat | pkg/cloudprovider/providers/vsphere/vclib/virtualmachine.go:240 | removing from two lists joined is joining the two removals, so the other devices keep their order |
| Vclib.WithoutAppendedFresh | pkg/cloudprovider/providers/vsphere/vclib/virtualmachine.go:240 | removing a device that was just appended, and not listed before, restores the list |
| Vclib.DiskInfoOfAppendedDisk | pkg/cloudprovider/providers/vsphere/vclib/virtualmachine.go:196-219 | after a disk is appended, the disk info is its name and formatted UUID, and it fails exactly when the disk has no flat backing |
| Vclib.AddDeviceStep | pkg/cloudprovider/providers/vsphere/vclib/virtualmachine.go:340 | the add is logged; it succeeds exactly when AddDevice does not fail, and then the device is appended; otherwise the devices are unchanged |
| Vclib.RemoveDeviceStep | pkg/cloudprovider/providers/vsphere/vclib/virtualmachine.go:286 | the removal is logged; it succeeds exactly when RemoveDevice does not fail, and then exactly the other devices remain; otherwise the devices are unchanged |
| Vclib.ReconfigureStep | pkg/cloudprovider/providers/vsphere/vclib/virtualmachine.go:167-182 | success exactly when the reconfigure and its task both succeed, and then the device is appended; a failure leaves the devices; a refused reconfigure is not logged |
| Vclib.DeleteControllerStep | pkg/cloudprovider/providers/vsphere/vclib/virtualmachine.go:266-291 | a nil controller is refused; a listing failure is returned with nothing changed; no device of the type gives ErrNoDevicesFound with no request; otherwise it is the removal of the last listed device of that type |
| Vclib.CreateAndAttachScsiControllerStep | pkg/cloudprovider/providers/vsphere/vclib/virtualmachine.go:316-347 | a listing failure is returned with nothing changed; the limit error exactly when listing works and the count is at or above the limit; below the limit, a controller-creation failure is returned with nothing changed; otherwise it succeeds exactly when the add works, returning the new controller, appended and logged as one add, with the count then at most the limit; a failed add is returned after deleting the last controller of the new controller's type |
| Vclib.DetachDiskStep | pkg/cloudprovider/providers/vsphere/vclib/virtualmachine.go:222-246 | a listing failure and every disk-ID lookup error are returned with nothing changed; otherwise the result and state are those of removing a listed device named by the disk ID; a success logs exactly that removal, and a failure leaves the devices |
| Vclib.DiskSpecStep | pkg/cloudprovider/providers/vsphere/vclib/virtualmachine.go:148-152 | on success a controller was created exactly when one is needed; then it is the new SCSI controller, appended and logged as one add; otherwise the state is unchanged |
| Vclib.CommitStep | pkg/cloudprovider/providers/vsphere/vclib/virtualmachine.go:167-193 | a success appends exactly the new disk, logs one reconfigure with its add spec, and reports the disk's name and formatted UUID, which needs a flat backing |
| Vclib.AttachDiskStep | pkg/cloudprovider/providers/vsphere/vclib/virtualmachine.go:132-194 | an unsupported controller type is refused with nothing queried or changed; an IsDiskAttached error is returned with nothing changed; a failure to make the controller is returned with the state that step left; a success leaves the state unchanged exactly when the disk was already attached, and otherwise it appended the disk, after a new controller or not |
| Vclib.AttachWhenAttachedChangesNothing | pkg/cloudprovider/providers/vsphere/vclib/virtualmachine.go:138-146 | when a disk carries the path's UUID, attach returns that UUID and the VM state, call log included, is unchanged |
| Vclib.FreshAttachAppendsDisk | pkg/cloudprovider/providers/vsphere/vclib/virtualmachine.go:167-193 | a successful attach of a detached disk leaves the new disk last and reports its name and UUID |
| Vclib.AttachTwiceIsIdempotent | pkg/cloudprovider/providers/vsphere/vclib/virtualmachine.go:143-193 | after a successful attach of the disk at the path, a second attach returns the same UUID and changes nothing |
| Vclib.AttachProfile | pkg/cloudprovider/providers/vsphere/vclib/virtualmachine.go:153-166 | every reconfigure an attach requests adds exactly the new disk, with a profile entry exactly when the policy ID is non-empty, and that entry carries the ID |
| Vclib.CommitOnlyReconfigures | pkg/cloudprovider/providers/vsphere/vclib/virtualmachine.go:167-192 | after the disk spec is built, only the disk-add reconfigure is requested; rollback and detach add no reconfigure |
| Vclib.AttachRollsBackNewController | pkg/cloudprovider/providers/vsphere/vclib/virtualmachine.go:167-182 | when the reconfigure or its task fails, the controller this attach created is removed before the reconfigure's error is returned; the VM is back to its old device list when the removal succeeds |
| Vclib.AttachDiskInfoFailureCleansUp | pkg/cloudprovider/providers/vsphere/vclib/virtualmachine.go:184-191 | when reading the disk info back fails after the reconfigure succeeded, that error is returned, the controller this attach created and the new disk are removed in that order, and the devices are those before the attach |
| Vclib.CommitDiskInfoFailureCleansUp | pkg/cloudprovider/providers/vsphere/vclib/virtualmachine.go:184-191 | the same clean-up stated from the point where the disk spec is built |
| Vclib.NewControllerAppended | pkg/cloudprovider/providers/vsphere/vclib/virtualmachine.go:329-347 | a created and added controller is appended to the devices and logged as one add |
| Vclib.RollbackOfController | pkg/cloudprovider/providers/vsphere/vclib/virtualmachine.go:266-291 | deleting a controller that no later device shares a type with removes exactly it, with one logged removal |
| Vclib.DetachOfAppendedDisk | pkg/cloudprovider/providers/vsphere/vclib/virtualmachine.go:222-246 | detaching a disk appended last, whose UUID and name no earlier device has, is one removal of exactly that disk |
| Vclib.ControllerLimitEnforced | pkg/cloudprovider/providers/vsphere/vclib/virtualmachine.go:323-328 | creation fails with the limit error exactly at or above the limit, and then nothing is requested |
| Vclib.CreatedControllerSettings | pkg/cloudprovider/providers/vsphere/vclib/virtualmachine.go:334-347 | a created controller has hot add/remove, no bus sharing and the requested type; it is appended, and the count was below the limit |
| Vclib.FailedAddRemovesExistingController | pkg/cloudprovider/providers/vsphere/vclib/virtualmachine.go:340-345 | after a failed AddDevice, the clean-up removes the last controller of the type that was already on the VM, and AddDevice's error is returned |
| Vclib.DetachMissingDiskRequestsNothing | pkg/cloudprovider/providers/vsphere/vclib/virtualmachine.go:228-232 | detaching a disk no device holds gives ErrNoDiskIDFound and requests nothing |
| Vclib.DetachRemovesTheDisk | pkg/cloudprovider/providers/vsphere/vclib/virtualmachine.go:222-246 | a successful detach found the disk's device by name, removed exactly it, and logged one removal |
| Vclib.VirtualMachine.AddDevice | pkg/cloudprovider/providers/vsphere/vclib/virtualmachine.go:340 | the add is logged, and the device is appended unless the call fails |
| Vclib.VirtualMachine.RemoveDevice | pkg/cloudprovider/providers/vsphere/vclib/virtualmachine.go:286 | the removal is logged, and the device is gone unless the call fails |
| Vclib.VirtualMachine.ReconfigureAndWait | pkg/cloudprovider/providers/vsphere/vclib/virtualmachine.go:167-182 | a refused reconfigure changes nothing; a failed task is logged with no device change; success appends the device |
| Vclib.VirtualMachine.DeleteController | pkg/cloudprovider/providers/vsphere/vclib/virtualmachine.go:266-291 | the new state and result are those of the DeleteController step |
| Vclib.VirtualMachine.CreateAndAttachScsiController | pkg/cloudprovider/providers/vsphere/vclib/virtualmachine.go:316-347 | the new state and result are those of the createAndAttachSCSIController step |
| Vclib.VirtualMachine.DetachDisk | pkg/cloudprovider/providers/vsphere/vclib/virtualmachine.go:222-246 | the new state and result are those of the DetachDisk step |
| Vclib.VirtualMachine.AttachDisk | pkg/cloudprovider/providers/vsphere/vclib/virtualmachine.go:132-194 | the new state and result are those of the AttachDisk step |
| VmdkOps.NatToString | vmdkops-esxsrv/vmdk_ops.py:344 | str() of a number is a non-empty string of decimal digits |
| VmdkOps.IntToString | vmdkops-esxsrv/vmdk_ops.py:344 | str() of an integer is non-empty, starts with '-' exactly for a negative number, and is decimal digits otherwise |
| VmdkOps.ParseIntToString | vmdkops-esxsrv/vmdk_ops.py:344 | reading back what str() writes gives the same integer |
| VmdkOps.BusInfo | vmdkops-esxsrv/vmdk_ops.py:342-344 | the reply has exactly the keys Unit and Bus, and they read back as the numbers given |
| VmdkOps.BasenameIsLastComponent | vmdkops-esxsrv/vmdk_ops.py:334-335 | the basename is the suffix after the last '/', and contains no '/' |
| VmdkOps.RStripSlashes | vmdkops-esxsrv/vmdk_ops.py:333 | the stripped head is a prefix of the input that does not end in '/', and everything cut off is '/' |
| VmdkOps.Dirname | vmdkops-esxsrv/vmdk_ops.py:333 | the directory is the part before the basename with the separating '/' characters cut off; one that still ends in '/' is all slashes (the root) |
| VmdkOps.Join | vmdkops-esxsrv/vmdk_ops.py:270 | an absolute second part replaces the first; otherwise the result starts with the first part and ends with the second, with at most one '/' added between |
| VmdkOps.GetVmdkName | vmdkops-esxsrv/vmdk_ops.py:268-270 | for a volume name that is not absolute, the path starts with the volumes folder and ends with name + ".vmdk", with a '/' between when the folder is non-empty |
| VmdkOps.BasenameOfJoin | vmdkops-esxsrv/vmdk_ops.py:268-270 | the basename of a joined path is the file joined |
| VmdkOps.StripVmdkExtension | vmdkops-esxsrv/vmdk_ops.py:209-211 | the result is never longer, and a name without ".vmdk" in it is left unchanged |
| VmdkOps.StripAppendedExtension | vmdkops-esxsrv/vmdk_ops.py:209-211 | stripping a name with ".vmdk" appended gives the name back, when the name holds no ".vmdk" |
| VmdkOps.VolumeNameRoundTrip | vmdkops-esxsrv/vmdk_ops.py:268-270 | the basename of a volume's vmdk path is name + ".vmdk", and stripping it gives the volume name back |
| VmdkOps.ExecuteRequest | vmdkops-esxsrv/vmdk_ops.py:273-294 | a handler runs exactly for a known command when a volumes folder exists, and every handler but list gets the volume's vmdk path; any other request gets a reply holding only an Error key |
| VmdkOps.ExecuteRequestDispatch | vmdkops-esxsrv/vmdk_ops.py:273-294 | each command reaches its own handler with the vmdk path in the volumes folder; otherwise the two exact error replies |
| VmdkOps.FieldEnd | vmdkops-esxsrv/vmdk_ops.py:329 | the first field of a split on " " ends at the first space, or at the end |
| VmdkOps.SecondField | vmdkops-esxsrv/vmdk_ops.py:329 | there is no second field (split(" ")[1] raises) exactly when there is no space, and the field has no space |
| VmdkOps.SecondFieldBetweenSpaces | vmdkops-esxsrv/vmdk_ops.py:329 | the second field is exactly the text after the first space up to the next space or the end |
| VmdkOps.DiskTarget | vmdkops-esxsrv/vmdk_ops.py:331-335 | the target ends with the basename of the vmdk path after a '/', and that '/' is the only one in the target |
| VmdkOps.FindDevice | vmdkops-esxsrv/vmdk_ops.py:318-339 | a device that is found is a VirtualDisk |
| VmdkOps.FindDeviceByPath | vmdkops-esxsrv/vmdk_ops.py:318-339 | the loop returns the first disk whose backing field is "<resolved parent>/<file>", nothing, or the IndexError of a file name without a space |
| VmdkOps.FindDeviceMeaning | vmdkops-esxsrv/vmdk_ops.py:318-339 | a found device is a disk whose field is the target with every device before it skipped; nothing is found exactly when every device is skipped; an error is an IndexError at a disk whose file name has no space, with every device before it skipped |
| VmdkOps.FindDeviceAt | vmdkops-esxsrv/vmdk_ops.py:318-339 | when every device before it is skipped, the scan returns a matching disk, raises at a disk without a second field, and otherwise goes past it |
| VmdkOps.ScsiControllers | vmdkops-esxsrv/vmdk_ops.py:408 | exactly the SCSI controllers of the list, never more than the list |
| VmdkOps.ScsiControllersConcat | vmdkops-esxsrv/vmdk_ops.py:408 | selecting from two lists joined is joining the two selections, so the list order is kept |
| VmdkOps.ScsiControllersCount | vmdkops-esxsrv/vmdk_ops.py:408 | each SCSI controller is selected as often as it is listed, so len(controllers) is the controller count |
| VmdkOps.Pvscsis | vmdkops-esxsrv/vmdk_ops.py:411 | exactly the paravirtual controllers, never more than the list |
| VmdkOps.PvscsisFirst | vmdkops-esxsrv/vmdk_ops.py:411-414 | pvsci[0] is the first paravirtual controller in device order |
| VmdkOps.PvscsisOfControllers | vmdkops-esxsrv/vmdk_ops.py:408-411 | picking the SCSI controllers first changes nothing about the paravirtual ones |
| VmdkOps.TakenBuses | vmdkops-esxsrv/vmdk_ops.py:425 | every controller's bus is taken, and there are no more taken buses than controllers |
| VmdkOps.TakenBusesUsed | vmdkops-esxsrv/vmdk_ops.py:425 | every taken bus number is the bus of a listed SCSI controller |
| VmdkOps.FreeBusExists | vmdkops-esxsrv/vmdk_ops.py:419-428 | with fewer than four SCSI controllers, a bus in 0..3 is free, so the pop cannot fail |
| VmdkOps.PlanAttach | vmdkops-esxsrv/vmdk_ops.py:383-481 | the plan is one of those disk_attach may make, with the bus and the unit chosen from the free ones |
| VmdkOps.AttachPlanGuarantees | vmdkops-esxsrv/vmdk_ops.py:404-481 | the plan guarantees several things: out of bus slots exactly when there is no PVSCSI and there are four or more controllers, checked before the attached check; the first PVSCSI is reused with no controller added; otherwise a PVSCSI is added first, on a bus in 0..3 that no controller uses, with key 1000 + bus; the unit is in 0..5 or 8..15 and unused on the controller; the disk add comes last; an attached disk is reported |
| VmdkOps.WithStatusAttached | vmdkops-esxsrv/vmdk_ops.py:346-355 | the saved metadata has status "attached" and the VM's uuid, keeps every other key, and adds no other key |
| VmdkOps.WithStatusDetached | vmdkops-esxsrv/vmdk_ops.py:357-367 | the saved metadata has status "detached" and no attachedVMUuid, keeps every other key, and adds no other key |
| VmdkOps.StatusUpdateOfFreshVolume | vmdkops-esxsrv/vmdk_ops.py:346-367 | as written, marking a volume without metadata raises TypeError; the corrected updates record the status and agree with the written ones wherever those succeed |
| VmdkOps.StatusAttached | vmdkops-esxsrv/vmdk_ops.py:369-380 | attached exactly when there is metadata whose status is "attached"; a uuid exactly when there is metadata with both a status and an attachedVMUuid, and then it is that uuid |
| VmdkOps.StatusRoundTrip | vmdkops-esxsrv/vmdk_ops.py:369-380 | a status set to attached reads back as (True, uuid) and one set to detached as (False, None); no metadata or no status reads as (False, None); a missing uuid key reads as None |
| VmdkOps.MarkAttached | vmdkops-esxsrv/vmdk_ops.py:346-355 | the volume reads back as attached to the VM, and only its entry changes |
| VmdkOps.MarkDetached | vmdkops-esxsrv/vmdk_ops.py:357-367 | the volume reads back as detached, and only its entry changes |
| VmdkOps.KvStore.SetAll | vmdkops-esxsrv/vmdk_ops.py:354 | the volume's metadata is replaced and no other volume's changes |
| VmdkOps.KvStore.SetStatusAttached | vmdkops-esxsrv/vmdk_ops.py:346-355 | only this volume's metadata changes, to the attached form |
| VmdkOps.KvStore.SetStatusDetached | vmdkops-esxsrv/vmdk_ops.py:357-367 | only this volume's metadata changes, to the detached form |
| VmdkOps.Without | vmdkops-esxsrv/vmdk_ops.py:518-525 | a removal leaves exactly the other devices, and a device that is not listed leaves the list as it is |
| VmdkOps.WithoutCount | vmdkops-esxsrv/vmdk_ops.py:518-525 | every occurrence of the device goes, and every other device keeps its multiplicity |
| VmdkOps.WithoutConcat | vmdkops-esxsrv/vmdk_ops.py:518-525 | removing from two lists joined is joining the two removals, so the other devices keep their order |
| VmdkOps.CommitAttach | vmdkops-esxsrv/vmdk_ops.py:443-500 | a reconfigure is sent exactly when the plan has one, and its changes apply exactly when the task succeeds; a refusal replies with its message and a raising lookup propagates, both with nothing changed; an attached disk replies with its unit and bus number, and so does a successful task with the planned ones; a VimFault replies with the failure message and any other task error propagates; the reply has no Error key exactly when the disk was found attached or the task succeeded, and only then the volume reads back as attached to this VM, with no other volume changed |
| VmdkOps.DetachStep | vmdkops-esxsrv/vmdk_ops.py:506-536 | one removal of the found disk is sent exactly when a disk is found; an IndexError from the lookup propagates and a disk not found replies "Detach failed", both with nothing changed; a GenericVmConfigFault replies "Failed to detach" and any other fault propagates by name; None is returned exactly when the disk is found and the task succeeds, and then exactly that disk is gone and only this volume reads back as detached; otherwise nothing changes but the request log |
| VmdkOps.AttachAlreadyAttached | vmdkops-esxsrv/vmdk_ops.py:443-448 | an attached disk is reported at its unit and controller key - 1000, nothing is sent to the VM, and the metadata reads attached to this VM |
| VmdkOps.AttachRefusedChangesNothing | vmdkops-esxsrv/vmdk_ops.py:419-422 | a refusal replies with the error message and changes nothing, and so does a raising lookup |
| VmdkOps.AttachSucceeded | vmdkops-esxsrv/vmdk_ops.py:483-500 | a successful task replies with the unit and bus, sends exactly the planned changes, adds the devices, marks only this volume attached to this VM |
| VmdkOps.AttachFaultReply | vmdkops-esxsrv/vmdk_ops.py:486-495 | a VimFault becomes an error reply starting with the fault's message, extended exactly when the metadata says the disk is on another VM; the metadata and devices do not change |
| VmdkOps.DetachMissingDisk | vmdkops-esxsrv/vmdk_ops.py:509-516 | detaching a disk the VM does not have replies with the not-found error and sends nothing |
| VmdkOps.DetachSucceeded | vmdkops-esxsrv/vmdk_ops.py:518-536 | a successful detach sends one removal of the found disk, removes exactly it, replies None, and marks the volume detached |
| VmdkOps.DetachOtherFaultRaises | vmdkops-esxsrv/vmdk_ops.py:527-532 | a fault other than GenericVmConfigFault propagates, and the metadata is untouched |
| VmdkOps.EsxVm.ReconfigVmTask | vmdkops-esxsrv/vmdk_ops.py:487 | the request is recorded, and its changes apply exactly when the task succeeds |
| VmdkOps.DiskAttach | vmdkops-esxsrv/vmdk_ops.py:383-500 | the plan made is an allowed attach plan, and the reply and the new VM and metadata state are those the plan and the task outcome determine |
| VmdkOps.CarryOutAttachPlan | vmdkops-esxsrv/vmdk_ops.py:443-500 | the reply and the new VM and metadata state are those CommitAttach gives for the plan and the task outcome |
| VmdkOps.DiskDetach | vmdkops-esxsrv/vmdk_ops.py:506-536 | the reply and the new VM and metadata state are those of the detach step |
| VmdkOps.RemoveFirst | vmdkops-esxsrv/vmdk_ops.py:677 | list.remove drops exactly one occurrence |
| VmdkOps.ChangeStep | vmdkops-esxsrv/vmdk_ops.py:666-679 | one change never adds a pending task; an error names this task, which was pending; a change of another property does nothing |
| VmdkOps.ProcessChanges | vmdkops-esxsrv/vmdk_ops.py:664-679 | one object's changes never add a pending task, and an error they raise names this task, which was pending |
| VmdkOps.WaitSpec | vmdkops-esxsrv/vmdk_ops.py:659-681 | all done never consumes more updates than there are, and a blocked wait has tasks pending |
| VmdkOps.ProcessChangeSet | vmdkops-esxsrv/vmdk_ops.py:664-679 | the loop over one object's changes ends as the change-by-change specification does |
| VmdkOps.ProcessObjectSet | vmdkops-esxsrv/vmdk_ops.py:662-679 | the loop over a filter's objects ends as the object-by-object specification does |
| VmdkOps.ProcessFilterSet | vmdkops-esxsrv/vmdk_ops.py:661-679 | the loop over an update's filters ends as the filter-by-filter specification does |
| VmdkOps.WaitForTasks | vmdkops-esxsrv/vmdk_ops.py:641-684 | the nested loops end as the update-by-update specification does: all done, a task's error raised, or blocked |
| VmdkOps.UnknownTaskIgnored | vmdkops-esxsrv/vmdk_ops.py:672-673 | changes for a task that is not pending leave the list as it is |
| VmdkOps.ChangeStepEffect | vmdkops-esxsrv/vmdk_ops.py:665-679 | for an 'info' and an 'info.state' change alike, a success state removes a pending task once, an error state raises it, and other states change nothing |
| VmdkOps.ObjectsShrink | vmdkops-esxsrv/vmdk_ops.py:662-679 | the objects of one filter never add a pending task, and the task whose error they raise was pending |
| VmdkOps.UpdateShrinksPending | vmdkops-esxsrv/vmdk_ops.py:661-679 | an update never adds a pending task, and the task whose error it raises was pending |
| VmdkOps.DoneExactlyWhenEmpty | vmdkops-esxsrv/vmdk_ops.py:659 | the wait ends with every task done after exactly n updates when the list is non-empty before each of them and empty after the n-th |

## Left out

- Remote vSphere and govmomi calls are not modelled: `vm.Device`, `Reconfigure`, `task.Wait`, `AddDevice`, `RemoveDevice`, `QueryVirtualDiskUuid`, `CreateSCSIController`, `ReconfigVM_Task` and `WaitForUpdates`. Their results, including failures, are inputs, as described above. Each remote operation is either failing or working for the whole run. The device fetch in `GetVMDiskInfo` is an operation of its own (`DiskInfoDevices`), so it can fail after the earlier fetches worked.
- `formatVirtualDiskUUID`, `CheckControllerSupported`, `getSCSIControllers` and `SCSIControllerLimit` are defined outside the modelled files. They are an uninterpreted function, a set, the selection of SCSI controller types, and a number.
- `createDiskSpec` is not part of this model. Only its effect is modelled: an input says whether a new controller is needed, and the disk it builds is an input.
- `VerifyVolumeOptions` is not part of this model. `DiskManagers.VirtualDisk.Create` takes it as a predicate parameter. The managers' own `Create` and `Delete` are not modelled; the model stops at which manager receives the call.
- `Vclib.VirtualMachine.DeleteController`: the check that the VM object is nil is not modelled, because the modelled VM always exists.
- `Vclib.VirtualMachine.AttachDisk` models the three-value form `(deviceName, diskUUID, err)` that the body of `AttachDisk` returns. The declaration lists only two results. On the already-attached path the device name is "".
- Logging is left out everywhere: `glog` and `logging`. Only the reply text is modelled. The fault messages `disk_detach` logs for a GenericVmConfigFault (vmdk_ops.py:530-531) are left out too: `DetachStep` drops the fault's message.
- `createVMDK`, `removeVMDK`, `listVMDK`, `attachVMDK` and `detachVMDK` are subprocess and file-system work. They are left out. `VmdkOps.ExecuteRequest` names the handler that would run.
- `getVolPath` and `findVmByName` are also left out; the volumes folder is an input that may be None.
- `os.path.realpath` is a parameter.
- The VMCI server loop, the JSON parsing, the signal handlers and the ctypes code are not modelled.
- The reconnect in `connectLocal` and `wait_for_tasks`, and the property-collector filter, are not modelled. The updates `WaitForUpdates` delivers are a finite sequence, so a wait that would block forever ends as `Blocked`.
- `VmdkOps.KvStore.SetAll` always succeeds. A failed `kv.setAll` is only logged by the source, so nothing else depends on it.
- The disk's `diskMode` and `deviceInfo` label are not modelled. Neither is anything else in the add spec that no decision reads.
- `VmdkOps.PlanAttach` models the unit-slot search as written: it runs also on a freshly added controller. There, `diskSlot = 0` makes `not diskSlot` true.
- Backing file names in `findDeviceByPath` are split on " ". A split without a second field raises IndexError, modelled as `Err("IndexError")`. A file name whose path contains spaces is compared field by field, as the code does.
- Python's `set.pop()` order is not modelled. Any free element may be taken.
- NormalizeTrimmed counts characters where Go's `len(uuid)` and `uuid[a:b]` count bytes, so it agrees with `getvmUUID` only on ASCII contents. For `"VMware-"` followed by 16 two-byte letters, Go accepts 32 bytes, and the model reports a length mismatch for 16 characters.
- GetVmUuid inherits the same character count from NormalizeTrimmed, and agrees with the source only on ASCII file contents.
- AcceptedExactly states "32 characters remain", a check the source makes in bytes; the two agree on ASCII contents.
- CommitAttach records the status with the corrected metadata update. For a volume whose `kv.getAll` is None or empty, the source raises TypeError at `setStatusAttached`, after the reconfigure succeeded or on the already-attached path. The model replies and records the status instead (see "## Findings").
- MarkAttached is the corrected `setStatusAttached`; the as-written one raises TypeError for a volume without metadata.
- MarkDetached is the corrected `setStatusDetached`; the as-written one raises TypeError for a volume without metadata.
- KvStore.SetStatusAttached uses the corrected update, so for a volume without metadata it records the status where the source raises TypeError.
- KvStore.SetStatusDetached uses the corrected update, so for a volume without metadata it records the status where the source raises TypeError.
- DetachStep records the detached status with the corrected update. For a volume without metadata, the source raises TypeError after the disk was removed, and the model returns None.
- DiskAttach and CarryOutAttachPlan inherit CommitAttach's corrected update: for a volume without metadata they reply with the bus info where the source raises TypeError.
- DiskDetach inherits DetachStep's corrected update: for a volume without metadata it returns None where the source raises TypeError.
- AttachAlreadyAttached states the bus-info reply and the attached status for every volume. For a volume whose `kv.getAll` is None or empty, the source raises TypeError on this path instead (vmdk_ops.py:447 calls `setStatusAttached`).
- AttachSucceeded states the bus-info reply and the attached status for every volume. For a volume without metadata, the source raises TypeError after the reconfigure succeeded.
- DetachSucceeded states the None reply and the detached status for every volume. For a volume without metadata, the source raises TypeError after the disk was removed.
- vSphere rewrites the backing file name of a newly added disk to "[datastore] folder/file". That rewrite is not modelled: the new disk's backing file name stays `"[] " + vmdkPath`, as the add spec writes it (vmdk_ops.py:469). Its second field is the whole vmdk path, not the "parent/file" form of `DiskTarget`. So, after an attach, `findDeviceByPath` in the model finds the new disk only when the vmdk path is itself of that form.
- DetachDiskStep reads the device list once. The source calls `vm.Device` a second time inside `GetVirtualDiskID`. In the model both reads see the same list, so the "device not found" branch after a found disk ID cannot be reached.
- SelectByType states membership and length in its own contract. Order, multiplicities and the last element are stated in SelectByTypeConcat, SelectByTypeCount and SelectByTypeLast.
- ScsiControllers, in both modules, states membership in its own contract. The count and the order are stated in ScsiControllersCount, ScsiControllersAppend and ScsiControllersConcat.
- Pvscsis states membership in its own contract; that `pvsci[0]` is the first paravirtual controller in device order is stated in PvscsisFirst.
- TakenBuses states that every controller's bus is taken. The converse, that every taken bus belongs to a controller, is stated in TakenBusesUsed.
- FindByName states that a found device has the name, and nothing is found only when no device has it. That the device found is the first one is stated in FindByNameIsFirst.
- Without, in both modules, states membership in its own contract. The order and multiplicities of the remaining devices are stated in WithoutConcat and WithoutCount.
- Basename states only its length in its own contract. What it is, the suffix after the last '/', is stated in BasenameIsLastComponent.

## Findings

| source | as written | input that shows it | evidently intended | confidence | as-written member | corrected member |
|---|---|---|---|---|---|---|
| vmdkops-esxsrv/vmdk_ops.py:346-367 | `setStatusAttached` and `setStatusDetached` replace missing or empty metadata with a list (`volMeta = []`), then assign a string key. That raises TypeError. | a volume whose metadata store has no entry (kv.getAll returns None), marked attached or detached | start from an empty dictionary, so the status is recorded for a fresh volume | high; not executed | VmdkOps.StatusUpdateOfFreshVolume | VmdkOps.StatusRoundTrip |
