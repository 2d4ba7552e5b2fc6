/**
 * The ESX-side volume service (vmdkops-esxsrv/vmdk_ops.py): request
 * dispatch, volume-path naming, the attach planner that picks a PVSCSI
 * controller and a unit slot, detach, the volume metadata status, and the
 * pending-task loop of wait_for_tasks.
 *
 * The VM is a device list plus the log of reconfigure requests sent for
 * it; the volume metadata store is a map from disk path to a dictionary.
 * What vSphere answers (the outcome of a reconfigure task, the property
 * collector's updates) and os.path.realpath are parameters.
 */
module VmdkOps {
  import opened Results

  /** A Python dictionary of strings: volume metadata and the replies sent back. */
  type Dict = map<string, string>

  // ---------------------------------------------------------------------
  // Python's str(int) and the reply dictionaries

  function DigitChar(d: int): char
    requires 0 <= d < 10
  {
    ('0' as int + d) as char
  }

  predicate IsDigit(c: char) {
    '0' as int <= c as int <= '9' as int
  }

  /** Decimal digits of n, as str() writes them. */
  function NatToString(n: nat): (r: string)
    ensures |r| > 0 && forall i :: 0 <= i < |r| ==> IsDigit(r[i])
  {
    if n < 10 then [DigitChar(n)] else NatToString(n / 10) + [DigitChar(n % 10)]
  }

  /** Python's str() of an int: a '-' exactly for a negative number, then decimal digits. */
  function IntToString(i: int): (r: string)
    ensures r != [] && (r[0] == '-' <==> i < 0)
    ensures forall k :: (if i < 0 then 1 else 0) <= k < |r| ==> IsDigit(r[k])
  {
    if i < 0 then "-" + NatToString(-i) else NatToString(i)
  }

  function ParseNat(s: string): nat
    requires forall i :: 0 <= i < |s| ==> IsDigit(s[i])
  {
    if s == [] then 0
    else
      assert IsDigit(s[|s| - 1]);
      ParseNat(s[..|s| - 1]) * 10 + (s[|s| - 1] as int - '0' as int)
  }

  /** Python's int() on the strings str() produces. */
  function ParseInt(s: string): int {
    if |s| > 0 && s[0] == '-' && forall i :: 1 <= i < |s| ==> IsDigit(s[i]) then -(ParseNat(s[1..]) as int)
    else if forall i :: 0 <= i < |s| ==> IsDigit(s[i]) then ParseNat(s)
    else 0
  }

  lemma {:induction false} ParseNatToString(n: nat)
    ensures ParseNat(NatToString(n)) == n
  {
    if n >= 10 {
      var s := NatToString(n);
      assert s[..|s| - 1] == NatToString(n / 10);
      ParseNatToString(n / 10);
    }
  }

  lemma ParseIntToString(i: int)
    ensures ParseInt(IntToString(i)) == i
  {
    if i < 0 {
      assert IntToString(i)[1..] == NatToString(-i);
      ParseNatToString(-i);
    } else {
      ParseNatToString(i);
    }
  }

  /** busInfo: a reply with a Unit and a Bus entry, and no Error, that int() reads back as the numbers. */
  function BusInfo(unitNumber: int, busNumber: int): (r: Dict)
    ensures r.Keys == {"Unit", "Bus"}
    ensures ParseInt(r["Unit"]) == unitNumber && ParseInt(r["Bus"]) == busNumber
  {
    ParseIntToString(unitNumber);
    ParseIntToString(busNumber);
    map["Unit" := IntToString(unitNumber), "Bus" := IntToString(busNumber)]
  }

  /** err. */
  function ErrorReply(msg: string): Dict {
    map["Error" := msg]
  }

  // ---------------------------------------------------------------------
  // Paths (posixpath semantics)

  /** os.path.basename: what follows the last '/'. */
  function Basename(p: string): (r: string)
    ensures |r| <= |p|
  {
    if p == [] || p[|p| - 1] == '/' then [] else Basename(p[..|p| - 1]) + [p[|p| - 1]]
  }

  /** The basename is the suffix of the path after its last '/', and holds no '/'. */
  lemma {:induction false} BasenameIsLastComponent(p: string)
    ensures Basename(p) == p[|p| - |Basename(p)|..]
    ensures '/' !in Basename(p)
    ensures |Basename(p)| < |p| ==> p[|p| - |Basename(p)| - 1] == '/'
  {
    if p != [] && p[|p| - 1] != '/' {
      var q := p[..|p| - 1];
      BasenameIsLastComponent(q);
      assert p[|p| - |Basename(p)|..] == q[|q| - |Basename(q)|..] + [p[|p| - 1]];
    }
  }

  predicate AllSlashes(s: string) {
    forall i :: 0 <= i < |s| ==> s[i] == '/'
  }

  /** head.rstrip('/'): the longest prefix that does not end in '/'; only slashes are cut off. */
  function RStripSlashes(s: string): (r: string)
    ensures |r| <= |s| && r == s[..|r|]
    ensures r == [] || r[|r| - 1] != '/'
    ensures AllSlashes(s[|r|..])
  {
    if s != [] && s[|s| - 1] == '/' then
      var r := RStripSlashes(s[..|s| - 1]);
      assert s[|r|..] == s[..|s| - 1][|r|..] + ['/'];
      r
    else s
  }

  /**
   * os.path.dirname: a prefix of the head before the basename, from which
   * only slashes are cut, and which ends in '/' only when it is all slashes.
   */
  function Dirname(p: string): (r: string)
    ensures |r| + |Basename(p)| <= |p| && r == p[..|r|]
    ensures AllSlashes(p[|r|..|p| - |Basename(p)|])
    ensures r != [] && r[|r| - 1] == '/' ==> AllSlashes(r)
  {
    var head := p[..|p| - |Basename(p)|];
    if head != [] && !AllSlashes(head) then
      var r := RStripSlashes(head);
      assert head[|r|..] == p[|r|..|p| - |Basename(p)|];
      r
    else head
  }

  /**
   * os.path.join of two components: an absolute second component wins;
   * otherwise the first, exactly one '/' when the first is non-empty, and
   * the second.
   */
  function Join(a: string, b: string): (r: string)
    ensures |b| > 0 && b[0] == '/' ==> r == b
    ensures !(|b| > 0 && b[0] == '/') ==> |a| + |b| <= |r| && r[..|a|] == a && r[|r| - |b|..] == b
    ensures !(|b| > 0 && b[0] == '/') && a != [] ==> |r| <= |a| + |b| + 1 && r[|r| - |b| - 1] == '/'
  {
    if |b| > 0 && b[0] == '/' then b
    else if a == [] || a[|a| - 1] == '/' then a + b
    else a + "/" + b
  }

  const VmdkExtension := ".vmdk"

  /** getVmdkName: the volume's descriptor file, name + ".vmdk", inside the volumes folder. */
  function GetVmdkName(path: string, volName: string): (r: string)
    ensures volName == [] || volName[0] != '/' ==>
      && |path| + |volName| + 5 <= |r|
      && r[..|path|] == path && r[|r| - |volName| - 5..] == volName + VmdkExtension
      && (path != [] ==> r[|r| - |volName| - 6] == '/')
  {
    Join(path, volName + VmdkExtension)
  }

  /** s[i..] begins with pat. */
  predicate OccursAt(s: string, pat: string, i: nat) {
    i + |pat| <= |s| && s[i..i + |pat|] == pat
  }

  predicate Occurs(s: string, pat: string) {
    exists i: nat :: i <= |s| && OccursAt(s, pat, i)
  }

  /** Python's str.replace(pat, ""): every non-overlapping occurrence, scanning left to right, is removed. */
  function RemoveOccurrences(s: string, pat: string): (r: string)
    requires |pat| > 0
    ensures |r| <= |s|
    decreases |s|
  {
    if |s| < |pat| then s
    else if s[..|pat|] == pat then RemoveOccurrences(s[|pat|..], pat)
    else [s[0]] + RemoveOccurrences(s[1..], pat)
  }

  /** strip_vmdk_extension: never longer, and a name holding no ".vmdk" is left as it is. */
  function StripVmdkExtension(filename: string): (r: string)
    ensures |r| <= |filename|
    ensures !Occurs(filename, VmdkExtension) ==> r == filename
  {
    if Occurs(filename, VmdkExtension) then RemoveOccurrences(filename, VmdkExtension)
    else
      RemoveAbsent(filename, VmdkExtension);
      RemoveOccurrences(filename, VmdkExtension)
  }

  lemma {:induction false} RemoveAbsent(s: string, pat: string)
    requires |pat| > 0 && !Occurs(s, pat)
    ensures RemoveOccurrences(s, pat) == s
    decreases |s|
  {
    if |s| >= |pat| {
      assert !OccursAt(s, pat, 0);
      assert !Occurs(s[1..], pat) by {
        forall i: nat | OccursAt(s[1..], pat, i) ensures false {
          assert s[1..][i..i + |pat|] == s[i + 1..i + 1 + |pat|];
          assert OccursAt(s, pat, i + 1);
        }
      }
      RemoveAbsent(s[1..], pat);
    }
  }

  lemma {:induction false} StripAppendedExtension(volName: string, i: nat)
    requires i <= |volName| && !Occurs(volName, VmdkExtension)
    ensures StripVmdkExtension((volName + VmdkExtension)[i..]) == volName[i..]
    decreases |volName| - i
  {
    var s := (volName + VmdkExtension)[i..];
    if i == |volName| {
      assert s == VmdkExtension;
      assert s[..5] == VmdkExtension && s[5..] == [];
    } else {
      assert s[..5] != VmdkExtension by {
        if i + 5 <= |volName| {
          assert s[..5] == volName[i..i + 5];
          assert !OccursAt(volName, VmdkExtension, i);
        } else {
          // the '.' of the appended extension would sit inside ".vmdk" past its first character
          var k := |volName| - i;
          assert 1 <= k <= 4;
          assert s[k] == '.';
        }
      }
      assert s[1..] == (volName + VmdkExtension)[i + 1..];
      StripAppendedExtension(volName, i + 1);
      assert volName[i..] == [volName[i]] + volName[i + 1..];
    }
  }

  lemma {:induction false} BasenameAfterSeparator(a: string, b: string)
    requires '/' !in b
    requires a == [] || a[|a| - 1] == '/'
    ensures Basename(a + b) == b
    decreases |b|
  {
    if b == [] {
      assert a + b == a;
    } else {
      assert (a + b)[..|a + b| - 1] == a + b[..|b| - 1];
      BasenameAfterSeparator(a, b[..|b| - 1]);
      assert b == b[..|b| - 1] + [b[|b| - 1]];
    }
  }

  /** Appending the extension to a name without '/' gives a file name without '/'. */
  lemma NoSlashInVmdkFile(volName: string)
    requires '/' !in volName
    ensures '/' !in volName + VmdkExtension
  {
    var file := volName + VmdkExtension;
    forall i | 0 <= i < |file| ensures file[i] != '/' {
      if i < |volName| {
        assert file[i] == volName[i];
      } else {
        assert file[i] == VmdkExtension[i - |volName|];
      }
    }
  }

  lemma BasenameOfJoin(path: string, file: string)
    requires '/' !in file && file != []
    ensures Basename(Join(path, file)) == file
  {
    if path == [] || path[|path| - 1] == '/' {
      BasenameAfterSeparator(path, file);
    } else {
      assert path + "/" + file == (path + "/") + file;
      BasenameAfterSeparator(path + "/", file);
    }
  }

  /**
   * Naming a volume and reading its name back: the basename of the vmdk
   * path, with the extension stripped, is the volume name again, for a
   * name without '/' and without ".vmdk" in it.
   */
  lemma VolumeNameRoundTrip(path: string, volName: string)
    requires '/' !in volName && !Occurs(volName, VmdkExtension)
    ensures Basename(GetVmdkName(path, volName)) == volName + VmdkExtension
    ensures StripVmdkExtension(Basename(GetVmdkName(path, volName))) == volName
  {
    var file := volName + VmdkExtension;
    NoSlashInVmdkFile(volName);
    BasenameOfJoin(path, file);
    StripAppendedExtension(volName, 0);
    assert file[0..] == file && volName[0..] == volName;
  }

  // ---------------------------------------------------------------------
  // Request dispatch

  /** The handler executeRequest hands a request to. */
  datatype Handler =
    | CreateVmdk(vmdkPath: string, volName: string, opts: Dict)
    | RemoveVmdk(vmdkPath: string)
    | ListVmdk(path: string)
    | AttachVmdk(vmdkPath: string, vmName: string)
    | DetachVmdk(vmdkPath: string, vmName: string)

  datatype Dispatch = Invoke(handler: Handler) | Respond(reply: Dict)

  /**
   * executeRequest. volPath is what getVolPath returns for the VM's config
   * path: the volumes folder, or None when it could not be created.
   */
  function ExecuteRequest(vmName: string, volPath: Option<string>, cmd: string, volName: string, opts: Dict): (r: Dispatch)
    ensures r.Invoke? <==> volPath.Some? && IsKnownCommand(cmd)
    ensures r.Invoke? && !r.handler.ListVmdk? ==> r.handler.vmdkPath == GetVmdkName(volPath.value, volName)
    ensures r.Respond? ==> r.reply.Keys == {"Error"}
  {
    if volPath.None? then Respond(ErrorReply("Failed initializing volume path None"))
    else
      var path := volPath.value;
      var vmdkPath := GetVmdkName(path, volName);
      if cmd == "create" then Invoke(CreateVmdk(vmdkPath, volName, opts))
      else if cmd == "remove" then Invoke(RemoveVmdk(vmdkPath))
      else if cmd == "list" then Invoke(ListVmdk(path))
      else if cmd == "attach" then Invoke(AttachVmdk(vmdkPath, vmName))
      else if cmd == "detach" then Invoke(DetachVmdk(vmdkPath, vmName))
      else Respond(ErrorReply("Unknown command:" + cmd))
  }

  predicate IsKnownCommand(cmd: string) {
    cmd in {"create", "remove", "list", "attach", "detach"}
  }

  /**
   * Every known command reaches its handler with the volume's vmdk path in
   * the volumes folder; any other command, and any request without a
   * volumes folder, gets an error reply and no handler runs.
   */
  lemma ExecuteRequestDispatch(vmName: string, volPath: Option<string>, cmd: string, volName: string, opts: Dict)
    ensures ExecuteRequest(vmName, volPath, cmd, volName, opts).Invoke? <==> volPath.Some? && IsKnownCommand(cmd)
    ensures volPath.None? ==>
      ExecuteRequest(vmName, volPath, cmd, volName, opts) == Respond(map["Error" := "Failed initializing volume path None"])
    ensures volPath.Some? && !IsKnownCommand(cmd) ==>
      ExecuteRequest(vmName, volPath, cmd, volName, opts) == Respond(map["Error" := "Unknown command:" + cmd])
    ensures volPath.Some? && ExecuteRequest(vmName, volPath, cmd, volName, opts).Invoke? ==>
      var h := ExecuteRequest(vmName, volPath, cmd, volName, opts).handler;
      && (cmd == "create" <==> h.CreateVmdk?) && (cmd == "remove" <==> h.RemoveVmdk?)
      && (cmd == "list" <==> h.ListVmdk?) && (cmd == "attach" <==> h.AttachVmdk?)
      && (cmd == "detach" <==> h.DetachVmdk?)
      && (!h.ListVmdk? ==> h.vmdkPath == GetVmdkName(volPath.value, volName))
      && (h.ListVmdk? ==> h.path == volPath.value)
      && ((h.AttachVmdk? || h.DetachVmdk?) ==> h.vmName == vmName)
  {
  }

  // ---------------------------------------------------------------------
  // Devices

  datatype ControllerKind = ParaVirtual | OtherScsi(typeName: string)

  datatype EsxDevice =
    | VirtualDisk(fileName: string, unitNumber: int, controllerKey: int)
    | ScsiController(kind: ControllerKind, key: int, busNumber: int, sharedBus: string)
    | OtherDevice(key: int, typeName: string)

  /** A device of type VirtualDisk. */
  type DiskDevice = d: EsxDevice | d.VirtualDisk? witness VirtualDisk("", 0, 0)

  datatype DeviceChange = AddDevice(device: EsxDevice) | RemoveDevice(device: EsxDevice)

  /** SCSI controller keys are 1000 + bus number. */
  const OffsetFromBusNumber: int := 1000
  const MaxScsiControllers: int := 4

  /** Unit numbers a new disk may take: 0..5 and 8..15. */
  const DiskSlots: set<int> := (set u | 0 <= u < 6) + (set u | 8 <= u < 16)

  /** The bus numbers a controller may take: 0..3. */
  const BusSlots: set<int> := set b | 0 <= b < MaxScsiControllers

  const OutOfBusSlotsMsg := "Failed to place PVSCI adapter - out of bus slots"
  const OutOfDiskSlotsMsg := "Failed to place new disk - out of disk slots"

  /** str.split(" ") index: the length of the leading run without a space. */
  function FieldEnd(s: string): (n: nat)
    ensures n <= |s| && ' ' !in s[..n]
    ensures n < |s| ==> s[n] == ' '
  {
    if s == [] || s[0] == ' ' then 0
    else
      var n := 1 + FieldEnd(s[1..]);
      assert s[..n] == [s[0]] + s[1..][..n - 1];
      n
  }

  /** s.split(" ")[1], or None where Python raises IndexError: there is one exactly when s holds a space. */
  function SecondField(s: string): (r: Option<string>)
    ensures r.None? <==> ' ' !in s
    ensures r.Some? ==> ' ' !in r.value
  {
    var first := FieldEnd(s);
    if first == |s| then
      assert s[..first] == s;
      None
    else
      var rest := s[first + 1..];
      Some(rest[..FieldEnd(rest)])
  }

  /** The second field is the text between the first space and the next space (or the end). */
  lemma SecondFieldBetweenSpaces(s: string, i: int, j: int)
    requires 0 <= i < j <= |s| && s[i] == ' ' && ' ' !in s[..i]
    requires ' ' !in s[i + 1..j] && (j == |s| || s[j] == ' ')
    ensures SecondField(s) == Some(s[i + 1..j])
  {
    FieldEndAt(s, i);
    var rest := s[i + 1..];
    assert rest[..j - i - 1] == s[i + 1..j];
    FieldEndAt(rest, j - i - 1);
  }

  /** The first field ends at n exactly when there is no space before n and a space (or the end) at n. */
  lemma FieldEndAt(s: string, n: int)
    requires 0 <= n <= |s| && ' ' !in s[..n] && (n < |s| ==> s[n] == ' ')
    ensures FieldEnd(s) == n
  {
    var m := FieldEnd(s);
    forall k | 0 <= k < n ensures s[k] != ' ' {
      assert s[..n][k] == s[k];
    }
    forall k | 0 <= k < m ensures s[k] != ' ' {
      assert s[..m][k] == s[k];
    }
  }


  /** The backing file name of a disk disk_attach builds, "[] " + the vmdk path. */
  function NewDiskDevice(vmdkPath: string, unitNumber: int, controllerKey: int): EsxDevice {
    VirtualDisk("[] " + vmdkPath, unitNumber, controllerKey)
  }

  /** The "<parent directory>/<file>" findDeviceByPath looks for, with links in the directory resolved. */
  function DiskTarget(vmdkPath: string, realpath: string -> string): (r: string)
    ensures |Basename(vmdkPath)| < |r| && r[|r| - |Basename(vmdkPath)|..] == Basename(vmdkPath)
    ensures forall k :: 0 <= k < |r| && r[k] == '/' ==> k == |r| - |Basename(vmdkPath)| - 1
  {
    var dir := Basename(realpath(Dirname(vmdkPath)));
    var file := Basename(vmdkPath);
    BasenameIsLastComponent(realpath(Dirname(vmdkPath)));
    BasenameIsLastComponent(vmdkPath);
    var r := dir + "/" + file;
    assert forall k :: 0 <= k < |dir| ==> r[k] == dir[k];
    assert forall k :: |dir| < k < |r| ==> r[k] == file[k - |dir| - 1];
    r
  }

  /** findDeviceByPath over a device list: Err when a disk's file name has no space. */
  function FindDevice(devices: seq<EsxDevice>, target: string): (r: Result<Option<EsxDevice>, string>)
    ensures r.Ok? && r.value.Some? ==> r.value.value.VirtualDisk?
  {
    if devices == [] then Ok(None)
    else if !devices[0].VirtualDisk? then FindDevice(devices[1..], target)
    else match SecondField(devices[0].fileName)
      case None => Err("IndexError")
      case Some(backingDisk) =>
        if backingDisk == target then Ok(Some(devices[0])) else FindDevice(devices[1..], target)
  }

  /** findDeviceByPath. */
  method FindDeviceByPath(vmdkPath: string, devices: seq<EsxDevice>, realpath: string -> string)
    returns (r: Result<Option<EsxDevice>, string>)
    ensures r == FindDevice(devices, DiskTarget(vmdkPath, realpath))
  {
    ghost var target := DiskTarget(vmdkPath, realpath);
    var i := 0;
    while i < |devices|
      invariant 0 <= i <= |devices|
      invariant FindDevice(devices, target) == FindDevice(devices[i..], target)
    {
      var d := devices[i];
      assert devices[i..][0] == d && devices[i..][1..] == devices[i + 1..];
      if !d.VirtualDisk? {
        i := i + 1;
        continue;
      }
      var backingDisk := SecondField(d.fileName);
      if backingDisk.None? {
        return Err("IndexError");
      }
      var dvolDir := Dirname(vmdkPath);
      var realDvolDir := Basename(realpath(dvolDir));
      var virtualDisk := realDvolDir + "/" + Basename(vmdkPath);
      assert virtualDisk == target;
      if virtualDisk == backingDisk.value {
        return Ok(Some(d));
      }
      i := i + 1;
    }
    return Ok(None);
  }

  /** The scan of findDeviceByPath goes past d: it is not a disk, or its field is there and is not the target. */
  predicate Skipped(d: EsxDevice, target: string) {
    !d.VirtualDisk? || (SecondField(d.fileName).Some? && SecondField(d.fileName) != Some(target))
  }

  /** The scan stops at d with a match. */
  predicate MatchesTarget(d: EsxDevice, target: string) {
    d.VirtualDisk? && SecondField(d.fileName) == Some(target)
  }

  /** The scan stops at d with an IndexError. */
  predicate RaisesIndexError(d: EsxDevice) {
    d.VirtualDisk? && SecondField(d.fileName).None?
  }

  /**
   * The device found is a disk whose backing field is the target, with every
   * device before it skipped; nothing is found exactly when every device is
   * skipped; an error is an IndexError raised at a disk whose file name has
   * no space, with every device before it skipped.
   */
  lemma {:induction false} FindDeviceMeaning(devices: seq<EsxDevice>, target: string)
    ensures FindDevice(devices, target).Ok? && FindDevice(devices, target).value.Some? ==>
      exists i :: 0 <= i < |devices| && devices[i] == FindDevice(devices, target).value.value &&
        MatchesTarget(devices[i], target) && forall j :: 0 <= j < i ==> Skipped(devices[j], target)
    ensures FindDevice(devices, target) == Ok(None) <==> forall d :: d in devices ==> Skipped(d, target)
    ensures FindDevice(devices, target).Err? ==>
      FindDevice(devices, target).error == "IndexError" &&
      exists i :: 0 <= i < |devices| && RaisesIndexError(devices[i]) && forall j :: 0 <= j < i ==> Skipped(devices[j], target)
  {
    if devices != [] {
      FindDeviceMeaning(devices[1..], target);
      assert forall d :: d in devices <==> d == devices[0] || d in devices[1..];
      var r := FindDevice(devices, target);
      if Skipped(devices[0], target) && (r.Err? || (r.Ok? && r.value.Some?)) {
        assert r == FindDevice(devices[1..], target);
        var i :| 0 <= i < |devices[1..]| && (r.Err? ==> RaisesIndexError(devices[1..][i])) &&
          (r.Ok? ==> devices[1..][i] == r.value.value && MatchesTarget(devices[1..][i], target)) &&
          forall j :: 0 <= j < i ==> Skipped(devices[1..][j], target);
        assert devices[i + 1] == devices[1..][i];
        forall j | 0 <= j < i + 1 ensures Skipped(devices[j], target) {
          if j > 0 { assert devices[j] == devices[1..][j - 1]; }
        }
      }
    }
  }

  /**
   * The converse: when every device before devices[i] is skipped, the scan
   * ends at devices[i] if it matches or raises there, and continues past it
   * otherwise.
   */
  lemma {:induction false} FindDeviceAt(devices: seq<EsxDevice>, target: string, i: int)
    requires 0 <= i < |devices| && forall j :: 0 <= j < i ==> Skipped(devices[j], target)
    ensures MatchesTarget(devices[i], target) ==> FindDevice(devices, target) == Ok(Some(devices[i]))
    ensures RaisesIndexError(devices[i]) ==> FindDevice(devices, target) == Err("IndexError")
    ensures Skipped(devices[i], target) ==> FindDevice(devices, target) == FindDevice(devices[i + 1..], target)
  {
    if i > 0 {
      assert Skipped(devices[0], target);
      forall j | 0 <= j < i - 1 ensures Skipped(devices[1..][j], target) {
        assert devices[1..][j] == devices[j + 1];
      }
      assert devices[1..][i - 1] == devices[i] && devices[1..][i..] == devices[i + 1..];
      FindDeviceAt(devices[1..], target, i - 1);
    }
  }

  // ---------------------------------------------------------------------
  // The attach planner

  /**
   * The SCSI controllers of the list, in list order (ScsiControllersConcat)
   * and with their multiplicities (ScsiControllersCount).
   */
  function ScsiControllers(devices: seq<EsxDevice>): (r: seq<EsxDevice>)
    ensures |r| <= |devices|
    ensures forall d :: d in r <==> d in devices && d.ScsiController?
  {
    if devices == [] then []
    else if devices[0].ScsiController? then [devices[0]] + ScsiControllers(devices[1..])
    else ScsiControllers(devices[1..])
  }

  lemma {:induction false} ScsiControllersConcat(a: seq<EsxDevice>, b: seq<EsxDevice>)
    ensures ScsiControllers(a + b) == ScsiControllers(a) + ScsiControllers(b)
  {
    if a == [] {
      assert a + b == b;
    } else {
      assert (a + b)[1..] == a[1..] + b;
      ScsiControllersConcat(a[1..], b);
    }
  }

  /** len(controllers) counts every SCSI controller of the list, each as often as it is listed. */
  lemma {:induction false} ScsiControllersCount(devices: seq<EsxDevice>)
    ensures forall d :: multiset(ScsiControllers(devices))[d] == if d.ScsiController? then multiset(devices)[d] else 0
  {
    if devices != [] {
      ScsiControllersCount(devices[1..]);
      assert devices == [devices[0]] + devices[1..];
    }
  }

  predicate IsPvscsi(d: EsxDevice) {
    d.ScsiController? && d.kind == ParaVirtual
  }

  /** The paravirtual controllers of the list, in list order. */
  function Pvscsis(controllers: seq<EsxDevice>): (r: seq<EsxDevice>)
    ensures |r| <= |controllers|
    ensures forall d :: d in r <==> d in controllers && IsPvscsi(d)
  {
    if controllers == [] then []
    else if IsPvscsi(controllers[0]) then [controllers[0]] + Pvscsis(controllers[1..])
    else Pvscsis(controllers[1..])
  }

  /** pvsci[0] is the first paravirtual controller of the list. */
  lemma {:induction false} PvscsisFirst(controllers: seq<EsxDevice>, i: int)
    requires 0 <= i < |controllers| && IsPvscsi(controllers[i])
    requires forall j :: 0 <= j < i ==> !IsPvscsi(controllers[j])
    ensures Pvscsis(controllers) != [] && Pvscsis(controllers)[0] == controllers[i]
  {
    if i > 0 {
      forall j | 0 <= j < i - 1 ensures !IsPvscsi(controllers[1..][j]) {
        assert controllers[1..][j] == controllers[j + 1];
      }
      PvscsisFirst(controllers[1..], i - 1);
    }
  }

  /** Selecting the SCSI controllers first changes nothing about the paravirtual ones. */
  lemma {:induction false} PvscsisOfControllers(devices: seq<EsxDevice>)
    ensures Pvscsis(ScsiControllers(devices)) == Pvscsis(devices)
  {
    if devices != [] {
      PvscsisOfControllers(devices[1..]);
      if devices[0].ScsiController? {
        assert ([devices[0]] + ScsiControllers(devices[1..]))[1..] == ScsiControllers(devices[1..]);
      }
    }
  }

  /** The bus numbers the controllers use, and no other number. */
  function TakenBuses(controllers: seq<EsxDevice>): (r: set<int>)
    ensures |r| <= |controllers|
    ensures forall c :: c in controllers && c.ScsiController? ==> c.busNumber in r
  {
    if controllers == [] then {}
    else
      var rest := TakenBuses(controllers[1..]);
      var here: set<int> := if controllers[0].ScsiController? then {controllers[0].busNumber} else {};
      assert |here + rest| <= |here| + |rest|;
      here + rest
  }

  /** The converse: every taken bus number is used by a controller of the list. */
  lemma {:induction false} TakenBusesUsed(controllers: seq<EsxDevice>, b: int)
    requires b in TakenBuses(controllers)
    ensures exists c :: c in controllers && c.ScsiController? && c.busNumber == b
  {
    if controllers[0].ScsiController? && controllers[0].busNumber == b {
      assert controllers[0] in controllers;
    } else {
      TakenBusesUsed(controllers[1..], b);
      var c :| c in controllers[1..] && c.ScsiController? && c.busNumber == b;
      assert c in controllers;
    }
  }

  /** The bus slots 0..3 no controller of the list uses. */
  function FreeBuses(devices: seq<EsxDevice>): set<int> {
    BusSlots - TakenBuses(ScsiControllers(devices))
  }

  /** The allowed unit numbers no disk on the controller uses. */
  function FreeUnits(devices: seq<EsxDevice>, controllerKey: int): set<int> {
    DiskSlots - UnitsInUse(devices, controllerKey)
  }

  /** The unit numbers of the disks on the controller. */
  function UnitsInUse(devices: seq<EsxDevice>, controllerKey: int): set<int> {
    set d | d in devices && d.VirtualDisk? && d.controllerKey == controllerKey :: d.unitNumber
  }

  /** The PVSCSI controller disk_attach adds on a free bus. */
  function NewController(bus: int): EsxDevice {
    ScsiController(ParaVirtual, bus + OffsetFromBusNumber, bus, "noSharing")
  }

  lemma SubsetCardinality(a: set<int>, b: set<int>)
    requires a <= b
    ensures |a| <= |b|
  {
    assert b == a + (b - a);
    assert a * (b - a) == {};
  }

  /** Fewer than four SCSI controllers leave a bus slot among 0..3 free. */
  lemma FreeBusExists(devices: seq<EsxDevice>)
    requires |ScsiControllers(devices)| < MaxScsiControllers
    ensures FreeBuses(devices) != {}
  {
    var taken := TakenBuses(ScsiControllers(devices));
    var slots: set<int> := {0, 1, 2, 3};
    assert |slots| == 4;
    var bus: int;
    if 0 !in taken { bus := 0; }
    else if 1 !in taken { bus := 1; }
    else if 2 !in taken { bus := 2; }
    else if 3 !in taken { bus := 3; }
    else {
      SubsetCardinality(slots, taken);
      assert false;
    }
    assert bus in BusSlots;
    assert bus in FreeBuses(devices);
  }

  /** What disk_attach decides before it reconfigures the VM. */
  datatype AttachPlan =
    | Refused(msg: string)                // err(msg), no reconfigure
    | FindRaised(exception: string)       // findDeviceByPath raised
    | AlreadyAttached(device: DiskDevice) // the disk is there already
    | Reconfigure(changes: seq<DeviceChange>, unit: int, bus: int, controllerKey: int)

  /** The disk is placed on a free unit of the controller, or refused when there is none. */
  ghost predicate DiskPlaced(devices: seq<EsxDevice>, vmdkPath: string, controllerChanges: seq<DeviceChange>,
                             controllerKey: int, bus: int, plan: AttachPlan)
  {
    if FreeUnits(devices, controllerKey) == {} then plan == Refused(OutOfDiskSlotsMsg)
    else
      && plan.Reconfigure?
      && plan.unit in FreeUnits(devices, controllerKey)
      && plan.bus == bus && plan.controllerKey == controllerKey
      && plan.changes == controllerChanges + [AddDevice(NewDiskDevice(vmdkPath, plan.unit, controllerKey))]
  }

  /**
   * The plans disk_attach may make, given the device list and what the
   * device lookup returns; the free bus and the free unit are any element
   * of their sets, as set.pop() gives.
   */
  ghost predicate IsAttachPlan(devices: seq<EsxDevice>, found: Result<Option<EsxDevice>, string>, vmdkPath: string, plan: AttachPlan) {
    var pvscsi := Pvscsis(ScsiControllers(devices));
    if pvscsi == [] && |ScsiControllers(devices)| >= MaxScsiControllers then plan == Refused(OutOfBusSlotsMsg)
    else if found.Err? then plan == FindRaised(found.error)
    else if found.value.Some? then found.value.value.VirtualDisk? && plan == AlreadyAttached(found.value.value)
    else if pvscsi != [] then DiskPlaced(devices, vmdkPath, [], pvscsi[0].key, pvscsi[0].busNumber, plan)
    else
      exists bus :: bus in FreeBuses(devices) &&
        DiskPlaced(devices, vmdkPath, [AddDevice(NewController(bus))], bus + OffsetFromBusNumber, bus, plan)
  }

  /** The planning half of disk_attach, up to the reconfigure request it would send. */
  method PlanAttach(vmdkPath: string, devices: seq<EsxDevice>, realpath: string -> string) returns (plan: AttachPlan)
    ensures IsAttachPlan(devices, FindDevice(devices, DiskTarget(vmdkPath, realpath)), vmdkPath, plan)
  {
    var devChanges: seq<DeviceChange> := [];
    var controllers := ScsiControllers(devices);
    var pvsci := Pvscsis(controllers);
    var controllerKey: int;
    var busNumber: int;
    if |pvsci| > 0 {
      controllerKey := pvsci[0].key;
      busNumber := pvsci[0].busNumber;
    } else {
      if |controllers| >= MaxScsiControllers {
        return Refused(OutOfBusSlotsMsg);
      }
      var taken := TakenBuses(controllers);
      var avail := BusSlots - taken;
      FreeBusExists(devices);
      var key :| key in avail;
      controllerKey := key + OffsetFromBusNumber;
      busNumber := key;
      devChanges := devChanges + [AddDevice(ScsiController(ParaVirtual, controllerKey, key, "noSharing"))];
    }
    var device := FindDeviceByPath(vmdkPath, devices, realpath);
    if device.Err? {
      return FindRaised(device.error);
    }
    if device.value.Some? {
      return AlreadyAttached(device.value.value);
    }
    var taken := UnitsInUse(devices, controllerKey);
    var availSlots := DiskSlots - taken;
    if availSlots == {} {
      return Refused(OutOfDiskSlotsMsg);
    }
    var diskSlot :| diskSlot in availSlots;
    devChanges := devChanges + [AddDevice(NewDiskDevice(vmdkPath, diskSlot, controllerKey))];
    plan := Reconfigure(devChanges, diskSlot, busNumber, controllerKey);
    assert DiskPlaced(devices, vmdkPath, devChanges[..|devChanges| - 1], controllerKey, busNumber, plan);
  }

  /** What every attach plan guarantees. */
  lemma AttachPlanGuarantees(devices: seq<EsxDevice>, found: Result<Option<EsxDevice>, string>, vmdkPath: string, plan: AttachPlan)
    requires IsAttachPlan(devices, found, vmdkPath, plan)
    // the out-of-bus refusal, which comes before the already-attached check
    ensures plan == Refused(OutOfBusSlotsMsg) <==>
      Pvscsis(ScsiControllers(devices)) == [] && |ScsiControllers(devices)| >= MaxScsiControllers
    // a unit in 0..5 or 8..15 that no disk on the controller has
    ensures plan.Reconfigure? ==>
      && 0 <= plan.unit <= 15 && plan.unit != 6 && plan.unit != 7
      && forall d :: d in devices && d.VirtualDisk? && d.controllerKey == plan.controllerKey ==> d.unitNumber != plan.unit
    // the disk is added last, on the chosen controller and unit
    ensures plan.Reconfigure? ==>
      plan.changes != [] && plan.changes[|plan.changes| - 1] == AddDevice(VirtualDisk("[] " + vmdkPath, plan.unit, plan.controllerKey))
    // an existing PVSCSI controller is reused: the first one, and no controller is added
    ensures Pvscsis(ScsiControllers(devices)) != [] && plan.Reconfigure? ==>
      && plan.controllerKey == Pvscsis(ScsiControllers(devices))[0].key
      && plan.bus == Pvscsis(ScsiControllers(devices))[0].busNumber
      && |plan.changes| == 1
    // otherwise a PVSCSI controller is added first, on a bus 0..3 no controller uses, with key 1000 + bus
    ensures Pvscsis(ScsiControllers(devices)) == [] && plan.Reconfigure? ==>
      && 0 <= plan.bus < MaxScsiControllers
      && (forall c :: c in devices && c.ScsiController? ==> c.busNumber != plan.bus)
      && plan.controllerKey == plan.bus + OffsetFromBusNumber
      && |plan.changes| == 2
      && plan.changes[0] == AddDevice(ScsiController(ParaVirtual, plan.bus + 1000, plan.bus, "noSharing"))
    // an attached disk is reported as it is
    ensures found.Ok? && found.value.Some? && plan != Refused(OutOfBusSlotsMsg) ==> plan.AlreadyAttached? && plan.device == found.value.value
  {
    var pvscsi := Pvscsis(ScsiControllers(devices));
    if pvscsi == [] && !(|ScsiControllers(devices)| >= MaxScsiControllers) && found == Ok(None) {
      var bus :| bus in FreeBuses(devices) &&
        DiskPlaced(devices, vmdkPath, [AddDevice(NewController(bus))], bus + OffsetFromBusNumber, bus, plan);
      assert bus !in TakenBuses(ScsiControllers(devices));
    }
  }

  // ---------------------------------------------------------------------
  // Volume metadata

  /** kv.getAll: the volume's metadata dictionary, or None. */
  function GetAll(volumes: map<string, Dict>, vmdkPath: string): Option<Dict> {
    if vmdkPath in volumes then Some(volumes[vmdkPath]) else None
  }

  /** The dictionary setStatusAttached starts from: the stored one, or an empty one where none is stored. */
  function MetaOrEmpty(volMeta: Option<Dict>): Dict {
    if volMeta.None? || volMeta.value == map[] then map[] else volMeta.value
  }

  /** The metadata setStatusAttached saves (with an empty dictionary for a volume that has none). */
  function WithStatusAttached(volMeta: Option<Dict>, uuid: string): (r: Dict)
    ensures "status" in r && r["status"] == "attached"
    ensures "attachedVMUuid" in r && r["attachedVMUuid"] == uuid
    ensures forall k :: k in MetaOrEmpty(volMeta) && k != "status" && k != "attachedVMUuid" ==>
      k in r && r[k] == MetaOrEmpty(volMeta)[k]
    ensures r.Keys == MetaOrEmpty(volMeta).Keys + {"status", "attachedVMUuid"}
  {
    MetaOrEmpty(volMeta)["status" := "attached"]["attachedVMUuid" := uuid]
  }

  /** The metadata setStatusDetached saves (with an empty dictionary for a volume that has none). */
  function WithStatusDetached(volMeta: Option<Dict>): (r: Dict)
    ensures "status" in r && r["status"] == "detached" && "attachedVMUuid" !in r
    ensures forall k :: k in MetaOrEmpty(volMeta) && k != "status" && k != "attachedVMUuid" ==>
      k in r && r[k] == MetaOrEmpty(volMeta)[k]
    ensures r.Keys == MetaOrEmpty(volMeta).Keys - {"attachedVMUuid"} + {"status"}
  {
    (MetaOrEmpty(volMeta)["status" := "detached"]) - {"attachedVMUuid"}
  }

  /** setStatusAttached as written: `volMeta = []` and then a key assignment, which raises TypeError. */
  function SetStatusAttachedAsWritten(volMeta: Option<Dict>, uuid: string): Result<Dict, string> {
    if volMeta.None? || volMeta.value == map[] then Err("TypeError")
    else Ok(volMeta.value["status" := "attached"]["attachedVMUuid" := uuid])
  }

  /** setStatusDetached as written. */
  function SetStatusDetachedAsWritten(volMeta: Option<Dict>): Result<Dict, string> {
    if volMeta.None? || volMeta.value == map[] then Err("TypeError")
    else Ok(volMeta.value["status" := "detached"] - {"attachedVMUuid"})
  }

  /**
   * A volume with no metadata cannot be marked attached or detached as
   * written; the corrected updates record the status, and agree with the
   * written ones wherever those succeed.
   */
  lemma StatusUpdateOfFreshVolume(uuid: string, volMeta: Option<Dict>)
    ensures SetStatusAttachedAsWritten(None, uuid) == Err("TypeError")
    ensures SetStatusDetachedAsWritten(None) == Err("TypeError")
    ensures StatusAttached(Some(WithStatusAttached(None, uuid))) == (true, Some(uuid))
    ensures StatusAttached(Some(WithStatusDetached(None))) == (false, None)
    ensures SetStatusAttachedAsWritten(volMeta, uuid).Ok? ==> SetStatusAttachedAsWritten(volMeta, uuid).value == WithStatusAttached(volMeta, uuid)
    ensures SetStatusDetachedAsWritten(volMeta).Ok? ==> SetStatusDetachedAsWritten(volMeta).value == WithStatusDetached(volMeta)
  {
  }

  /** getStatusAttached: (attached, uuid), with (False, None) when there is no status. */
  function StatusAttached(volMeta: Option<Dict>): (r: (bool, Option<string>))
    ensures r.0 <==> volMeta.Some? && "status" in volMeta.value && volMeta.value["status"] == "attached"
    ensures r.1.Some? <==> volMeta.Some? && "status" in volMeta.value && "attachedVMUuid" in volMeta.value
    ensures r.1.Some? ==> r.1.value == volMeta.value["attachedVMUuid"]
  {
    if volMeta.None? || volMeta.value == map[] || "status" !in volMeta.value then (false, None)
    else
      var attached := volMeta.value["status"] == "attached";
      var uuid := if "attachedVMUuid" in volMeta.value then Some(volMeta.value["attachedVMUuid"]) else None;
      (attached, uuid)
  }

  /** Reading the status back after setting it. */
  lemma StatusRoundTrip(volMeta: Option<Dict>, uuid: string)
    ensures StatusAttached(Some(WithStatusAttached(volMeta, uuid))) == (true, Some(uuid))
    ensures StatusAttached(Some(WithStatusDetached(volMeta))) == (false, None)
    ensures StatusAttached(None) == (false, None)
    ensures volMeta.Some? && "status" !in volMeta.value ==> StatusAttached(volMeta) == (false, None)
    ensures volMeta.Some? && "status" in volMeta.value && "attachedVMUuid" !in volMeta.value ==> StatusAttached(volMeta).1 == None
  {
    assert "status" in WithStatusAttached(volMeta, uuid);
    assert "status" in WithStatusDetached(volMeta);
  }

  /** The volume metadata store (volumeKVStore). */
  class KvStore {
    var volumes: map<string, Dict>

    constructor (volumes: map<string, Dict>)
      ensures this.volumes == volumes
    {
      this.volumes := volumes;
    }

    /** kv.setAll. */
    method SetAll(vmdkPath: string, volMeta: Dict)
      modifies this
      ensures volumes == old(volumes)[vmdkPath := volMeta]
    {
      volumes := volumes[vmdkPath := volMeta];
    }

    /** setStatusAttached, starting from an empty dictionary where the volume has none. */
    method SetStatusAttached(vmdkPath: string, uuid: string)
      modifies this
      ensures volumes == old(volumes)[vmdkPath := WithStatusAttached(GetAll(old(volumes), vmdkPath), uuid)]
    {
      var volMeta := GetAll(volumes, vmdkPath);
      var meta: Dict := if volMeta.None? || volMeta.value == map[] then map[] else volMeta.value;
      meta := meta["status" := "attached"];
      meta := meta["attachedVMUuid" := uuid];
      SetAll(vmdkPath, meta);
    }

    /** setStatusDetached, starting from an empty dictionary where the volume has none. */
    method SetStatusDetached(vmdkPath: string)
      modifies this
      ensures volumes == old(volumes)[vmdkPath := WithStatusDetached(GetAll(old(volumes), vmdkPath))]
    {
      var volMeta := GetAll(volumes, vmdkPath);
      var meta: Dict := if volMeta.None? || volMeta.value == map[] then map[] else volMeta.value;
      meta := meta["status" := "detached"];
      if "attachedVMUuid" in meta {
        meta := meta - {"attachedVMUuid"};
      } else {
        assert meta == meta - {"attachedVMUuid"};
      }
      SetAll(vmdkPath, meta);
    }
  }

  // ---------------------------------------------------------------------
  // Attach and detach

  /** How the reconfigure task ended, as wait_for_tasks reports it. */
  datatype TaskOutcome =
    | TaskSucceeded
    | GenericVmConfigFault(msg: string)   // a VimFault
    | OtherVimFault(msg: string)          // any other VimFault
    | OtherException(name: string)        // anything that is not a VimFault

  /** What a handler gives back to the request loop: a dictionary, None, or an exception. */
  datatype Response = Reply(reply: Dict) | NoReply | Raised(exception: string)

  /** The VM's devices, the reconfigure requests sent for it, and the volume metadata. */
  datatype HostState = HostState(devices: seq<EsxDevice>, reconfigures: seq<seq<DeviceChange>>, volumes: map<string, Dict>)

  /** The list without the given device; WithoutConcat gives the order of the others. */
  function Without(devices: seq<EsxDevice>, d: EsxDevice): (r: seq<EsxDevice>)
    ensures forall x :: x in r <==> x in devices && x != d
    ensures d !in devices ==> r == devices
  {
    if devices == [] then []
    else
      assert devices == [devices[0]] + devices[1..];
      if devices[0] == d then Without(devices[1..], d)
      else [devices[0]] + Without(devices[1..], d)
  }

  /** Every occurrence of the device goes, and every other device keeps its multiplicity. */
  lemma {:induction false} WithoutCount(devices: seq<EsxDevice>, d: EsxDevice)
    ensures forall x :: multiset(Without(devices, d))[x] == if x == d then 0 else multiset(devices)[x]
  {
    if devices != [] {
      assert devices == [devices[0]] + devices[1..];
      WithoutCount(devices[1..], d);
    }
  }

  lemma {:induction false} WithoutConcat(a: seq<EsxDevice>, b: seq<EsxDevice>, d: EsxDevice)
    ensures Without(a + b, d) == Without(a, d) + Without(b, d)
  {
    if a == [] {
      assert a + b == b;
    } else {
      assert (a + b)[1..] == a[1..] + b;
      WithoutConcat(a[1..], b, d);
    }
  }

  /** The device list after a successful reconfigure with these changes. */
  function ApplyChanges(devices: seq<EsxDevice>, changes: seq<DeviceChange>): seq<EsxDevice>
    decreases |changes|
  {
    if changes == [] then devices
    else
      var next := match changes[0]
        case AddDevice(d) => devices + [d]
        case RemoveDevice(d) => Without(devices, d);
      ApplyChanges(next, changes[1..])
  }

  /** Python's str() of an optional string. */
  function OptionToString(s: Option<string>): string {
    if s.None? then "None" else s.value
  }

  /** The error text of a failed attach, with the metadata's note when it says the disk is on another VM. */
  function AttachFailureMessage(msg: string, status: (bool, Option<string>), vmdkPath: string, vmUuid: string): string {
    if status.0 && status.1 != Some(vmUuid) then
      msg + " disk " + vmdkPath + " already attached to VM=" + OptionToString(status.1)
    else msg
  }

  /** The metadata after setStatusAttached: this volume reads back as attached to the VM, the others are untouched. */
  function MarkAttached(volumes: map<string, Dict>, vmdkPath: string, vmUuid: string): (r: map<string, Dict>)
    ensures StatusAttached(GetAll(r, vmdkPath)) == (true, Some(vmUuid))
    ensures vmdkPath in r && r == volumes[vmdkPath := r[vmdkPath]]
  {
    StatusRoundTrip(GetAll(volumes, vmdkPath), vmUuid);
    volumes[vmdkPath := WithStatusAttached(GetAll(volumes, vmdkPath), vmUuid)]
  }

  /** The metadata after setStatusDetached: this volume reads back as detached, the others are untouched. */
  function MarkDetached(volumes: map<string, Dict>, vmdkPath: string): (r: map<string, Dict>)
    ensures StatusAttached(GetAll(r, vmdkPath)) == (false, None)
    ensures vmdkPath in r && r == volumes[vmdkPath := r[vmdkPath]]
  {
    StatusRoundTrip(GetAll(volumes, vmdkPath), "");
    volumes[vmdkPath := WithStatusDetached(GetAll(volumes, vmdkPath))]
  }

  /** disk_attach once the plan is made. */
  function CommitAttach(s: HostState, vmUuid: string, vmdkPath: string, plan: AttachPlan, outcome: TaskOutcome): (r: (Response, HostState))
    // a request goes to the VM exactly when the plan reconfigures, and its changes apply exactly on success
    ensures r.1.reconfigures == s.reconfigures + if plan.Reconfigure? then [plan.changes] else []
    ensures r.1.devices == if plan.Reconfigure? && outcome.TaskSucceeded? then ApplyChanges(s.devices, plan.changes) else s.devices
    // a reply without "Error" exactly when the disk is (now) attached, and then the metadata says so
    ensures r.0.Reply? && "Error" !in r.0.reply <==> plan.AlreadyAttached? || (plan.Reconfigure? && outcome.TaskSucceeded?)
    ensures r.0.Reply? && "Error" !in r.0.reply ==> StatusAttached(GetAll(r.1.volumes, vmdkPath)) == (true, Some(vmUuid))
    ensures r.0.Reply? && "Error" !in r.0.reply ==> vmdkPath in r.1.volumes && r.1.volumes == s.volumes[vmdkPath := r.1.volumes[vmdkPath]]
    ensures !(r.0.Reply? && "Error" !in r.0.reply) ==> r.1.volumes == s.volumes
    ensures r.0.Raised? <==> plan.FindRaised? || (plan.Reconfigure? && outcome.OtherException?)
    // the reply and the state for each plan and outcome
    ensures plan.Refused? ==> r == (Reply(ErrorReply(plan.msg)), s)
    ensures plan.FindRaised? ==> r == (Raised(plan.exception), s)
    ensures plan.AlreadyAttached? ==> r.0 == Reply(BusInfo(plan.device.unitNumber, plan.device.controllerKey - OffsetFromBusNumber))
    ensures plan.Reconfigure? && outcome.TaskSucceeded? ==> r.0 == Reply(BusInfo(plan.unit, plan.bus))
    ensures plan.Reconfigure? && (outcome.GenericVmConfigFault? || outcome.OtherVimFault?) ==>
      r.0 == Reply(ErrorReply(AttachFailureMessage(outcome.msg, StatusAttached(GetAll(s.volumes, vmdkPath)), vmdkPath, vmUuid)))
    ensures plan.Reconfigure? && outcome.OtherException? ==> r.0 == Raised(outcome.name)
  {
    match plan
    case Refused(msg) => (Reply(ErrorReply(msg)), s)
    case FindRaised(e) => (Raised(e), s)
    case AlreadyAttached(d) =>
      var volumes := MarkAttached(s.volumes, vmdkPath, vmUuid);
      (Reply(BusInfo(d.unitNumber, d.controllerKey - OffsetFromBusNumber)), s.(volumes := volumes))
    case Reconfigure(changes, unit, bus, _) =>
      var logged := s.(reconfigures := s.reconfigures + [changes]);
      match outcome
      case TaskSucceeded =>
        var volumes := MarkAttached(s.volumes, vmdkPath, vmUuid);
        (Reply(BusInfo(unit, bus)), logged.(devices := ApplyChanges(s.devices, changes), volumes := volumes))
      case GenericVmConfigFault(msg) =>
        (Reply(ErrorReply(AttachFailureMessage(msg, StatusAttached(GetAll(s.volumes, vmdkPath)), vmdkPath, vmUuid))), logged)
      case OtherVimFault(msg) =>
        (Reply(ErrorReply(AttachFailureMessage(msg, StatusAttached(GetAll(s.volumes, vmdkPath)), vmdkPath, vmUuid))), logged)
      case OtherException(name) => (Raised(name), logged)
  }

  /** disk_detach. */
  function DetachStep(s: HostState, vmUuid: string, vmdkPath: string, target: string, outcome: TaskOutcome): (r: (Response, HostState))
    // a request goes to the VM exactly when the disk is found, and removes exactly it on success
    ensures var found := FindDevice(s.devices, target);
      r.1.reconfigures == s.reconfigures + if found.Ok? && found.value.Some? then [[RemoveDevice(found.value.value)]] else []
    ensures var found := FindDevice(s.devices, target);
      r.0 == NoReply <==> found.Ok? && found.value.Some? && outcome.TaskSucceeded?
    ensures r.0 == NoReply ==> r.1.devices == Without(s.devices, FindDevice(s.devices, target).value.value)
    ensures r.0 != NoReply ==> r.1.devices == s.devices && r.1.volumes == s.volumes
    ensures r.0 == NoReply ==> StatusAttached(GetAll(r.1.volumes, vmdkPath)) == (false, None)
    ensures r.0 == NoReply ==> vmdkPath in r.1.volumes && r.1.volumes == s.volumes[vmdkPath := r.1.volumes[vmdkPath]]
    ensures var found := FindDevice(s.devices, target);
      r.0.Raised? <==> found.Err? || (found.value.Some? && (outcome.OtherVimFault? || outcome.OtherException?))
    // the reply for each lookup result and outcome
    ensures var found := FindDevice(s.devices, target);
      found.Err? ==> r == (Raised(found.error), s)
    ensures var found := FindDevice(s.devices, target);
      found.Ok? && found.value.None? ==> r == (Reply(ErrorReply("*** Detach failed: disk=" + vmdkPath + " not found. VM=" + vmUuid)), s)
    ensures var found := FindDevice(s.devices, target);
      found.Ok? && found.value.Some? && outcome.GenericVmConfigFault? ==> r.0 == Reply(ErrorReply("Failed to detach " + vmdkPath))
    ensures var found := FindDevice(s.devices, target);
      found.Ok? && found.value.Some? && outcome.OtherVimFault? ==> r.0 == Raised(outcome.msg)
    ensures var found := FindDevice(s.devices, target);
      found.Ok? && found.value.Some? && outcome.OtherException? ==> r.0 == Raised(outcome.name)
  {
    match FindDevice(s.devices, target)
    case Err(e) => (Raised(e), s)
    case Ok(None) => (Reply(ErrorReply("*** Detach failed: disk=" + vmdkPath + " not found. VM=" + vmUuid)), s)
    case Ok(Some(device)) =>
      var changes := [RemoveDevice(device)];
      var logged := s.(reconfigures := s.reconfigures + [changes]);
      match outcome
      case TaskSucceeded =>
        var volumes := MarkDetached(s.volumes, vmdkPath);
        assert changes[1..] == [] && ApplyChanges(s.devices, changes) == ApplyChanges(Without(s.devices, device), []);
        (NoReply, logged.(devices := ApplyChanges(s.devices, changes), volumes := volumes))
      case GenericVmConfigFault(_) => (Reply(ErrorReply("Failed to detach " + vmdkPath)), logged)
      case OtherVimFault(name) => (Raised(name), logged)
      case OtherException(name) => (Raised(name), logged)
  }

  /** An attached disk is reported where it is, nothing is sent to the VM, and the metadata says attached to this VM. */
  lemma AttachAlreadyAttached(s: HostState, vmUuid: string, vmdkPath: string, d: DiskDevice, outcome: TaskOutcome)
    ensures var r := CommitAttach(s, vmUuid, vmdkPath, AlreadyAttached(d), outcome);
      && r.0 == Reply(BusInfo(d.unitNumber, d.controllerKey - 1000))
      && r.1.devices == s.devices && r.1.reconfigures == s.reconfigures
      && StatusAttached(GetAll(r.1.volumes, vmdkPath)) == (true, Some(vmUuid))
  {
    StatusRoundTrip(GetAll(s.volumes, vmdkPath), vmUuid);
  }

  /** A refused or failed lookup changes nothing: no request, no metadata. */
  lemma AttachRefusedChangesNothing(s: HostState, vmUuid: string, vmdkPath: string, plan: AttachPlan, outcome: TaskOutcome)
    requires plan.Refused? || plan.FindRaised?
    ensures CommitAttach(s, vmUuid, vmdkPath, plan, outcome).1 == s
    ensures plan.Refused? ==> CommitAttach(s, vmUuid, vmdkPath, plan, outcome).0.Reply?
    ensures plan.Refused? ==> CommitAttach(s, vmUuid, vmdkPath, plan, outcome).0.reply == map["Error" := plan.msg]
  {
  }

  /** A successful attach reports the unit and bus, adds the planned devices and marks the volume attached to this VM. */
  lemma AttachSucceeded(s: HostState, vmUuid: string, vmdkPath: string, plan: AttachPlan)
    requires plan.Reconfigure?
    ensures var r := CommitAttach(s, vmUuid, vmdkPath, plan, TaskSucceeded);
      && r.0 == Reply(BusInfo(plan.unit, plan.bus))
      && r.1.reconfigures == s.reconfigures + [plan.changes]
      && r.1.devices == ApplyChanges(s.devices, plan.changes)
      && StatusAttached(GetAll(r.1.volumes, vmdkPath)) == (true, Some(vmUuid))
      && forall p :: p != vmdkPath ==> GetAll(r.1.volumes, p) == GetAll(s.volumes, p)
  {
    StatusRoundTrip(GetAll(s.volumes, vmdkPath), vmUuid);
  }

  /**
   * Every VimFault of the task becomes an error reply that starts with the
   * fault's message, and the metadata is left alone; the message mentions
   * the other VM exactly when the metadata says the disk is attached elsewhere.
   */
  lemma AttachFaultReply(s: HostState, vmUuid: string, vmdkPath: string, plan: AttachPlan, outcome: TaskOutcome)
    requires plan.Reconfigure? && (outcome.GenericVmConfigFault? || outcome.OtherVimFault?)
    ensures var r := CommitAttach(s, vmUuid, vmdkPath, plan, outcome);
      var status := StatusAttached(GetAll(s.volumes, vmdkPath));
      && r.0.Reply? && "Error" in r.0.reply
      && outcome.msg <= r.0.reply["Error"]
      && (r.0.reply["Error"] != outcome.msg <== status.0 && status.1 != Some(vmUuid))
      && (r.0.reply["Error"] == outcome.msg <== !(status.0 && status.1 != Some(vmUuid)))
      && r.1.volumes == s.volumes && r.1.devices == s.devices
  {
  }

  /** Detaching a disk the VM does not have sends nothing and replies with an error. */
  lemma DetachMissingDisk(s: HostState, vmUuid: string, vmdkPath: string, target: string, outcome: TaskOutcome)
    requires FindDevice(s.devices, target) == Ok(None)
    ensures DetachStep(s, vmUuid, vmdkPath, target, outcome) ==
      (Reply(map["Error" := "*** Detach failed: disk=" + vmdkPath + " not found. VM=" + vmUuid]), s)
  {
  }

  /** A successful detach removes the device found, replies None and marks the volume detached. */
  lemma DetachSucceeded(s: HostState, vmUuid: string, vmdkPath: string, target: string)
    requires FindDevice(s.devices, target).Ok? && FindDevice(s.devices, target).value.Some?
    ensures var d := FindDevice(s.devices, target).value.value;
      var r := DetachStep(s, vmUuid, vmdkPath, target, TaskSucceeded);
      && r.0 == NoReply
      && r.1.reconfigures == s.reconfigures + [[RemoveDevice(d)]]
      && d in s.devices && d !in r.1.devices
      && (forall x :: x in r.1.devices <==> x in s.devices && x != d)
      && StatusAttached(GetAll(r.1.volumes, vmdkPath)) == (false, None)
  {
    StatusRoundTrip(GetAll(s.volumes, vmdkPath), "");
    FindDeviceMeaning(s.devices, target);
    var d := FindDevice(s.devices, target).value.value;
    assert ApplyChanges(s.devices, [RemoveDevice(d)]) == ApplyChanges(Without(s.devices, d), []);
  }

  /** Detach catches only GenericVmConfigFault: any other fault of the task propagates. */
  lemma DetachOtherFaultRaises(s: HostState, vmUuid: string, vmdkPath: string, target: string, outcome: TaskOutcome)
    requires FindDevice(s.devices, target).Ok? && FindDevice(s.devices, target).value.Some?
    requires outcome.OtherVimFault? || outcome.OtherException?
    ensures DetachStep(s, vmUuid, vmdkPath, target, outcome).0.Raised?
    ensures DetachStep(s, vmUuid, vmdkPath, target, outcome).1.volumes == s.volumes
  {
  }

  /** A VM, with the reconfigure requests sent for it. */
  class EsxVm {
    const uuid: string
    var devices: seq<EsxDevice>
    var reconfigures: seq<seq<DeviceChange>>

    constructor (uuid: string, devices: seq<EsxDevice>)
      ensures this.uuid == uuid && this.devices == devices && reconfigures == []
    {
      this.uuid := uuid;
      this.devices := devices;
      reconfigures := [];
    }

    /** ReconfigVM_Task and its wait: the request is recorded, and the changes apply when the task succeeds. */
    method ReconfigVmTask(changes: seq<DeviceChange>, outcome: TaskOutcome)
      modifies this
      ensures reconfigures == old(reconfigures) + [changes]
      ensures devices == if outcome.TaskSucceeded? then ApplyChanges(old(devices), changes) else old(devices)
    {
      reconfigures := reconfigures + [changes];
      if outcome.TaskSucceeded? {
        devices := ApplyChanges(devices, changes);
      }
    }
  }

  /** disk_attach: plan, reconfigure, record the status. */
  method DiskAttach(vmdkPath: string, vm: EsxVm, kv: KvStore, realpath: string -> string, outcome: TaskOutcome)
    returns (r: Response, ghost plan: AttachPlan)
    modifies vm, kv
    ensures IsAttachPlan(old(vm.devices), FindDevice(old(vm.devices), DiskTarget(vmdkPath, realpath)), vmdkPath, plan)
    ensures (r, HostState(vm.devices, vm.reconfigures, kv.volumes)) ==
      CommitAttach(old(HostState(vm.devices, vm.reconfigures, kv.volumes)), vm.uuid, vmdkPath, plan, outcome)
  {
    var p := PlanAttach(vmdkPath, vm.devices, realpath);
    plan := p;
    r := CarryOutAttachPlan(vmdkPath, vm, kv, p, outcome);
  }

  /** The rest of disk_attach once the plan is made: the reply, the reconfigure and the status update. */
  method CarryOutAttachPlan(vmdkPath: string, vm: EsxVm, kv: KvStore, plan: AttachPlan, outcome: TaskOutcome)
    returns (r: Response)
    modifies vm, kv
    ensures (r, HostState(vm.devices, vm.reconfigures, kv.volumes)) ==
      CommitAttach(old(HostState(vm.devices, vm.reconfigures, kv.volumes)), vm.uuid, vmdkPath, plan, outcome)
  {
    match plan
    case Refused(msg) =>
      r := Reply(ErrorReply(msg));
    case FindRaised(e) =>
      r := Raised(e);
    case AlreadyAttached(device) =>
      kv.SetStatusAttached(vmdkPath, vm.uuid);
      r := Reply(BusInfo(device.unitNumber, device.controllerKey - OffsetFromBusNumber));
    case Reconfigure(devChanges, diskSlot, busNumber, _) =>
      vm.ReconfigVmTask(devChanges, outcome);
      match outcome
      case TaskSucceeded =>
        kv.SetStatusAttached(vmdkPath, vm.uuid);
        r := Reply(BusInfo(diskSlot, busNumber));
      case GenericVmConfigFault(msg) =>
        var status := StatusAttached(GetAll(kv.volumes, vmdkPath));
        r := Reply(ErrorReply(AttachFailureMessage(msg, status, vmdkPath, vm.uuid)));
      case OtherVimFault(msg) =>
        var status := StatusAttached(GetAll(kv.volumes, vmdkPath));
        r := Reply(ErrorReply(AttachFailureMessage(msg, status, vmdkPath, vm.uuid)));
      case OtherException(name) =>
        r := Raised(name);
  }



  /** disk_detach. */
  method DiskDetach(vmdkPath: string, vm: EsxVm, kv: KvStore, realpath: string -> string, outcome: TaskOutcome)
    returns (r: Response)
    modifies vm, kv
    ensures (r, HostState(vm.devices, vm.reconfigures, kv.volumes)) ==
      DetachStep(old(HostState(vm.devices, vm.reconfigures, kv.volumes)), vm.uuid, vmdkPath, DiskTarget(vmdkPath, realpath), outcome)
  {
    ghost var s0 := HostState(vm.devices, vm.reconfigures, kv.volumes);
    ghost var target := DiskTarget(vmdkPath, realpath);
    var device := FindDeviceByPath(vmdkPath, vm.devices, realpath);
    if device.Err? {
      return Raised(device.error);
    }
    if device.value.None? {
      return Reply(ErrorReply("*** Detach failed: disk=" + vmdkPath + " not found. VM=" + vm.uuid));
    }
    var devChanges := [RemoveDevice(device.value.value)];
    vm.ReconfigVmTask(devChanges, outcome);
    ghost var logged := s0.(reconfigures := s0.reconfigures + [devChanges]);
    assert HostState(vm.devices, vm.reconfigures, kv.volumes) ==
      if outcome.TaskSucceeded? then logged.(devices := ApplyChanges(s0.devices, devChanges)) else logged;
    match outcome
    case TaskSucceeded =>
      kv.SetStatusDetached(vmdkPath);
      r := NoReply;
    case GenericVmConfigFault(_) => r := Reply(ErrorReply("Failed to detach " + vmdkPath));
    case OtherVimFault(name) => r := Raised(name);
    case OtherException(name) => r := Raised(name);
  }

  // ---------------------------------------------------------------------
  // wait_for_tasks

  datatype TaskState = Queued | Running | Success | Error

  /** One property change the collector reports: 'info', 'info.state', or another property. */
  datatype Change = InfoChange(infoState: TaskState) | InfoStateChange(state: TaskState) | OtherChange(name: string)

  datatype ObjectUpdate = ObjectUpdate(task: string, changeSet: seq<Change>)
  datatype FilterUpdate = FilterUpdate(objectSet: seq<ObjectUpdate>)
  datatype UpdateSet = UpdateSet(filterSet: seq<FilterUpdate>)

  /** How waiting ends: every task done after this many updates, a task's error raised, or no more updates while tasks pend. */
  datatype WaitOutcome = AllDone(updatesConsumed: nat) | TaskFailed(task: string) | Blocked(pending: seq<string>)

  /** list.remove: drops the first occurrence. */
  function RemoveFirst(s: seq<string>, x: string): (r: seq<string>)
    requires x in s
    ensures multiset(r) == multiset(s) - multiset{x}
    ensures |r| == |s| - 1
  {
    if s[0] == x then
      assert s == [s[0]] + s[1..];
      s[1..]
    else
      assert s == [s[0]] + s[1..];
      assert x in s[1..];
      [s[0]] + RemoveFirst(s[1..], x)
  }

  /** The task state an 'info' change (change.val.state) or an 'info.state' change (change.val) reports. */
  function ReportedState(change: Change): TaskState
    requires !change.OtherChange?
  {
    if change.InfoChange? then change.infoState else change.state
  }

  /** One change applied to the pending list; Err names the task whose error is raised. */
  function ChangeStep(pending: seq<string>, task: string, change: Change): (r: Result<seq<string>, string>)
    ensures r.Ok? ==> multiset(r.value) <= multiset(pending)
    ensures r.Err? ==> r.error == task && task in pending
    ensures change.OtherChange? ==> r == Ok(pending)
  {
    if change.OtherChange? then Ok(pending)
    else
      var state := ReportedState(change);
      if task !in pending then Ok(pending)
      else if state == Success then Ok(RemoveFirst(pending, task))
      else if state == Error then Err(task)
      else Ok(pending)
  }

  /** The changes of one object, in order; the pending list only shrinks, and an error names this task, which was pending. */
  function ProcessChanges(pending: seq<string>, task: string, changes: seq<Change>): (r: Result<seq<string>, string>)
    ensures r.Ok? ==> multiset(r.value) <= multiset(pending)
    ensures r.Err? ==> r.error == task && task in pending
    decreases |changes|
  {
    if changes == [] then Ok(pending)
    else match ChangeStep(pending, task, changes[0])
      case Err(t) => Err(t)
      case Ok(next) =>
        var r := ProcessChanges(next, task, changes[1..]);
        assert r.Err? ==> task in multiset(next);
        r
  }

  function ProcessObjects(pending: seq<string>, objects: seq<ObjectUpdate>): Result<seq<string>, string>
    decreases |objects|
  {
    if objects == [] then Ok(pending)
    else match ProcessChanges(pending, objects[0].task, objects[0].changeSet)
      case Err(t) => Err(t)
      case Ok(next) => ProcessObjects(next, objects[1..])
  }

  function ProcessFilters(pending: seq<string>, filters: seq<FilterUpdate>): Result<seq<string>, string>
    decreases |filters|
  {
    if filters == [] then Ok(pending)
    else match ProcessObjects(pending, filters[0].objectSet)
      case Err(t) => Err(t)
      case Ok(next) => ProcessFilters(next, filters[1..])
  }

  /** The loop of wait_for_tasks over the updates the property collector delivers in turn. */
  function WaitSpec(pending: seq<string>, updates: seq<UpdateSet>): (r: WaitOutcome)
    ensures r.AllDone? ==> r.updatesConsumed <= |updates|
    ensures r.Blocked? ==> r.pending != []
    decreases |updates|
  {
    if pending == [] then AllDone(0)
    else if updates == [] then Blocked(pending)
    else match ProcessFilters(pending, updates[0].filterSet)
      case Err(t) => TaskFailed(t)
      case Ok(next) =>
        var rest := WaitSpec(next, updates[1..]);
        if rest.AllDone? then AllDone(rest.updatesConsumed + 1) else rest
  }

  function Shift(k: nat, o: WaitOutcome): WaitOutcome {
    if o.AllDone? then AllDone(o.updatesConsumed + k) else o
  }

  /** The innermost loop of wait_for_tasks: the changes of one object update. */
  method ProcessChangeSet(taskList: seq<string>, task: string, changes: seq<Change>) returns (r: Result<seq<string>, string>)
    ensures r == ProcessChanges(taskList, task, changes)
  {
    var pending := taskList;
    var c := 0;
    while c < |changes|
      invariant 0 <= c <= |changes|
      invariant ProcessChanges(taskList, task, changes) == ProcessChanges(pending, task, changes[c..])
    {
      var change := changes[c];
      assert changes[c..][1..] == changes[c + 1..];
      ghost var step := ChangeStep(pending, task, change);
      assert ProcessChanges(pending, task, changes[c..]) ==
        if step.Err? then step else ProcessChanges(step.value, task, changes[c + 1..]);
      var state: TaskState;
      if change.InfoChange? {
        state := change.infoState;
      } else if change.InfoStateChange? {
        state := change.state;
      } else {
        c := c + 1;
        continue;
      }
      if task !in pending {
        c := c + 1;
        continue;
      }
      if state == Success {
        pending := RemoveFirst(pending, task);
      } else if state == Error {
        return Err(task);
      }
      c := c + 1;
    }
    return Ok(pending);
  }

  /** The loop over the object updates of one filter update. */
  method ProcessObjectSet(taskList: seq<string>, objects: seq<ObjectUpdate>) returns (r: Result<seq<string>, string>)
    ensures r == ProcessObjects(taskList, objects)
  {
    var pending := taskList;
    var o := 0;
    while o < |objects|
      invariant 0 <= o <= |objects|
      invariant ProcessObjects(taskList, objects) == ProcessObjects(pending, objects[o..])
    {
      assert objects[o..][0] == objects[o];
      assert objects[o..][1..] == objects[o + 1..];
      var step := ProcessChangeSet(pending, objects[o].task, objects[o].changeSet);
      if step.Err? {
        return Err(step.error);
      }
      pending := step.value;
      o := o + 1;
    }
    return Ok(pending);
  }

  /** The loop over the filter updates of one update set. */
  method ProcessFilterSet(taskList: seq<string>, filters: seq<FilterUpdate>) returns (r: Result<seq<string>, string>)
    ensures r == ProcessFilters(taskList, filters)
  {
    var pending := taskList;
    var f := 0;
    while f < |filters|
      invariant 0 <= f <= |filters|
      invariant ProcessFilters(taskList, filters) == ProcessFilters(pending, filters[f..])
    {
      assert filters[f..][0] == filters[f];
      assert filters[f..][1..] == filters[f + 1..];
      var step := ProcessObjectSet(pending, filters[f].objectSet);
      if step.Err? {
        return Err(step.error);
      }
      pending := step.value;
      f := f + 1;
    }
    return Ok(pending);
  }

  /** wait_for_tasks, with its loops. */
  method WaitForTasks(tasks: seq<string>, updates: seq<UpdateSet>) returns (r: WaitOutcome)
    ensures r == WaitSpec(tasks, updates)
  {
    var taskList := tasks;
    var i := 0;
    while |taskList| > 0
      invariant 0 <= i <= |updates|
      invariant WaitSpec(tasks, updates) == Shift(i, WaitSpec(taskList, updates[i..]))
      decreases |updates| - i
    {
      if i == |updates| {
        return Blocked(taskList);
      }
      var step := ProcessFilterSet(taskList, updates[i].filterSet);
      if step.Err? {
        return TaskFailed(step.error);
      }
      taskList := step.value;
      assert updates[i..][1..] == updates[i + 1..];
      i := i + 1;
    }
    return AllDone(i);
  }

  /** A change for a task that is not pending leaves the pending list as it is. */
  lemma {:induction false} UnknownTaskIgnored(pending: seq<string>, task: string, changes: seq<Change>)
    requires task !in pending
    ensures ProcessChanges(pending, task, changes) == Ok(pending)
    decreases |changes|
  {
    if changes != [] {
      UnknownTaskIgnored(pending, task, changes[1..]);
    }
  }

  /**
   * A success state for a pending task removes that task once; an error
   * state raises it; any other state leaves the list.  'info' and
   * 'info.state' changes are treated alike.
   */
  lemma ChangeStepEffect(pending: seq<string>, task: string, change: Change)
    requires task in pending && !change.OtherChange?
    ensures ReportedState(change) == Success ==>
      ChangeStep(pending, task, change).Ok? &&
      multiset(ChangeStep(pending, task, change).value) == multiset(pending) - multiset{task}
    ensures ReportedState(change) == Error ==> ChangeStep(pending, task, change) == Err(task)
    ensures ReportedState(change) != Success && ReportedState(change) != Error ==> ChangeStep(pending, task, change) == Ok(pending)
  {
  }

  lemma {:induction false} ObjectsShrink(pending: seq<string>, objects: seq<ObjectUpdate>)
    ensures ProcessObjects(pending, objects).Ok? ==> multiset(ProcessObjects(pending, objects).value) <= multiset(pending)
    ensures ProcessObjects(pending, objects).Err? ==> ProcessObjects(pending, objects).error in multiset(pending)
    decreases |objects|
  {
    if objects != [] {
      var first := ProcessChanges(pending, objects[0].task, objects[0].changeSet);
      if first.Ok? {
        ObjectsShrink(first.value, objects[1..]);
      }
    }
  }

  /**
   * One update never adds a pending task, and the task whose error it
   * raises was pending.
   */
  lemma {:induction false} UpdateShrinksPending(pending: seq<string>, filters: seq<FilterUpdate>)
    ensures ProcessFilters(pending, filters).Ok? ==> multiset(ProcessFilters(pending, filters).value) <= multiset(pending)
    ensures ProcessFilters(pending, filters).Err? ==> ProcessFilters(pending, filters).error in multiset(pending)
    decreases |filters|
  {
    if filters != [] {
      ObjectsShrink(pending, filters[0].objectSet);
      var first := ProcessObjects(pending, filters[0].objectSet);
      if first.Ok? {
        UpdateShrinksPending(first.value, filters[1..]);
      }
    }
  }

  /** The pending list after the first k updates, or the task whose error they raise. */
  function PendingAfter(pending: seq<string>, updates: seq<UpdateSet>, k: nat): Result<seq<string>, string>
    requires k <= |updates|
    decreases k
  {
    if k == 0 then Ok(pending)
    else match ProcessFilters(pending, updates[0].filterSet)
      case Err(t) => Err(t)
      case Ok(next) => PendingAfter(next, updates[1..], k - 1)
  }

  /** The list is non-empty before each of the first n updates. */
  predicate PendingThrough(pending: seq<string>, updates: seq<UpdateSet>, n: nat)
    requires n <= |updates|
  {
    forall k :: 0 <= k < n ==> PendingAfter(pending, updates, k).Ok? && PendingAfter(pending, updates, k).value != []
  }

  lemma PendingThroughStep(pending: seq<string>, updates: seq<UpdateSet>, n: nat)
    requires 0 < n <= |updates| && pending != []
    requires ProcessFilters(pending, updates[0].filterSet).Ok?
    ensures PendingThrough(pending, updates, n) <==>
      PendingThrough(ProcessFilters(pending, updates[0].filterSet).value, updates[1..], n - 1)
  {
    var next := ProcessFilters(pending, updates[0].filterSet).value;
    forall k | 1 <= k <= n ensures PendingAfter(pending, updates, k) == PendingAfter(next, updates[1..], k - 1) {}
    if PendingThrough(next, updates[1..], n - 1) {
      forall k | 0 <= k < n ensures PendingAfter(pending, updates, k).Ok? && PendingAfter(pending, updates, k).value != [] {
        if k > 0 {
          assert PendingAfter(pending, updates, k) == PendingAfter(next, updates[1..], k - 1);
        }
      }
    }
    if PendingThrough(pending, updates, n) {
      forall k | 0 <= k < n - 1 ensures PendingAfter(next, updates[1..], k).Ok? && PendingAfter(next, updates[1..], k).value != [] {
        assert PendingAfter(pending, updates, k + 1) == PendingAfter(next, updates[1..], k);
      }
    }
  }

  /**
   * The loop ends with every task done exactly at the first update after
   * which the pending list is empty: the list is non-empty before each
   * update it consumes, and empty after the last.
   */
  lemma {:induction false} DoneExactlyWhenEmpty(pending: seq<string>, updates: seq<UpdateSet>, n: nat)
    ensures WaitSpec(pending, updates) == AllDone(n) <==>
      n <= |updates| && PendingAfter(pending, updates, n) == Ok([]) && PendingThrough(pending, updates, n)
    decreases |updates|, 1
  {
    if pending == [] {
      if n > 0 && n <= |updates| {
        assert PendingAfter(pending, updates, 0) == Ok([]);
      }
    } else if updates == [] {
    } else if n == 0 {
      assert PendingAfter(pending, updates, 0) == Ok(pending);
    } else if n <= |updates| {
      if ProcessFilters(pending, updates[0].filterSet).Ok? {
        DoneAfterFirstUpdate(pending, updates, n);
      } else {
        assert PendingAfter(pending, updates, n).Err?;
      }
    }
  }

  /** DoneExactlyWhenEmpty when the first update leaves the tasks pending: the rest of the wait decides. */
  lemma {:induction false} DoneAfterFirstUpdate(pending: seq<string>, updates: seq<UpdateSet>, n: nat)
    requires pending != [] && 0 < n <= |updates|
    requires ProcessFilters(pending, updates[0].filterSet).Ok?
    ensures WaitSpec(pending, updates) == AllDone(n) <==>
      PendingAfter(pending, updates, n) == Ok([]) && PendingThrough(pending, updates, n)
    decreases |updates|, 0
  {
    var next := ProcessFilters(pending, updates[0].filterSet).value;
    assert PendingAfter(pending, updates, n) == PendingAfter(next, updates[1..], n - 1);
    DoneExactlyWhenEmpty(next, updates[1..], n - 1);
    PendingThroughStep(pending, updates, n);
  }
}
