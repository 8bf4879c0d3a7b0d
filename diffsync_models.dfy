/**
 * The create, update and delete hooks of the six vSphere entity kinds, run
 * against the Nautobot store, and the deferred deletion they share.
 */
module DiffSyncModels {
  import opened Wrappers
  import opened Text
  import opened Nautobot

  /** The plugin's `defaults` settings read by the hooks. */
  datatype Defaults = Defaults(
    enforceClusterGroupTopLevel: bool,
    useClusters: bool,
    vsphereType: string,
    clusterName: string)

  /** The exceptions that leave a hook instead of being logged. */
  datatype Exception =
    | DoesNotExist(model: string)
    | MultipleObjectsReturned(model: string)
    | KeyError(key: string)
    /** a name assigned where a related record is expected */
    | ValueError(field: string)
    /** a bare string handed to `objects.get` as a positional filter */
    | InvalidLookup
    /** a handler that names a local the failed statement never bound */
    | UnboundLocalError(variable: string)

  /** What a hook does: return a model, return None, or raise. */
  datatype Outcome<T> = Returned(value: T) | ReturnedNone | Raised(error: Exception)

  /** The job log's warnings; their texts are not modelled. */
  datatype Warning =
    | AlreadyExists(model: string, name: string)
    | NotMatched(model: string, name: string)
    | NoSite(site: Value)

  // ---------------------------------------------------------------------
  // Attribute sets

  /** `DiffSyncVirtualMachine._attributes`. */
  function VirtualMachineAttributes(useClusters: bool): (r: seq<string>)
    ensures "cluster" in r <==> useClusters
    ensures "status" in r && "primary_ip4" in r && "primary_ip6" in r
  {
    if useClusters then ["status", "vcpus", "memory", "disk", "cluster", "primary_ip4", "primary_ip6"]
    else ["status", "vcpus", "memory", "disk", "primary_ip4", "primary_ip6"]
  }

  /** `DiffSyncHost._attributes`. */
  function HostAttributes(useClusters: bool): (r: seq<string>)
    ensures "cluster" in r <==> useClusters
    ensures "site" in r && "device_role" in r && "device_type" in r
  {
    if useClusters then ["device_role", "device_type", "site", "cluster"]
    else ["device_role", "device_type", "site"]
  }

  /** `DiffSyncIpAddress._attributes`. */
  function IpAddressAttributes(): (r: seq<string>)
    ensures "state" in r && "status" !in r
  {
    ["state", "vm_interface_name", "vm_name"]
  }

  /** `DiffSyncClusterGroup._children`: clusters nest under their group only when groups are enforced. */
  function ClusterGroupChildren(enforceClusterGroupTopLevel: bool): (r: map<string, string>)
    ensures "diffsync_cluster" in r <==> enforceClusterGroupTopLevel
    ensures "diffsync_cluster" in r ==> r["diffsync_cluster"] == "clusters"
  {
    if enforceClusterGroupTopLevel then map["diffsync_cluster" := "clusters"] else map[]
  }

  /** Whatever the settings, an attribute other than `cluster` is in both sets or in neither. */
  lemma {:induction false} OnlyClusterDependsOnSettings(useClusters: bool, attribute: string)
    requires attribute != "cluster"
    ensures attribute in VirtualMachineAttributes(useClusters) <==> attribute in VirtualMachineAttributes(!useClusters)
    ensures attribute in HostAttributes(useClusters) <==> attribute in HostAttributes(!useClusters)
  {
  }

  /** A diff of an IP address never carries the `status` key that its update tests. */
  lemma {:induction false} IpAddressDiffHasNoStatus(attrs: Attrs)
    requires forall key :: key in attrs ==> key in IpAddressAttributes()
    ensures !Truthy(Get(attrs, "status"))
  {
  }

  // ---------------------------------------------------------------------
  // Deferred deletion

  /** A Nautobot record handed to `ordered_delete`. */
  datatype NautobotObject =
    | ClusterGroupObject(name: string)
    | ClusterObject(name: string)
    | VMInterfaceObject(interface: InterfaceKey)
    | IPAddressObject(address: IpKey)
    | VirtualMachineObject(name: string)
    | DeviceObject(name: string)

  /** The Nautobot model class of the record. */
  function ClassName(o: NautobotObject): string {
    match o
    case ClusterGroupObject(_) => "ClusterGroup"
    case ClusterObject(_) => "Cluster"
    case VMInterfaceObject(_) => "VMInterface"
    case IPAddressObject(_) => "IPAddress"
    case VirtualMachineObject(_) => "VirtualMachine"
    case DeviceObject(_) => "Device"
  }

  /** The bucket of `objects_to_delete` a record goes to: "_" and the lower-cased class name. */
  function BucketKey(o: NautobotObject): string {
    "_" + Lower(ClassName(o))
  }

  /** A bucket key is "_" followed by the class name, letter by letter in lower case. */
  lemma {:induction false} BucketKeyLetters(o: NautobotObject)
    ensures |BucketKey(o)| == |ClassName(o)| + 1 && BucketKey(o)[0] == '_'
    ensures forall i :: 0 <= i < |ClassName(o)| ==> BucketKey(o)[i + 1] == LowerChar(ClassName(o)[i])
  {
  }

  /** A Host deletion registers its Device under "_device". */
  lemma {:induction false} DeviceBucket(name: string)
    ensures BucketKey(DeviceObject(name)) == "_device"
  {
  }

  /** Records of different classes never share a bucket: the six class names differ in length. */
  lemma {:induction false} BucketKeySeparatesClasses(a: NautobotObject, b: NautobotObject)
    ensures BucketKey(a) == BucketKey(b) <==> ClassName(a) == ClassName(b)
  {
  }

  /** `objects_to_delete` is a `defaultdict(list)`: a missing bucket reads as empty. */
  function BucketOf(buckets: map<string, seq<NautobotObject>>, key: string): seq<NautobotObject> {
    if key in buckets then buckets[key] else []
  }

  /** The buckets after `o` is appended to its own. */
  function Registered(buckets: map<string, seq<NautobotObject>>, o: NautobotObject): map<string, seq<NautobotObject>> {
    buckets[BucketKey(o) := BucketOf(buckets, BucketKey(o)) + [o]]
  }

  /** Every record sits in the bucket of its own class. */
  ghost predicate BucketsByClass(buckets: map<string, seq<NautobotObject>>) {
    forall key, o :: key in buckets && o in buckets[key] ==> BucketKey(o) == key
  }

  /** Registering appends to the end of the record's bucket and leaves every other bucket as it was. */
  lemma {:induction false} RegisteredBuckets(buckets: map<string, seq<NautobotObject>>, o: NautobotObject, key: string)
    ensures BucketOf(Registered(buckets, o), key) ==
      if key == BucketKey(o) then BucketOf(buckets, key) + [o] else BucketOf(buckets, key)
    ensures BucketsByClass(buckets) ==> BucketsByClass(Registered(buckets, o))
  {
  }

  /** The diffsync adapter: the store it writes, the settings, the deletion buckets and the job log. */
  class Adapter {
    const store: Store
    const defaults: Defaults
    var objectsToDelete: map<string, seq<NautobotObject>>
    var warnings: seq<Warning>

    constructor (store: Store, defaults: Defaults)
      ensures this.store == store && this.defaults == defaults
      ensures objectsToDelete == map[] && warnings == []
    {
      this.store := store;
      this.defaults := defaults;
      objectsToDelete := map[];
      warnings := [];
    }

    /** `job.log_warning`. */
    method LogWarning(w: Warning)
      modifies this`warnings
      ensures warnings == old(warnings) + [w]
    {
      warnings := warnings + [w];
    }
  }

  /** `DiffSyncExtras.ordered_delete`: defer the record's deletion to its class's bucket and return the model. */
  method OrderedDelete<M>(model: M, diffsync: Adapter, nautobotObject: NautobotObject) returns (r: M)
    modifies diffsync`objectsToDelete
    ensures r == model
    ensures diffsync.objectsToDelete == Registered(old(diffsync.objectsToDelete), nautobotObject)
  {
    var key := BucketKey(nautobotObject);
    var bucket := if key in diffsync.objectsToDelete then diffsync.objectsToDelete[key] else [];
    diffsync.objectsToDelete := diffsync.objectsToDelete[key := bucket + [nautobotObject]];
    r := model;
  }

  // ---------------------------------------------------------------------
  // Field writes of the updates

  /** `if attrs.get(key): field = attrs[key]`. */
  function Written(current: Value, attrs: Attrs, key: string): (r: Value)
    ensures r != current ==> key in attrs && Truthy(attrs[key]) && r == attrs[key]
    ensures Truthy(Get(attrs, key)) ==> r == attrs[key]
  {
    if Truthy(Get(attrs, key)) then attrs[key] else current
  }

  /** The text of a truthy name attribute. */
  function NameIn(attrs: Attrs, key: string): string
    requires TextOrNull(attrs, key) && Truthy(Get(attrs, key))
  {
    attrs[key].s
  }

  /** `DiffSyncCluster.update` once the cluster is found: the group is set from the diff, the type reset to the default. */
  function ClusterWrites(rec: ClusterRec, attrs: Attrs, vsphereType: string): ClusterRec
    requires TextOrNull(attrs, "group")
  {
    ClusterRec(
      if Truthy(Get(attrs, "cluster_type")) then vsphereType else rec.clusterType,
      if Truthy(Get(attrs, "group")) then Some(NameIn(attrs, "group")) else rec.group)
  }

  /** `DiffSyncVMInterface.update` once the interface is found. */
  function InterfaceWrites(rec: InterfaceRec, attrs: Attrs): InterfaceRec {
    rec.(enabled := Written(rec.enabled, attrs, "enabled"), macAddress := Written(rec.macAddress, attrs, "mac_address"))
  }

  /** `DiffSyncVirtualMachine.update` once the machine and its status are found, before the primary IPs. */
  function VirtualMachineWrites(rec: VirtualMachineRec, attrs: Attrs): VirtualMachineRec
    requires TextOrNull(attrs, "status")
  {
    rec.(status := if Truthy(Get(attrs, "status")) then NameIn(attrs, "status") else rec.status,
         vcpus := Written(rec.vcpus, attrs, "vcpus"),
         memory := Written(rec.memory, attrs, "memory"),
         disk := Written(rec.disk, attrs, "disk"))
  }

  /** `DiffSyncHost.update` once the device and the looked-up records are found. */
  function DeviceWrites(rec: DeviceRec, attrs: Attrs): DeviceRec
    requires TextOrNull(attrs, "device_type") && TextOrNull(attrs, "device_role") && TextOrNull(attrs, "cluster")
  {
    rec.(deviceType := if Truthy(Get(attrs, "device_type")) then NameIn(attrs, "device_type") else rec.deviceType,
         deviceRole := if Truthy(Get(attrs, "device_role")) then NameIn(attrs, "device_role") else rec.deviceRole,
         cluster := if Truthy(Get(attrs, "cluster")) then NameIn(attrs, "cluster") else rec.cluster)
  }

  /** A record field by the diff key that writes it, as the value the diff carries. */
  function ClusterField(rec: ClusterRec, key: string): Value {
    if key == "cluster_type" then Str(rec.clusterType)
    else if key == "group" then (if rec.group.Some? then Str(rec.group.value) else Null)
    else Null
  }

  function InterfaceField(rec: InterfaceRec, key: string): Value {
    if key == "enabled" then rec.enabled else if key == "mac_address" then rec.macAddress else Null
  }

  function VirtualMachineField(rec: VirtualMachineRec, key: string): Value {
    if key == "status" then Str(rec.status)
    else if key == "cluster" then Str(rec.cluster)
    else if key == "vcpus" then rec.vcpus
    else if key == "memory" then rec.memory
    else if key == "disk" then rec.disk
    else Null
  }

  function DeviceField(rec: DeviceRec, key: string): Value {
    if key == "status" then Str(rec.status)
    else if key == "device_role" then Str(rec.deviceRole)
    else if key == "device_type" then Str(rec.deviceType)
    else if key == "cluster" then Str(rec.cluster)
    else if key == "site" then Str(rec.site)
    else Null
  }

  /** A cluster field changes only under a truthy diff value; the group takes it, the type takes the default. */
  lemma {:induction false} ClusterWritesOnlyTruthy(rec: ClusterRec, attrs: Attrs, vsphereType: string, key: string)
    requires TextOrNull(attrs, "group")
    ensures !Truthy(Get(attrs, key)) ==> ClusterField(ClusterWrites(rec, attrs, vsphereType), key) == ClusterField(rec, key)
    ensures Truthy(Get(attrs, "group")) ==> ClusterField(ClusterWrites(rec, attrs, vsphereType), "group") == attrs["group"]
    ensures Truthy(Get(attrs, "cluster_type")) ==> ClusterWrites(rec, attrs, vsphereType).clusterType == vsphereType
  {
  }

  /** An interface field changes only under a truthy diff value, and then takes it: `enabled=False` is never written. */
  lemma {:induction false} InterfaceWritesOnlyTruthy(rec: InterfaceRec, attrs: Attrs, key: string)
    ensures !Truthy(Get(attrs, key)) ==> InterfaceField(InterfaceWrites(rec, attrs), key) == InterfaceField(rec, key)
    ensures Truthy(Get(attrs, key)) && key in {"enabled", "mac_address"} ==>
      InterfaceField(InterfaceWrites(rec, attrs), key) == attrs[key]
    ensures InterfaceWrites(rec, attrs).ipAddresses == rec.ipAddresses
  {
  }

  /** A machine field changes only under a truthy diff value, and then takes it: `vcpus=0` is never written. */
  lemma {:induction false} VirtualMachineWritesOnlyTruthy(rec: VirtualMachineRec, attrs: Attrs, key: string)
    requires TextOrNull(attrs, "status")
    ensures !Truthy(Get(attrs, key)) ==> VirtualMachineField(VirtualMachineWrites(rec, attrs), key) == VirtualMachineField(rec, key)
    ensures Truthy(Get(attrs, key)) && key in {"status", "vcpus", "memory", "disk"} ==>
      VirtualMachineField(VirtualMachineWrites(rec, attrs), key) == attrs[key]
    ensures VirtualMachineWrites(rec, attrs).cluster == rec.cluster
    ensures VirtualMachineWrites(rec, attrs).primaryIp4 == rec.primaryIp4
    ensures VirtualMachineWrites(rec, attrs).primaryIp6 == rec.primaryIp6
  {
  }

  /** A device field changes only under a truthy diff value, and then takes it; status and site never change. */
  lemma {:induction false} DeviceWritesOnlyTruthy(rec: DeviceRec, attrs: Attrs, key: string)
    requires TextOrNull(attrs, "device_type") && TextOrNull(attrs, "device_role") && TextOrNull(attrs, "cluster")
    ensures !Truthy(Get(attrs, key)) ==> DeviceField(DeviceWrites(rec, attrs), key) == DeviceField(rec, key)
    ensures Truthy(Get(attrs, key)) && key in {"device_type", "device_role", "cluster"} ==>
      DeviceField(DeviceWrites(rec, attrs), key) == attrs[key]
    ensures DeviceWrites(rec, attrs).site == rec.site && DeviceWrites(rec, attrs).status == rec.status
  {
  }

  // ---------------------------------------------------------------------
  // Primary IP selection

  /** `f"primary_ip{version}"`. */
  function PrimaryAttr(version: nat): string {
    if version == 6 then "primary_ip6" else "primary_ip4"
  }

  /** The IP is of the family and its host is the diff's value for that family's primary IP. */
  predicate IsPrimaryFor(attrs: Attrs, version: nat, ip: IpKey) {
    IpVersion(ip.host) == version && Get(attrs, PrimaryAttr(version)) == Str(ip.host)
  }

  /**
   * The primary IP of one family after the loop: one of the machine's IPs
   * that the diff names for it when there is one, else the value before.
   */
  ghost predicate PrimaryChosen(
    interfaces: map<InterfaceKey, InterfaceRec>, vm: string, attrs: Attrs, version: nat,
    before: Option<IpKey>, after: Option<IpKey>)
  {
    ((exists ip :: OwnsIp(interfaces, vm, ip) && IsPrimaryFor(attrs, version, ip)) ==>
       after.Some? && OwnsIp(interfaces, vm, after.value) && IsPrimaryFor(attrs, version, after.value)) &&
    (!(exists ip :: OwnsIp(interfaces, vm, ip) && IsPrimaryFor(attrs, version, ip)) ==> after == before)
  }

  /** Both primary IPs chosen, over the IPs visited so far; every other field as before. */
  ghost predicate ChosenAmong(seen: set<IpKey>, attrs: Attrs, before: VirtualMachineRec, after: VirtualMachineRec) {
    after == before.(primaryIp4 := after.primaryIp4, primaryIp6 := after.primaryIp6) &&
    ChosenFor(seen, attrs, 4, before.primaryIp4, after.primaryIp4) &&
    ChosenFor(seen, attrs, 6, before.primaryIp6, after.primaryIp6)
  }

  ghost predicate ChosenFor(seen: set<IpKey>, attrs: Attrs, version: nat, before: Option<IpKey>, after: Option<IpKey>) {
    ((exists ip :: ip in seen && IsPrimaryFor(attrs, version, ip)) ==>
       after.Some? && after.value in seen && IsPrimaryFor(attrs, version, after.value)) &&
    (!(exists ip :: ip in seen && IsPrimaryFor(attrs, version, ip)) ==> after == before)
  }

  /** Visiting one more IP: it becomes the primary of its family exactly when the diff names it. */
  lemma {:induction false} ChosenForStep(
    seen: set<IpKey>, attrs: Attrs, version: nat, before: Option<IpKey>, after: Option<IpKey>, ip: IpKey)
    requires ChosenFor(seen, attrs, version, before, after)
    ensures ChosenFor(seen + {ip}, attrs, version, before, if IsPrimaryFor(attrs, version, ip) then Some(ip) else after)
  {
  }

  /** The inner loop, over the IPs of one interface. */
  method AssignFromInterface(ips: seq<IpKey>, attrs: Attrs, ghost seen: set<IpKey>, before: VirtualMachineRec, current: VirtualMachineRec)
    returns (r: VirtualMachineRec)
    requires ChosenAmong(seen, attrs, before, current)
    ensures ChosenAmong(seen + (set ip | ip in ips), attrs, before, r)
  {
    r := current;
    var j := 0;
    ghost var visited := seen;
    while j < |ips|
      invariant 0 <= j <= |ips|
      invariant visited == seen + (set i | 0 <= i < j :: ips[i])
      invariant ChosenAmong(visited, attrs, before, r)
    {
      var ip := ips[j];
      ChosenForStep(visited, attrs, 4, before.primaryIp4, r.primaryIp4, ip);
      ChosenForStep(visited, attrs, 6, before.primaryIp6, r.primaryIp6, ip);
      var version := IpVersion(ip.host);
      if Get(attrs, PrimaryAttr(version)) == Str(ip.host) {
        if version == 6 {
          r := r.(primaryIp6 := Some(ip));
        } else {
          r := r.(primaryIp4 := Some(ip));
        }
      }
      visited := visited + {ip};
      j := j + 1;
    }
    assert (set i | 0 <= i < |ips| :: ips[i]) == (set ip | ip in ips);
  }

  /** The interfaces of one virtual machine. */
  function InterfacesOf(interfaces: map<InterfaceKey, InterfaceRec>, vm: string): set<InterfaceKey> {
    set k | k in interfaces && k.virtualMachine == vm
  }

  /**
   * The loop of `DiffSyncVirtualMachine.update` over the machine's interfaces
   * and their IPs: each IP whose host is the diff's primary value for its
   * family becomes that family's primary. The order of the interfaces is the
   * database's, so it is left open; the last match of each family wins.
   */
  method AssignPrimaryIps(interfaces: map<InterfaceKey, InterfaceRec>, vm: string, rec: VirtualMachineRec, attrs: Attrs)
    returns (r: VirtualMachineRec)
    ensures r == rec.(primaryIp4 := r.primaryIp4, primaryIp6 := r.primaryIp6)
    ensures PrimaryChosen(interfaces, vm, attrs, 4, rec.primaryIp4, r.primaryIp4)
    ensures PrimaryChosen(interfaces, vm, attrs, 6, rec.primaryIp6, r.primaryIp6)
  {
    r := rec;
    var todo := InterfacesOf(interfaces, vm);
    ghost var done: set<InterfaceKey> := {};
    ghost var seen: set<IpKey> := {};
    while todo != {}
      invariant todo !! done && todo + done == InterfacesOf(interfaces, vm)
      invariant forall ip :: ip in seen ==> OwnsIp(interfaces, vm, ip)
      invariant forall k, ip :: k in done && ip in interfaces[k].ipAddresses ==> ip in seen
      invariant ChosenAmong(seen, attrs, rec, r)
      decreases |todo|
    {
      var k :| k in todo;
      r := AssignFromInterface(interfaces[k].ipAddresses, attrs, seen, rec, r);
      seen := seen + (set ip | ip in interfaces[k].ipAddresses);
      assert (todo - {k}) + (done + {k}) == todo + done;
      todo := todo - {k};
      done := done + {k};
    }
    OwnedAreSeen(interfaces, vm, seen, done);
  }

  lemma {:induction false} OwnedAreSeen(
    interfaces: map<InterfaceKey, InterfaceRec>, vm: string, seen: set<IpKey>, done: set<InterfaceKey>)
    requires done == InterfacesOf(interfaces, vm)
    requires forall k, ip :: k in done && ip in interfaces[k].ipAddresses ==> ip in seen
    ensures forall ip :: OwnsIp(interfaces, vm, ip) ==> ip in seen
  {
  }

  // ---------------------------------------------------------------------
  // Lookups of the hooks

  /** The fields `get_or_create` looks each kind of record up by, besides its unique key. */
  function ClusterLookup(rec: ClusterRec): string {
    rec.clusterType
  }

  function InterfaceLookup(rec: InterfaceRec): (Value, Value) {
    (rec.enabled, rec.macAddress)
  }

  function IpLookup(rec: IpRec): string {
    rec.status
  }

  function VirtualMachineLookup(rec: VirtualMachineRec): (string, string, Value, Value, Value) {
    (rec.status, rec.cluster, rec.vcpus, rec.memory, rec.disk)
  }

  /** The first of `keys` that the diff lacks, whose `attrs[key]` raises KeyError. */
  function MissingKey(attrs: Attrs, keys: seq<string>): (r: Option<string>)
    ensures r.Some? ==> r.value in keys && r.value !in attrs
    ensures r.None? <==> forall i :: 0 <= i < |keys| ==> keys[i] in attrs
  {
    if keys == [] then None
    else if keys[0] !in attrs then Some(keys[0])
    else MissingKey(attrs, keys[1..])
  }

  /** The first of `vcpus`, `memory` and `disk` that `DiffSyncVirtualMachine.create` reads and the diff lacks. */
  function MissingSizing(attrs: Attrs): (r: Option<string>)
    ensures r.None? <==> "vcpus" in attrs && "memory" in attrs && "disk" in attrs
    ensures r.Some? ==> r.value !in attrs
  {
    var keys := ["vcpus", "memory", "disk"];
    assert keys[1] == "memory" && keys[2] == "disk";
    MissingKey(attrs, keys)
  }

  /** `interface.ip_addresses.add(ip)`: added once. */
  function AddIp(ips: seq<IpKey>, ip: IpKey): (r: seq<IpKey>)
    ensures ip in r && (forall x :: x in ips ==> x in r) && (forall x :: x in r ==> x == ip || x in ips)
    ensures ip in ips ==> r == ips
  {
    if ip in ips then ips else ips + [ip]
  }

  /** The first lookup of `DiffSyncIpAddress.create` that raises, if any. */
  function IpAddressCreateError(
    virtualMachines: set<string>, interfaces: set<InterfaceKey>, statuses: set<string>, attrs: Attrs): Option<Exception>
  {
    if "vm_name" !in attrs then Some(KeyError("vm_name"))
    else if !Finds(attrs["vm_name"], virtualMachines) then Some(DoesNotExist("VirtualMachine"))
    else if "vm_interface_name" !in attrs then Some(KeyError("vm_interface_name"))
    else if !(attrs["vm_interface_name"].Str? &&
              InterfaceKey(attrs["vm_name"].s, attrs["vm_interface_name"].s) in interfaces) then
      Some(DoesNotExist("VMInterface"))
    else if "state" !in attrs then Some(KeyError("state"))
    else if !Finds(attrs["state"], statuses) then Some(DoesNotExist("Status"))
    else None
  }

  /** The first lookup of `DiffSyncHost.create` that raises, if any; a missing site is handled apart. */
  function HostCreateError(
    statuses: set<string>, deviceTypes: set<string>, deviceRoles: set<string>, clusters: set<string>, attrs: Attrs)
    : Option<Exception>
  {
    if "Active" !in statuses then Some(DoesNotExist("Status"))
    else if "device_type" !in attrs then Some(KeyError("device_type"))
    else if !Finds(attrs["device_type"], deviceTypes) then Some(DoesNotExist("DeviceType"))
    else if "device_role" !in attrs then Some(KeyError("device_role"))
    else if !Finds(attrs["device_role"], deviceRoles) then Some(DoesNotExist("DeviceRole"))
    else if "cluster" !in attrs then Some(KeyError("cluster"))
    else if !Finds(attrs["cluster"], clusters) then Some(DoesNotExist("Cluster"))
    else if "site" !in attrs then Some(KeyError("site"))
    else None
  }

  /** The first lookup of `DiffSyncHost.update` that raises, if any: only truthy values are looked up. */
  function HostUpdateError(deviceTypes: set<string>, deviceRoles: set<string>, clusters: set<string>, attrs: Attrs)
    : Option<Exception>
  {
    if Truthy(Get(attrs, "device_type")) && !Finds(attrs["device_type"], deviceTypes) then Some(DoesNotExist("DeviceType"))
    else if Truthy(Get(attrs, "device_role")) && !Finds(attrs["device_role"], deviceRoles) then Some(DoesNotExist("DeviceRole"))
    else if Truthy(Get(attrs, "cluster")) && !Finds(attrs["cluster"], clusters) then Some(DoesNotExist("Cluster"))
    else None
  }

  /** The update asks for a primary IP: only then does the loop over the interfaces run. */
  predicate PrimaryRequested(attrs: Attrs) {
    Truthy(Get(attrs, "primary_ip4")) || Truthy(Get(attrs, "primary_ip6"))
  }

  // ---------------------------------------------------------------------
  // ClusterGroup

  class DiffSyncClusterGroup {
    const diffsync: Adapter
    const name: string
    var attrs: Attrs

    /** The in-memory model `super().create` builds. */
    constructor (diffsync: Adapter, name: string, attrs: Attrs)
      ensures this.diffsync == diffsync && this.name == name && this.attrs == attrs
    {
      this.diffsync := diffsync;
      this.name := name;
      this.attrs := attrs;
    }

    /** `create`: the group is fetched or created by name. */
    static method Create(diffsync: Adapter, name: string, attrs: Attrs) returns (r: Outcome<DiffSyncClusterGroup>)
      requires diffsync.store.Valid()
      modifies diffsync.store`clusterGroups
      ensures diffsync.store.Valid()
      ensures diffsync.store.clusterGroups == old(diffsync.store.clusterGroups) + {name}
      ensures r.Returned? && fresh(r.value)
      ensures r.Returned? ==> r.value.diffsync == diffsync && r.value.name == name && r.value.attrs == attrs
    {
      diffsync.store.clusterGroups := diffsync.store.clusterGroups + {name};
      var model := new DiffSyncClusterGroup(diffsync, name, attrs);
      r := Returned(model);
    }

    /** `delete`: a stored group is deferred for deletion; a missing one is logged. */
    method Delete() returns (r: Outcome<DiffSyncClusterGroup>)
      modifies diffsync`objectsToDelete, diffsync`warnings
      ensures name in diffsync.store.clusterGroups ==>
        r == Returned(this) && diffsync.warnings == old(diffsync.warnings) &&
        diffsync.objectsToDelete == Registered(old(diffsync.objectsToDelete), ClusterGroupObject(name))
      ensures name !in diffsync.store.clusterGroups ==>
        r == ReturnedNone && diffsync.objectsToDelete == old(diffsync.objectsToDelete) &&
        diffsync.warnings == old(diffsync.warnings) + [NotMatched("ClusterGroup", name)]
    {
      if name in diffsync.store.clusterGroups {
        var model := OrderedDelete(this, diffsync, ClusterGroupObject(name));
        r := Returned(this);
      } else {
        diffsync.LogWarning(NotMatched("ClusterGroup", name));
        r := ReturnedNone;
      }
    }
  }

  // ---------------------------------------------------------------------
  // Cluster

  class DiffSyncCluster {
    const diffsync: Adapter
    const name: string
    var attrs: Attrs

    constructor (diffsync: Adapter, name: string, attrs: Attrs)
      ensures this.diffsync == diffsync && this.name == name && this.attrs == attrs
    {
      this.diffsync := diffsync;
      this.name := name;
      this.attrs := attrs;
    }

    /**
     * `create`: the default cluster type is fetched or created; then the
     * cluster, of that type. A cluster of that name and another type is an
     * IntegrityError, logged. Reading `attrs["group"]` raises when the diff
     * lacks it, after the cluster is written; a truthy group is fetched or
     * created and set on the cluster.
     */
    static method Create(diffsync: Adapter, name: string, attrs: Attrs) returns (r: Outcome<DiffSyncCluster>)
      requires diffsync.store.Valid()
      requires TextOrNull(attrs, "group")
      modifies diffsync.store`clusterTypes, diffsync.store`clusters, diffsync.store`clusterGroups, diffsync`warnings
      ensures diffsync.store.Valid()
      ensures diffsync.store.clusterTypes == old(diffsync.store.clusterTypes) + {diffsync.defaults.vsphereType}
      ensures r.Returned? ==> fresh(r.value) && r.value.diffsync == diffsync && r.value.name == name && r.value.attrs == attrs
      ensures
        var got := GetOrCreate(old(diffsync.store.clusters), name, ClusterRec(diffsync.defaults.vsphereType, None), ClusterLookup);
        if got.None? then
          r.Returned? && diffsync.store.clusters == old(diffsync.store.clusters) &&
          diffsync.store.clusterGroups == old(diffsync.store.clusterGroups) &&
          diffsync.warnings == old(diffsync.warnings) + [AlreadyExists("Cluster", name)]
        else if "group" !in attrs then
          r == Raised(KeyError("group")) && diffsync.store.clusters == got.value &&
          diffsync.store.clusterGroups == old(diffsync.store.clusterGroups) && diffsync.warnings == old(diffsync.warnings)
        else if Truthy(attrs["group"]) then
          r.Returned? && diffsync.store.clusters == got.value[name := ClusterRec(diffsync.defaults.vsphereType, Some(attrs["group"].s))] &&
          diffsync.store.clusterGroups == old(diffsync.store.clusterGroups) + {attrs["group"].s} &&
          diffsync.warnings == old(diffsync.warnings)
        else
          r.Returned? && diffsync.store.clusters == got.value &&
          diffsync.store.clusterGroups == old(diffsync.store.clusterGroups) && diffsync.warnings == old(diffsync.warnings)
    {
      var store := diffsync.store;
      ghost var before := store.Contents();
      var vsphereType := diffsync.defaults.vsphereType;
      store.clusterTypes := store.clusterTypes + {vsphereType};
      var got := GetOrCreate(store.clusters, name, ClusterRec(vsphereType, None), ClusterLookup);
      if got.None? {
        ClusterWriteKeepsValid(before, store.Contents());
        diffsync.LogWarning(AlreadyExists("Cluster", name));
      } else {
        store.clusters := got.value;
        if "group" !in attrs {
          ClusterWriteKeepsValid(before, store.Contents());
          r := Raised(KeyError("group"));
          return;
        }
        if Truthy(attrs["group"]) {
          var group := attrs["group"].s;
          store.clusterGroups := store.clusterGroups + {group};
          store.clusters := store.clusters[name := store.clusters[name].(group := Some(group))];
        }
        ClusterWriteKeepsValid(before, store.Contents());
      }
      var model := new DiffSyncCluster(diffsync, name, attrs);
      r := Returned(model);
    }

    /** `delete`: a stored cluster is deferred for deletion; a missing one is logged. */
    method Delete() returns (r: Outcome<DiffSyncCluster>)
      modifies diffsync`objectsToDelete, diffsync`warnings
      ensures name in diffsync.store.clusters ==>
        r == Returned(this) && diffsync.warnings == old(diffsync.warnings) &&
        diffsync.objectsToDelete == Registered(old(diffsync.objectsToDelete), ClusterObject(name))
      ensures name !in diffsync.store.clusters ==>
        r == ReturnedNone && diffsync.objectsToDelete == old(diffsync.objectsToDelete) &&
        diffsync.warnings == old(diffsync.warnings) + [NotMatched("Cluster", name)]
    {
      if name in diffsync.store.clusters {
        var model := OrderedDelete(this, diffsync, ClusterObject(name));
        r := Returned(this);
      } else {
        diffsync.LogWarning(NotMatched("Cluster", name));
        r := ReturnedNone;
      }
    }

    /**
     * `update`: a missing cluster raises (nothing catches it). The default
     * type is fetched or created; a truthy group is set; a truthy
     * `cluster_type` resets the type to the default, not to the diff's value.
     * It returns None and leaves the in-memory model as it was.
     */
    method Update(newAttrs: Attrs) returns (r: Outcome<DiffSyncCluster>)
      requires diffsync.store.Valid()
      requires TextOrNull(newAttrs, "group")
      modifies diffsync.store`clusterTypes, diffsync.store`clusters, diffsync.store`clusterGroups
      ensures diffsync.store.Valid()
      ensures name !in old(diffsync.store.clusters) ==>
        r == Raised(DoesNotExist("Cluster")) && diffsync.store.clusterTypes == old(diffsync.store.clusterTypes) &&
        diffsync.store.clusters == old(diffsync.store.clusters) &&
        diffsync.store.clusterGroups == old(diffsync.store.clusterGroups)
      ensures name in old(diffsync.store.clusters) ==>
        r == ReturnedNone &&
        diffsync.store.clusterTypes == old(diffsync.store.clusterTypes) + {diffsync.defaults.vsphereType} &&
        diffsync.store.clusterGroups ==
          old(diffsync.store.clusterGroups) + (if Truthy(Get(newAttrs, "group")) then {NameIn(newAttrs, "group")} else {}) &&
        diffsync.store.clusters ==
          old(diffsync.store.clusters)[name := ClusterWrites(old(diffsync.store.clusters)[name], newAttrs, diffsync.defaults.vsphereType)]
    {
      var store := diffsync.store;
      if name !in store.clusters {
        r := Raised(DoesNotExist("Cluster"));
        return;
      }
      ghost var before := store.Contents();
      var vsphereType := diffsync.defaults.vsphereType;
      store.clusterTypes := store.clusterTypes + {vsphereType};
      var cluster := store.clusters[name];
      if Truthy(Get(newAttrs, "group")) {
        var group := newAttrs["group"].s;
        store.clusterGroups := store.clusterGroups + {group};
        cluster := cluster.(group := Some(group));
      }
      if Truthy(Get(newAttrs, "cluster_type")) {
        cluster := cluster.(clusterType := vsphereType);
      }
      store.clusters := store.clusters[name := cluster];
      ClusterWriteKeepsValid(before, store.Contents());
      r := ReturnedNone;
    }
  }

  // ---------------------------------------------------------------------
  // VMInterface

  class DiffSyncVMInterface {
    const diffsync: Adapter
    const name: string
    const virtualMachine: string
    var attrs: Attrs

    constructor (diffsync: Adapter, name: string, virtualMachine: string, attrs: Attrs)
      ensures this.diffsync == diffsync && this.name == name && this.virtualMachine == virtualMachine
      ensures this.attrs == attrs
    {
      this.diffsync := diffsync;
      this.name := name;
      this.virtualMachine := virtualMachine;
      this.attrs := attrs;
    }

    /**
     * `create`: `enabled`, the machine and `mac_address` are read in that
     * order, each raising when missing. An interface of that machine and name
     * with other fields is an IntegrityError whose handler names the unbound
     * `vm_interface`, so the hook raises instead of logging.
     */
    static method Create(diffsync: Adapter, name: string, virtualMachine: string, attrs: Attrs)
      returns (r: Outcome<DiffSyncVMInterface>)
      requires diffsync.store.Valid()
      modifies diffsync.store`interfaces
      ensures diffsync.store.Valid()
      ensures r.Returned? ==>
        fresh(r.value) && r.value.diffsync == diffsync && r.value.name == name &&
        r.value.virtualMachine == virtualMachine && r.value.attrs == attrs
      ensures "enabled" !in attrs ==>
        r == Raised(KeyError("enabled")) && diffsync.store.interfaces == old(diffsync.store.interfaces)
      ensures "enabled" in attrs && virtualMachine !in diffsync.store.virtualMachines ==>
        r == Raised(DoesNotExist("VirtualMachine")) && diffsync.store.interfaces == old(diffsync.store.interfaces)
      ensures "enabled" in attrs && virtualMachine in diffsync.store.virtualMachines && "mac_address" !in attrs ==>
        r == Raised(KeyError("mac_address")) && diffsync.store.interfaces == old(diffsync.store.interfaces)
      ensures "enabled" in attrs && virtualMachine in diffsync.store.virtualMachines && "mac_address" in attrs ==>
        var got := GetOrCreate(old(diffsync.store.interfaces), InterfaceKey(virtualMachine, name),
          InterfaceRec(attrs["enabled"], attrs["mac_address"], []), InterfaceLookup);
        (got.None? ==>
           r == Raised(UnboundLocalError("vm_interface")) && diffsync.store.interfaces == old(diffsync.store.interfaces)) &&
        (got.Some? ==> r.Returned? && diffsync.store.interfaces == got.value)
    {
      var store := diffsync.store;
      if "enabled" !in attrs {
        r := Raised(KeyError("enabled"));
        return;
      }
      if virtualMachine !in store.virtualMachines {
        r := Raised(DoesNotExist("VirtualMachine"));
        return;
      }
      if "mac_address" !in attrs {
        r := Raised(KeyError("mac_address"));
        return;
      }
      var got := GetOrCreate(store.interfaces, InterfaceKey(virtualMachine, name),
        InterfaceRec(attrs["enabled"], attrs["mac_address"], []), InterfaceLookup);
      if got.None? {
        r := Raised(UnboundLocalError("vm_interface"));
        return;
      }
      InterfacesGrowByGetOrCreate(store.interfaces, InterfaceKey(virtualMachine, name),
        InterfaceRec(attrs["enabled"], attrs["mac_address"], []));
      ghost var before := store.Contents();
      store.interfaces := got.value;
      InterfaceWriteKeepsValid(before, store.Contents());
      var model := new DiffSyncVMInterface(diffsync, name, virtualMachine, attrs);
      r := Returned(model);
    }

    /**
     * `delete`: the lookup includes the MAC address exactly when
     * `is_valid_mac` accepts it. A missing machine raises, since the handler
     * catches only a missing interface; a missing interface is logged.
     */
    method Delete(isValidMac: Value -> bool) returns (r: Outcome<DiffSyncVMInterface>)
      modifies diffsync`objectsToDelete, diffsync`warnings
      ensures virtualMachine !in diffsync.store.virtualMachines ==>
        r == Raised(DoesNotExist("VirtualMachine")) &&
        diffsync.objectsToDelete == old(diffsync.objectsToDelete) && diffsync.warnings == old(diffsync.warnings)
      ensures virtualMachine in diffsync.store.virtualMachines ==>
        var key := InterfaceKey(virtualMachine, name);
        var found := key in diffsync.store.interfaces &&
          (isValidMac(Get(attrs, "mac_address")) ==> diffsync.store.interfaces[key].macAddress == Get(attrs, "mac_address"));
        (found ==>
           r == Returned(this) && diffsync.warnings == old(diffsync.warnings) &&
           diffsync.objectsToDelete == Registered(old(diffsync.objectsToDelete), VMInterfaceObject(key))) &&
        (!found ==>
           r == ReturnedNone && diffsync.objectsToDelete == old(diffsync.objectsToDelete) &&
           diffsync.warnings == old(diffsync.warnings) + [NotMatched("VMInterface", name)])
    {
      var store := diffsync.store;
      var mac := Get(attrs, "mac_address");
      if virtualMachine !in store.virtualMachines {
        r := Raised(DoesNotExist("VirtualMachine"));
        return;
      }
      var key := InterfaceKey(virtualMachine, name);
      var found;
      if isValidMac(mac) {
        found := key in store.interfaces && store.interfaces[key].macAddress == mac;
      } else {
        found := key in store.interfaces;
      }
      if found {
        var model := OrderedDelete(this, diffsync, VMInterfaceObject(key));
        r := Returned(this);
      } else {
        diffsync.LogWarning(NotMatched("VMInterface", name));
        r := ReturnedNone;
      }
    }

    /**
     * `update`: a missing machine is logged; a missing interface raises.
     * Truthy `enabled` and `mac_address` are written, and the in-memory
     * model takes the diff.
     */
    method Update(newAttrs: Attrs) returns (r: Outcome<DiffSyncVMInterface>)
      requires diffsync.store.Valid()
      modifies this`attrs, diffsync.store`interfaces, diffsync`warnings
      ensures diffsync.store.Valid()
      ensures virtualMachine !in diffsync.store.virtualMachines ==>
        r == ReturnedNone && diffsync.warnings == old(diffsync.warnings) + [NotMatched("VMInterface", name)] &&
        diffsync.store.interfaces == old(diffsync.store.interfaces) && attrs == old(attrs)
      ensures virtualMachine in diffsync.store.virtualMachines && InterfaceKey(virtualMachine, name) !in old(diffsync.store.interfaces) ==>
        r == Raised(DoesNotExist("VMInterface")) && diffsync.warnings == old(diffsync.warnings) &&
        diffsync.store.interfaces == old(diffsync.store.interfaces) && attrs == old(attrs)
      ensures virtualMachine in diffsync.store.virtualMachines && InterfaceKey(virtualMachine, name) in old(diffsync.store.interfaces) ==>
        var key := InterfaceKey(virtualMachine, name);
        r == Returned(this) && diffsync.warnings == old(diffsync.warnings) && attrs == old(attrs) + newAttrs &&
        diffsync.store.interfaces == old(diffsync.store.interfaces)[key := InterfaceWrites(old(diffsync.store.interfaces)[key], newAttrs)]
    {
      var store := diffsync.store;
      if virtualMachine !in store.virtualMachines {
        diffsync.LogWarning(NotMatched("VMInterface", name));
        r := ReturnedNone;
        return;
      }
      var key := InterfaceKey(virtualMachine, name);
      if key !in store.interfaces {
        r := Raised(DoesNotExist("VMInterface"));
        return;
      }
      var interface := store.interfaces[key];
      if Truthy(Get(newAttrs, "enabled")) {
        interface := interface.(enabled := newAttrs["enabled"]);
      }
      if Truthy(Get(newAttrs, "mac_address")) {
        interface := interface.(macAddress := newAttrs["mac_address"]);
      }
      ghost var before := store.Contents();
      store.interfaces := store.interfaces[key := interface];
      InterfaceWriteKeepsValid(before, store.Contents());
      attrs := attrs + newAttrs;
      r := Returned(this);
    }
  }

  // ---------------------------------------------------------------------
  // IPAddress

  class DiffSyncIpAddress {
    const diffsync: Adapter
    const host: string
    const prefixLength: int
    const macAddress: string
    var attrs: Attrs

    constructor (diffsync: Adapter, host: string, prefixLength: int, macAddress: string, attrs: Attrs)
      ensures this.diffsync == diffsync && this.host == host && this.prefixLength == prefixLength
      ensures this.macAddress == macAddress && this.attrs == attrs
    {
      this.diffsync := diffsync;
      this.host := host;
      this.prefixLength := prefixLength;
      this.macAddress := macAddress;
      this.attrs := attrs;
    }

    /**
     * `create`: the machine, its interface and the status named by `state`
     * are looked up, each raising when missing. An address stored with
     * another status is an IntegrityError whose handler names the unbound
     * `ip_address`, so the hook raises. Otherwise the address is fetched or
     * created and assigned to the interface.
     */
    static method Create(diffsync: Adapter, host: string, prefixLength: int, macAddress: string, attrs: Attrs)
      returns (r: Outcome<DiffSyncIpAddress>)
      requires diffsync.store.Valid()
      requires TextOrNull(attrs, "vm_name") && TextOrNull(attrs, "vm_interface_name") && TextOrNull(attrs, "state")
      modifies diffsync.store`ipAddresses, diffsync.store`interfaces
      ensures diffsync.store.Valid()
      ensures r.Returned? ==>
        fresh(r.value) && r.value.diffsync == diffsync && r.value.host == host &&
        r.value.prefixLength == prefixLength && r.value.macAddress == macAddress && r.value.attrs == attrs
      ensures
        var error := IpAddressCreateError(diffsync.store.virtualMachines.Keys, old(diffsync.store.interfaces.Keys),
          diffsync.store.statuses, attrs);
        error.Some? ==>
          r == Raised(error.value) && diffsync.store.ipAddresses == old(diffsync.store.ipAddresses) &&
          diffsync.store.interfaces == old(diffsync.store.interfaces)
      ensures
        IpAddressCreateError(diffsync.store.virtualMachines.Keys, old(diffsync.store.interfaces.Keys),
          diffsync.store.statuses, attrs).None? ==>
        var interface := InterfaceKey(attrs["vm_name"].s, attrs["vm_interface_name"].s);
        var address := IpKey(host, prefixLength);
        var got := GetOrCreate(old(diffsync.store.ipAddresses), address, IpRec(attrs["state"].s), IpLookup);
        (got.None? ==>
           r == Raised(UnboundLocalError("ip_address")) && diffsync.store.ipAddresses == old(diffsync.store.ipAddresses) &&
           diffsync.store.interfaces == old(diffsync.store.interfaces)) &&
        (got.Some? ==>
           r.Returned? && diffsync.store.ipAddresses == got.value &&
           diffsync.store.interfaces == old(diffsync.store.interfaces)[interface :=
             old(diffsync.store.interfaces)[interface].(ipAddresses := AddIp(old(diffsync.store.interfaces)[interface].ipAddresses, address))])
    {
      var store := diffsync.store;
      var error := IpAddressCreateError(store.virtualMachines.Keys, store.interfaces.Keys, store.statuses, attrs);
      if error.Some? {
        r := Raised(error.value);
        return;
      }
      var interface := InterfaceKey(attrs["vm_name"].s, attrs["vm_interface_name"].s);
      var address := IpKey(host, prefixLength);
      var got := GetOrCreate(store.ipAddresses, address, IpRec(attrs["state"].s), IpLookup);
      if got.None? {
        r := Raised(UnboundLocalError("ip_address"));
        return;
      }
      ghost var before := store.Contents();
      var rec := store.interfaces[interface];
      store.ipAddresses := got.value;
      store.interfaces := store.interfaces[interface := rec.(ipAddresses := AddIp(rec.ipAddresses, address))];
      IpWriteKeepsValid(before, store.Contents());
      var model := new DiffSyncIpAddress(diffsync, host, prefixLength, macAddress, attrs);
      r := Returned(model);
    }

    /** `delete`: a stored address is deferred for deletion; a missing one is logged. */
    method Delete() returns (r: Outcome<DiffSyncIpAddress>)
      modifies diffsync`objectsToDelete, diffsync`warnings
      ensures IpKey(host, prefixLength) in diffsync.store.ipAddresses ==>
        r == Returned(this) && diffsync.warnings == old(diffsync.warnings) &&
        diffsync.objectsToDelete == Registered(old(diffsync.objectsToDelete), IPAddressObject(IpKey(host, prefixLength)))
      ensures IpKey(host, prefixLength) !in diffsync.store.ipAddresses ==>
        r == ReturnedNone && diffsync.objectsToDelete == old(diffsync.objectsToDelete) &&
        diffsync.warnings == old(diffsync.warnings) + [NotMatched("IPAddress", host)]
    {
      var address := IpKey(host, prefixLength);
      if address in diffsync.store.ipAddresses {
        var model := OrderedDelete(this, diffsync, IPAddressObject(address));
        r := Returned(this);
      } else {
        diffsync.LogWarning(NotMatched("IPAddress", host));
        r := ReturnedNone;
      }
    }

    /**
     * `update`: a missing address is logged. The status is rewritten only
     * under a truthy `status` key, which the IP model's attributes never
     * carry; and that branch would raise, reading `state` and handing it to
     * the status lookup as a positional filter. The stored address never
     * changes.
     */
    method Update(newAttrs: Attrs) returns (r: Outcome<DiffSyncIpAddress>)
      modifies this`attrs, diffsync`warnings
      ensures IpKey(host, prefixLength) !in diffsync.store.ipAddresses ==>
        r == ReturnedNone && attrs == old(attrs) &&
        diffsync.warnings == old(diffsync.warnings) + [NotMatched("IPAddress", host)]
      ensures IpKey(host, prefixLength) in diffsync.store.ipAddresses && Truthy(Get(newAttrs, "status")) ==>
        r == Raised(if "state" in newAttrs then InvalidLookup else KeyError("state")) &&
        attrs == old(attrs) && diffsync.warnings == old(diffsync.warnings)
      ensures IpKey(host, prefixLength) in diffsync.store.ipAddresses && !Truthy(Get(newAttrs, "status")) ==>
        r == Returned(this) && attrs == old(attrs) + newAttrs && diffsync.warnings == old(diffsync.warnings)
    {
      if IpKey(host, prefixLength) !in diffsync.store.ipAddresses {
        diffsync.LogWarning(NotMatched("IPAddress", host));
        r := ReturnedNone;
        return;
      }
      if Truthy(Get(newAttrs, "status")) {
        r := Raised(if "state" in newAttrs then InvalidLookup else KeyError("state"));
        return;
      }
      attrs := attrs + newAttrs;
      r := Returned(this);
    }
  }

  // ---------------------------------------------------------------------
  // VirtualMachine

  class DiffSyncVirtualMachine {
    const diffsync: Adapter
    const name: string
    var attrs: Attrs

    constructor (diffsync: Adapter, name: string, attrs: Attrs)
      ensures this.diffsync == diffsync && this.name == name && this.attrs == attrs
    {
      this.diffsync := diffsync;
      this.name := name;
      this.attrs := attrs;
    }

    /**
     * `create`: the status is looked up; with clusters in use the cluster is
     * looked up by name, otherwise the default type and the default cluster
     * are fetched or created (a default cluster of another type is an
     * IntegrityError, logged). Then `vcpus`, `memory` and `disk` are read and
     * the machine is fetched or created; a machine of that name with other
     * fields is an IntegrityError, logged.
     */
    static method Create(diffsync: Adapter, name: string, attrs: Attrs) returns (r: Outcome<DiffSyncVirtualMachine>)
      requires diffsync.store.Valid()
      requires TextOrNull(attrs, "status") && TextOrNull(attrs, "cluster")
      modifies diffsync.store`clusterTypes, diffsync.store`clusters, diffsync.store`virtualMachines, diffsync`warnings
      ensures diffsync.store.Valid()
      ensures r.Returned? ==> fresh(r.value) && r.value.diffsync == diffsync && r.value.name == name && r.value.attrs == attrs
      ensures !Finds(Get(attrs, "status"), diffsync.store.statuses) ==>
        r == Raised(if "status" in attrs then DoesNotExist("Status") else KeyError("status")) &&
        unchanged(diffsync.store) && diffsync.warnings == old(diffsync.warnings)
      ensures Finds(Get(attrs, "status"), diffsync.store.statuses) && diffsync.defaults.useClusters ==>
        diffsync.store.clusterTypes == old(diffsync.store.clusterTypes) &&
        diffsync.store.clusters == old(diffsync.store.clusters) &&
        if !Finds(Get(attrs, "cluster"), old(diffsync.store.clusters.Keys)) then
          r == Raised(if "cluster" in attrs then DoesNotExist("Cluster") else KeyError("cluster")) &&
          diffsync.store.virtualMachines == old(diffsync.store.virtualMachines) && diffsync.warnings == old(diffsync.warnings)
        else
          VirtualMachineInserted(old(diffsync.store.virtualMachines), diffsync.store.virtualMachines,
            old(diffsync.warnings), diffsync.warnings, name, attrs, attrs["cluster"].s, r)
      ensures Finds(Get(attrs, "status"), diffsync.store.statuses) && !diffsync.defaults.useClusters ==>
        var defaults := diffsync.defaults;
        var got := GetOrCreate(old(diffsync.store.clusters), defaults.clusterName, ClusterRec(defaults.vsphereType, None), ClusterLookup);
        diffsync.store.clusterTypes == old(diffsync.store.clusterTypes) + {defaults.vsphereType} &&
        if got.None? then
          r.Returned? && diffsync.store.clusters == old(diffsync.store.clusters) &&
          diffsync.store.virtualMachines == old(diffsync.store.virtualMachines) &&
          diffsync.warnings == old(diffsync.warnings) + [AlreadyExists("VirtualMachine", name)]
        else
          diffsync.store.clusters == got.value &&
          VirtualMachineInserted(old(diffsync.store.virtualMachines), diffsync.store.virtualMachines,
            old(diffsync.warnings), diffsync.warnings, name, attrs, defaults.clusterName, r)
    {
      var store := diffsync.store;
      var defaults := diffsync.defaults;
      ghost var before := store.Contents();
      if !Finds(Get(attrs, "status"), store.statuses) {
        r := Raised(if "status" in attrs then DoesNotExist("Status") else KeyError("status"));
        return;
      }
      var status := attrs["status"].s;
      var cluster;
      if defaults.useClusters {
        if !Finds(Get(attrs, "cluster"), store.clusters.Keys) {
          r := Raised(if "cluster" in attrs then DoesNotExist("Cluster") else KeyError("cluster"));
          return;
        }
        cluster := attrs["cluster"].s;
      } else {
        store.clusterTypes := store.clusterTypes + {defaults.vsphereType};
        var got := GetOrCreate(store.clusters, defaults.clusterName, ClusterRec(defaults.vsphereType, None), ClusterLookup);
        if got.None? {
          VirtualMachineWriteKeepsValid(before, store.Contents());
          diffsync.LogWarning(AlreadyExists("VirtualMachine", name));
          var model := new DiffSyncVirtualMachine(diffsync, name, attrs);
          r := Returned(model);
          return;
        }
        store.clusters := got.value;
        cluster := defaults.clusterName;
      }
      VirtualMachineWriteKeepsValid(before, store.Contents());
      r := InsertMachine(diffsync, name, attrs, status, cluster);
    }

    /** The last stage of `create`: the sizing fields are read and the machine fetched or created in `cluster`. */
    static method InsertMachine(diffsync: Adapter, name: string, attrs: Attrs, status: string, cluster: string)
      returns (r: Outcome<DiffSyncVirtualMachine>)
      requires diffsync.store.Valid()
      requires "status" in attrs && attrs["status"] == Str(status) && status in diffsync.store.statuses
      requires cluster in diffsync.store.clusters
      modifies diffsync.store`virtualMachines, diffsync`warnings
      ensures diffsync.store.Valid()
      ensures r.Returned? ==> fresh(r.value) && r.value.diffsync == diffsync && r.value.name == name && r.value.attrs == attrs
      ensures VirtualMachineInserted(old(diffsync.store.virtualMachines), diffsync.store.virtualMachines,
        old(diffsync.warnings), diffsync.warnings, name, attrs, cluster, r)
    {
      var store := diffsync.store;
      var missing := MissingSizing(attrs);
      if missing.Some? {
        r := Raised(KeyError(missing.value));
        return;
      }
      ghost var before := store.Contents();
      var got := GetOrCreate(store.virtualMachines, name,
        VirtualMachineRec(status, cluster, attrs["vcpus"], attrs["memory"], attrs["disk"], None, None), VirtualMachineLookup);
      if got.None? {
        diffsync.LogWarning(AlreadyExists("VirtualMachine", name));
      } else {
        store.virtualMachines := got.value;
      }
      VirtualMachineWriteKeepsValid(before, store.Contents());
      var model := new DiffSyncVirtualMachine(diffsync, name, attrs);
      r := Returned(model);
    }

    /** `delete`: a stored machine is deferred for deletion; a missing one is logged. */
    method Delete() returns (r: Outcome<DiffSyncVirtualMachine>)
      modifies diffsync`objectsToDelete, diffsync`warnings
      ensures name in diffsync.store.virtualMachines ==>
        r == Returned(this) && diffsync.warnings == old(diffsync.warnings) &&
        diffsync.objectsToDelete == Registered(old(diffsync.objectsToDelete), VirtualMachineObject(name))
      ensures name !in diffsync.store.virtualMachines ==>
        r == ReturnedNone && diffsync.objectsToDelete == old(diffsync.objectsToDelete) &&
        diffsync.warnings == old(diffsync.warnings) + [NotMatched("VirtualMachine", name)]
    {
      if name in diffsync.store.virtualMachines {
        var model := OrderedDelete(this, diffsync, VirtualMachineObject(name));
        r := Returned(this);
      } else {
        diffsync.LogWarning(NotMatched("VirtualMachine", name));
        r := ReturnedNone;
      }
    }

    /**
     * `update`: a missing machine is logged. A truthy status is looked up
     * (a missing one raises); truthy `vcpus`, `memory` and `disk` are
     * written. With clusters in use, a truthy cluster name other than the
     * machine's is assigned where a cluster record is expected, which
     * raises. When either primary IP is asked for, the primary IPs are
     * chosen among the machine's interfaces' IPs. The machine is saved and
     * the in-memory model takes the diff.
     */
    method Update(newAttrs: Attrs) returns (r: Outcome<DiffSyncVirtualMachine>)
      requires diffsync.store.Valid()
      requires TextOrNull(newAttrs, "status") && TextOrNull(newAttrs, "cluster")
      modifies this`attrs, diffsync.store`virtualMachines, diffsync`warnings
      ensures diffsync.store.Valid()
      ensures name !in old(diffsync.store.virtualMachines) ==>
        r == ReturnedNone && attrs == old(attrs) && unchanged(diffsync.store) &&
        diffsync.warnings == old(diffsync.warnings) + [NotMatched("VirtualMachine", name)]
      ensures name in old(diffsync.store.virtualMachines) ==>
        var error := VirtualMachineUpdateError(diffsync.store.statuses, old(diffsync.store.virtualMachines)[name],
          newAttrs, diffsync.defaults.useClusters);
        diffsync.warnings == old(diffsync.warnings) &&
        (error.Some? ==> r == Raised(error.value) && attrs == old(attrs) && unchanged(diffsync.store)) &&
        (error.None? ==>
           r == Returned(this) && attrs == old(attrs) + newAttrs &&
           name in diffsync.store.virtualMachines &&
           diffsync.store.virtualMachines == old(diffsync.store.virtualMachines)[name := diffsync.store.virtualMachines[name]] &&
           VirtualMachineUpdated(diffsync.store.interfaces, name, newAttrs,
             old(diffsync.store.virtualMachines)[name], diffsync.store.virtualMachines[name]))
    {
      var store := diffsync.store;
      if name !in store.virtualMachines {
        diffsync.LogWarning(NotMatched("VirtualMachine", name));
        r := ReturnedNone;
        return;
      }
      var stored := store.virtualMachines[name];
      var error := VirtualMachineUpdateError(store.statuses, stored, newAttrs, diffsync.defaults.useClusters);
      if error.Some? {
        r := Raised(error.value);
        return;
      }
      var machine := VirtualMachineWrites(stored, newAttrs);
      if PrimaryRequested(newAttrs) {
        machine := AssignPrimaryIps(store.interfaces, name, machine, newAttrs);
      }
      ghost var before := store.Contents();
      store.virtualMachines := store.virtualMachines[name := machine];
      VirtualMachineUpdateKeepsValid(before, store.Contents(), name, newAttrs, stored);
      attrs := attrs + newAttrs;
      r := Returned(this);
    }
  }

  /** The first failure of `DiffSyncVirtualMachine.update` on a stored machine, if any. */
  function VirtualMachineUpdateError(statuses: set<string>, stored: VirtualMachineRec, attrs: Attrs, useClusters: bool)
    : Option<Exception>
    requires TextOrNull(attrs, "status") && TextOrNull(attrs, "cluster")
  {
    if Truthy(Get(attrs, "status")) && NameIn(attrs, "status") !in statuses then Some(DoesNotExist("Status"))
    else if useClusters && Truthy(Get(attrs, "cluster")) && NameIn(attrs, "cluster") != stored.cluster then
      Some(ValueError("cluster"))
    else None
  }

  /**
   * The machine after a successful update: the fields the diff writes, and
   * the primary IPs chosen among its interfaces' IPs when either is asked for.
   */
  ghost predicate VirtualMachineUpdated(
    interfaces: map<InterfaceKey, InterfaceRec>, name: string, attrs: Attrs,
    stored: VirtualMachineRec, updated: VirtualMachineRec)
    requires TextOrNull(attrs, "status")
  {
    var written := VirtualMachineWrites(stored, attrs);
    updated == written.(primaryIp4 := updated.primaryIp4, primaryIp6 := updated.primaryIp6) &&
    if PrimaryRequested(attrs) then
      PrimaryChosen(interfaces, name, attrs, 4, written.primaryIp4, updated.primaryIp4) &&
      PrimaryChosen(interfaces, name, attrs, 6, written.primaryIp6, updated.primaryIp6)
    else
      updated == written
  }

  /** The machine's record after `create` reaches `get_or_create`: a KeyError, a logged conflict, or the record stored. */
  predicate VirtualMachineInserted(
    before: map<string, VirtualMachineRec>, after: map<string, VirtualMachineRec>,
    warningsBefore: seq<Warning>, warningsAfter: seq<Warning>,
    name: string, attrs: Attrs, cluster: string, r: Outcome<DiffSyncVirtualMachine>)
    requires "status" in attrs && attrs["status"].Str?
  {
    var missing := MissingSizing(attrs);
    if missing.Some? then
      r == Raised(KeyError(missing.value)) && after == before && warningsAfter == warningsBefore
    else
      var got := GetOrCreate(before, name,
        VirtualMachineRec(attrs["status"].s, cluster, attrs["vcpus"], attrs["memory"], attrs["disk"], None, None),
        VirtualMachineLookup);
      r.Returned? &&
      if got.None? then
        after == before && warningsAfter == warningsBefore + [AlreadyExists("VirtualMachine", name)]
      else
        after == got.value && warningsAfter == warningsBefore
  }

  /** Saving the updated machine keeps the store valid: its status exists, its cluster is kept, its primaries are its own. */
  lemma {:induction false} VirtualMachineUpdateKeepsValid(t: Tables, t': Tables, name: string, attrs: Attrs, stored: VirtualMachineRec)
    requires TablesValid(t) && name in t.virtualMachines && stored == t.virtualMachines[name]
    requires TextOrNull(attrs, "status") && TextOrNull(attrs, "cluster")
    requires !Truthy(Get(attrs, "status")) || NameIn(attrs, "status") in t.statuses
    requires name in t'.virtualMachines && t' == t.(virtualMachines := t.virtualMachines[name := t'.virtualMachines[name]])
    requires VirtualMachineUpdated(t.interfaces, name, attrs, stored, t'.virtualMachines[name])
    ensures TablesValid(t')
  {
  }

  // ---------------------------------------------------------------------
  // Host

  class DiffSyncHost {
    const diffsync: Adapter
    const name: string
    var attrs: Attrs

    constructor (diffsync: Adapter, name: string, attrs: Attrs)
      ensures this.diffsync == diffsync && this.name == name && this.attrs == attrs
    {
      this.diffsync := diffsync;
      this.name := name;
      this.attrs := attrs;
    }

    /**
     * `create`: the "Active" status, the device type, the device role and
     * the cluster are looked up, each raising when missing (the cluster key
     * too, which the diff lacks when clusters are not in use). A site that is
     * not found is logged and the model returned without a device; a missing
     * `site` key raises again inside that handler. Otherwise the device whose
     * name matches ignoring case is updated, or a new one created.
     */
    static method Create(diffsync: Adapter, name: string, attrs: Attrs) returns (r: Outcome<DiffSyncHost>)
      requires diffsync.store.Valid()
      requires TextOrNull(attrs, "device_type") && TextOrNull(attrs, "device_role")
      requires TextOrNull(attrs, "cluster") && TextOrNull(attrs, "site")
      modifies diffsync.store`devices, diffsync`warnings
      ensures diffsync.store.Valid()
      ensures r.Returned? ==> fresh(r.value) && r.value.diffsync == diffsync && r.value.name == name && r.value.attrs == attrs
      ensures
        var s := diffsync.store;
        var error := HostCreateError(s.statuses, s.deviceTypes, s.deviceRoles, s.clusters.Keys, attrs);
        (error.Some? ==>
           r == Raised(error.value) && s.devices == old(s.devices) && diffsync.warnings == old(diffsync.warnings)) &&
        (error.None? && !Finds(attrs["site"], s.sites) ==>
           r.Returned? && s.devices == old(s.devices) &&
           diffsync.warnings == old(diffsync.warnings) + [NoSite(attrs["site"])]) &&
        (error.None? && Finds(attrs["site"], s.sites) && AmbiguousName(old(s.devices), name) ==>
           r == Raised(MultipleObjectsReturned("Device")) && s.devices == old(s.devices) &&
           diffsync.warnings == old(diffsync.warnings)) &&
        (error.None? && Finds(attrs["site"], s.sites) && !AmbiguousName(old(s.devices), name) ==>
           r.Returned? && diffsync.warnings == old(diffsync.warnings) &&
           s.devices == UpdateOrCreateIgnoringCase(old(s.devices), name,
             DeviceRec("Active", attrs["device_role"].s, attrs["device_type"].s, attrs["cluster"].s, attrs["site"].s)))
    {
      var store := diffsync.store;
      var error := HostCreateError(store.statuses, store.deviceTypes, store.deviceRoles, store.clusters.Keys, attrs);
      if error.Some? {
        r := Raised(error.value);
        return;
      }
      if !Finds(attrs["site"], store.sites) {
        diffsync.LogWarning(NoSite(attrs["site"]));
        var model := new DiffSyncHost(diffsync, name, attrs);
        r := Returned(model);
        return;
      }
      if AmbiguousName(store.devices, name) {
        r := Raised(MultipleObjectsReturned("Device"));
        return;
      }
      ghost var before := store.Contents();
      var device := DeviceRec("Active", attrs["device_role"].s, attrs["device_type"].s, attrs["cluster"].s, attrs["site"].s);
      store.devices := UpdateOrCreateIgnoringCase(store.devices, name, device);
      DeviceWriteKeepsValid(before, store.Contents());
      var model := new DiffSyncHost(diffsync, name, attrs);
      r := Returned(model);
    }

    /**
     * `delete`: a stored device is deferred for deletion. A missing one
     * raises: the handler catches a missing virtual machine, not a missing
     * device.
     */
    method Delete() returns (r: Outcome<DiffSyncHost>)
      modifies diffsync`objectsToDelete
      ensures name in diffsync.store.devices ==>
        r == Returned(this) && diffsync.objectsToDelete == Registered(old(diffsync.objectsToDelete), DeviceObject(name))
      ensures name in diffsync.store.devices ==>
        BucketOf(diffsync.objectsToDelete, "_device") == BucketOf(old(diffsync.objectsToDelete), "_device") + [DeviceObject(name)]
      ensures name !in diffsync.store.devices ==>
        r == Raised(DoesNotExist("Device")) && diffsync.objectsToDelete == old(diffsync.objectsToDelete)
    {
      if name !in diffsync.store.devices {
        r := Raised(DoesNotExist("Device"));
        return;
      }
      DeviceBucket(name);
      RegisteredBuckets(diffsync.objectsToDelete, DeviceObject(name), "_device");
      var model := OrderedDelete(this, diffsync, DeviceObject(name));
      r := Returned(this);
    }

    /**
     * `update`: a missing device raises, as in `delete`. Truthy device type,
     * device role and cluster are looked up (a missing one raises) and
     * written, the cluster whether or not clusters are in use; the site is
     * never written. The in-memory model takes the diff.
     */
    method Update(newAttrs: Attrs) returns (r: Outcome<DiffSyncHost>)
      requires diffsync.store.Valid()
      requires TextOrNull(newAttrs, "device_type") && TextOrNull(newAttrs, "device_role") && TextOrNull(newAttrs, "cluster")
      modifies this`attrs, diffsync.store`devices
      ensures diffsync.store.Valid()
      ensures name !in old(diffsync.store.devices) ==>
        r == Raised(DoesNotExist("Device")) && attrs == old(attrs) && unchanged(diffsync.store)
      ensures name in old(diffsync.store.devices) ==>
        var s := diffsync.store;
        var error := HostUpdateError(s.deviceTypes, s.deviceRoles, s.clusters.Keys, newAttrs);
        (error.Some? ==> r == Raised(error.value) && attrs == old(attrs) && unchanged(s)) &&
        (error.None? ==>
           r == Returned(this) && attrs == old(attrs) + newAttrs &&
           s.devices == old(s.devices)[name := DeviceWrites(old(s.devices)[name], newAttrs)])
    {
      var store := diffsync.store;
      if name !in store.devices {
        r := Raised(DoesNotExist("Device"));
        return;
      }
      var error := HostUpdateError(store.deviceTypes, store.deviceRoles, store.clusters.Keys, newAttrs);
      if error.Some? {
        r := Raised(error.value);
        return;
      }
      ghost var before := store.Contents();
      var device := store.devices[name];
      if Truthy(Get(newAttrs, "device_type")) {
        device := device.(deviceType := newAttrs["device_type"].s);
      }
      if Truthy(Get(newAttrs, "device_role")) {
        device := device.(deviceRole := newAttrs["device_role"].s);
      }
      if Truthy(Get(newAttrs, "cluster")) {
        device := device.(cluster := newAttrs["cluster"].s);
      }
      store.devices := store.devices[name := device];
      DeviceWriteKeepsValid(before, store.Contents());
      attrs := attrs + newAttrs;
      r := Returned(this);
    }
  }

  /** A `get_or_create` that succeeds never takes a record or an IP away from an interface. */
  lemma {:induction false} InterfacesGrowByGetOrCreate(
    interfaces: map<InterfaceKey, InterfaceRec>, key: InterfaceKey, created: InterfaceRec)
    requires GetOrCreate(interfaces, key, created, InterfaceLookup).Some?
    ensures InterfacesGrow(interfaces, GetOrCreate(interfaces, key, created, InterfaceLookup).value)
  {
  }
}
