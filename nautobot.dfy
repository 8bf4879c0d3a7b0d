/**
 * The part of Nautobot's database the vSphere reconciliation touches: one
 * set or map per table, keyed by the natural identifier the lookups use.
 * Attribute values of a diff are the Python values a diff can carry.
 */
module Nautobot {
  import opened Wrappers
  import opened Text

  /** A value in a diff's attribute dictionary. */
  datatype Value = Null | Str(s: string) | Int(i: int) | Bool(b: bool)

  type Attrs = map<string, Value>

  /** Python truthiness: None, "", 0 and False are falsy. */
  predicate Truthy(v: Value) {
    match v
    case Null => false
    case Str(s) => s != ""
    case Int(i) => i != 0
    case Bool(b) => b
  }

  /** `attrs.get(key)`: None when the key is absent. */
  function Get(attrs: Attrs, key: string): Value {
    if key in attrs then attrs[key] else Null
  }

  /** The attribute is declared `str` or `Optional[str]`: when present it is text or None. */
  predicate TextOrNull(attrs: Attrs, key: string) {
    key in attrs ==> attrs[key].Str? || attrs[key].Null?
  }

  /** An IP address, identified by host and prefix length. */
  datatype IpKey = IpKey(host: string, prefixLength: int)

  /** The address family of a host: IPv6 hosts are written with colons. */
  function IpVersion(host: string): (v: nat)
    ensures v == 4 || v == 6
    ensures v == 6 <==> exists i :: 0 <= i < |host| && host[i] == ':'
  {
    if ':' in host then 6 else 4
  }

  /** A virtual machine interface is unique by virtual machine and name. */
  datatype InterfaceKey = InterfaceKey(virtualMachine: string, name: string)

  datatype ClusterRec = ClusterRec(clusterType: string, group: Option<string>)

  datatype VirtualMachineRec = VirtualMachineRec(
    status: string,
    cluster: string,
    vcpus: Value,
    memory: Value,
    disk: Value,
    primaryIp4: Option<IpKey>,
    primaryIp6: Option<IpKey>)

  datatype InterfaceRec = InterfaceRec(enabled: Value, macAddress: Value, ipAddresses: seq<IpKey>)

  datatype IpRec = IpRec(status: string)

  datatype DeviceRec = DeviceRec(status: string, deviceRole: string, deviceType: string, cluster: string, site: string)

  /** `primary_ip4` or `primary_ip6` of a virtual machine. */
  function Primary(rec: VirtualMachineRec, version: nat): Option<IpKey> {
    if version == 6 then rec.primaryIp6 else rec.primaryIp4
  }

  /** The IP address is assigned to one of the virtual machine's interfaces. */
  ghost predicate OwnsIp(interfaces: map<InterfaceKey, InterfaceRec>, vm: string, ip: IpKey) {
    exists k :: k in interfaces && k.virtualMachine == vm && ip in interfaces[k].ipAddresses
  }

  /** Two device names Nautobot's `name__iexact` lookup cannot tell apart. */
  predicate SameIgnoringCase(a: string, b: string) {
    Lower(a) == Lower(b)
  }

  /** No two stored device names differ only in case. */
  ghost predicate DeviceNamesDistinct(devices: map<string, DeviceRec>) {
    forall a, b :: a in devices && b in devices && SameIgnoringCase(a, b) ==> a == b
  }

  /** `primary_ip4` or `primary_ip6` is of its own family and assigned to one of the machine's interfaces. */
  ghost predicate PrimaryValid(interfaces: map<InterfaceKey, InterfaceRec>, name: string, rec: VirtualMachineRec, version: nat) {
    Primary(rec, version).Some? ==>
      IpVersion(Primary(rec, version).value.host) == version &&
      OwnsIp(interfaces, name, Primary(rec, version).value)
  }

  ghost predicate ClustersValid(clusters: map<string, ClusterRec>, clusterTypes: set<string>, clusterGroups: set<string>) {
    forall n :: n in clusters ==>
      clusters[n].clusterType in clusterTypes &&
      (clusters[n].group.Some? ==> clusters[n].group.value in clusterGroups)
  }

  ghost predicate VirtualMachineValid(
    name: string, rec: VirtualMachineRec,
    statuses: set<string>, clusters: map<string, ClusterRec>, interfaces: map<InterfaceKey, InterfaceRec>)
  {
    rec.status in statuses && rec.cluster in clusters &&
    PrimaryValid(interfaces, name, rec, 4) && PrimaryValid(interfaces, name, rec, 6)
  }

  ghost predicate VirtualMachinesValid(
    virtualMachines: map<string, VirtualMachineRec>,
    statuses: set<string>, clusters: map<string, ClusterRec>, interfaces: map<InterfaceKey, InterfaceRec>)
  {
    forall n :: n in virtualMachines ==> VirtualMachineValid(n, virtualMachines[n], statuses, clusters, interfaces)
  }

  ghost predicate InterfacesValid(
    interfaces: map<InterfaceKey, InterfaceRec>,
    virtualMachines: map<string, VirtualMachineRec>, ipAddresses: map<IpKey, IpRec>)
  {
    forall k :: k in interfaces ==>
      k.virtualMachine in virtualMachines &&
      forall ip :: ip in interfaces[k].ipAddresses ==> ip in ipAddresses
  }

  ghost predicate IpAddressesValid(ipAddresses: map<IpKey, IpRec>, statuses: set<string>) {
    forall k :: k in ipAddresses ==> ipAddresses[k].status in statuses
  }

  ghost predicate DeviceValid(
    rec: DeviceRec, statuses: set<string>, deviceRoles: set<string>, deviceTypes: set<string>,
    clusters: map<string, ClusterRec>, sites: set<string>)
  {
    rec.status in statuses && rec.deviceRole in deviceRoles && rec.deviceType in deviceTypes &&
    rec.cluster in clusters && rec.site in sites
  }

  ghost predicate DevicesValid(
    devices: map<string, DeviceRec>, statuses: set<string>, deviceRoles: set<string>, deviceTypes: set<string>,
    clusters: map<string, ClusterRec>, sites: set<string>)
  {
    forall n :: n in devices ==> DeviceValid(devices[n], statuses, deviceRoles, deviceTypes, clusters, sites)
  }

  /** Every record an interface had, with every IP it had, is still there. */
  ghost predicate InterfacesGrow(before: map<InterfaceKey, InterfaceRec>, after: map<InterfaceKey, InterfaceRec>) {
    forall k :: k in before ==>
      k in after && forall ip :: ip in before[k].ipAddresses ==> ip in after[k].ipAddresses
  }

  lemma {:induction false} OwnsIpGrows(
    before: map<InterfaceKey, InterfaceRec>, after: map<InterfaceKey, InterfaceRec>, vm: string, ip: IpKey)
    requires InterfacesGrow(before, after) && OwnsIp(before, vm, ip)
    ensures OwnsIp(after, vm, ip)
  {
  }

  /** Virtual machines stay valid while the tables they refer to only grow. */
  lemma {:induction false} VirtualMachinesValidGrow(
    virtualMachines: map<string, VirtualMachineRec>,
    statuses: set<string>, clusters: map<string, ClusterRec>, interfaces: map<InterfaceKey, InterfaceRec>,
    statuses': set<string>, clusters': map<string, ClusterRec>, interfaces': map<InterfaceKey, InterfaceRec>)
    requires VirtualMachinesValid(virtualMachines, statuses, clusters, interfaces)
    requires statuses <= statuses' && clusters.Keys <= clusters'.Keys && InterfacesGrow(interfaces, interfaces')
    ensures VirtualMachinesValid(virtualMachines, statuses', clusters', interfaces')
  {
  }

  /** The lookup finds a record: Django's `name=None` matches no stored name. */
  predicate Finds(v: Value, names: set<string>) {
    v.Str? && v.s in names
  }

  /**
   * `get_or_create` on a table whose records are unique by key: a stored
   * record with the looked-up fields is fetched, a free key gets `created`,
   * and a key held by a record with other fields raises IntegrityError (None).
   */
  function GetOrCreate<K, R, F(==)>(table: map<K, R>, key: K, created: R, lookup: R -> F): (r: Option<map<K, R>>)
    ensures r.None? <==> key in table && lookup(table[key]) != lookup(created)
    ensures r.Some? ==> r.value.Keys == table.Keys + {key} && lookup(r.value[key]) == lookup(created)
    ensures r.Some? ==> forall k :: k in table ==> r.value[k] == table[k]
    ensures r.Some? && key !in table ==> r.value[key] == created
  {
    if key !in table then Some(table[key := created])
    else if lookup(table[key]) == lookup(created) then Some(table)
    else None
  }

  /** Two stored device names match `name` ignoring case: `name__iexact` raises MultipleObjectsReturned. */
  predicate AmbiguousName(devices: map<string, DeviceRec>, name: string) {
    exists a, b :: a in devices && b in devices && a != b && SameIgnoringCase(a, name) && SameIgnoringCase(b, name)
  }

  /**
   * `update_or_create(name__iexact=name, defaults={"name": name, ...})`: the
   * record whose name matches ignoring case, if there is one, is replaced by
   * `rec` under the new spelling; otherwise `rec` is added.
   */
  function UpdateOrCreateIgnoringCase(devices: map<string, DeviceRec>, name: string, rec: DeviceRec): (r: map<string, DeviceRec>)
    requires !AmbiguousName(devices, name)
    ensures name in r && r[name] == rec
    ensures forall n :: n in devices && !SameIgnoringCase(n, name) ==> n in r && r[n] == devices[n]
    ensures forall n :: n in r ==> n == name || (n in devices && !SameIgnoringCase(n, name))
  {
    (map n | n in devices && !SameIgnoringCase(n, name) :: devices[n])[name := rec]
  }

  /** With names distinct ignoring case, the lookup is never ambiguous and stays so after the write. */
  lemma {:induction false} UpdateOrCreateKeepsNamesDistinct(devices: map<string, DeviceRec>, name: string, rec: DeviceRec)
    requires DeviceNamesDistinct(devices)
    ensures !AmbiguousName(devices, name)
    ensures DeviceNamesDistinct(UpdateOrCreateIgnoringCase(devices, name, rec))
  {
  }

  /** The contents of every table at one moment. */
  datatype Tables = Tables(
    statuses: set<string>,
    clusterTypes: set<string>,
    deviceTypes: set<string>,
    deviceRoles: set<string>,
    sites: set<string>,
    clusterGroups: set<string>,
    clusters: map<string, ClusterRec>,
    virtualMachines: map<string, VirtualMachineRec>,
    interfaces: map<InterfaceKey, InterfaceRec>,
    ipAddresses: map<IpKey, IpRec>,
    devices: map<string, DeviceRec>)

  /** Every reference between records points at a stored record. */
  ghost predicate TablesValid(t: Tables) {
    ClustersValid(t.clusters, t.clusterTypes, t.clusterGroups) &&
    VirtualMachinesValid(t.virtualMachines, t.statuses, t.clusters, t.interfaces) &&
    InterfacesValid(t.interfaces, t.virtualMachines, t.ipAddresses) &&
    IpAddressesValid(t.ipAddresses, t.statuses) &&
    DevicesValid(t.devices, t.statuses, t.deviceRoles, t.deviceTypes, t.clusters, t.sites)
  }

  /** Writing clusters, types and groups: valid when the clusters are and nothing referred to goes away. */
  lemma {:induction false} ClusterWriteKeepsValid(t: Tables, t': Tables)
    requires TablesValid(t)
    requires t' == t.(clusterTypes := t'.clusterTypes, clusterGroups := t'.clusterGroups, clusters := t'.clusters)
    requires t.clusters.Keys <= t'.clusters.Keys
    requires ClustersValid(t'.clusters, t'.clusterTypes, t'.clusterGroups)
    ensures TablesValid(t')
  {
  }

  /** Writing interfaces: valid when they are and no interface loses a record or an IP. */
  lemma {:induction false} InterfaceWriteKeepsValid(t: Tables, t': Tables)
    requires TablesValid(t)
    requires t' == t.(interfaces := t'.interfaces)
    requires InterfacesGrow(t.interfaces, t'.interfaces)
    requires InterfacesValid(t'.interfaces, t'.virtualMachines, t'.ipAddresses)
    ensures TablesValid(t')
  {
  }

  /** Adding an IP address and assigning it to interfaces. */
  lemma {:induction false} IpWriteKeepsValid(t: Tables, t': Tables)
    requires TablesValid(t)
    requires t' == t.(ipAddresses := t'.ipAddresses, interfaces := t'.interfaces)
    requires t.ipAddresses.Keys <= t'.ipAddresses.Keys
    requires InterfacesGrow(t.interfaces, t'.interfaces)
    requires InterfacesValid(t'.interfaces, t'.virtualMachines, t'.ipAddresses)
    requires IpAddressesValid(t'.ipAddresses, t'.statuses)
    ensures TablesValid(t')
  {
  }

  /** Writing virtual machines (and the default cluster and type they may need). */
  lemma {:induction false} VirtualMachineWriteKeepsValid(t: Tables, t': Tables)
    requires TablesValid(t)
    requires t' == t.(clusterTypes := t'.clusterTypes, clusters := t'.clusters, virtualMachines := t'.virtualMachines)
    requires t.clusters.Keys <= t'.clusters.Keys && t.virtualMachines.Keys <= t'.virtualMachines.Keys
    requires ClustersValid(t'.clusters, t'.clusterTypes, t'.clusterGroups)
    requires VirtualMachinesValid(t'.virtualMachines, t'.statuses, t'.clusters, t'.interfaces)
    ensures TablesValid(t')
  {
  }

  /** Writing devices. */
  lemma {:induction false} DeviceWriteKeepsValid(t: Tables, t': Tables)
    requires TablesValid(t)
    requires t' == t.(devices := t'.devices)
    requires DevicesValid(t'.devices, t'.statuses, t'.deviceRoles, t'.deviceTypes, t'.clusters, t'.sites)
    ensures TablesValid(t')
  {
  }

  class Store {
    var statuses: set<string>
    var clusterTypes: set<string>
    var deviceTypes: set<string>
    var deviceRoles: set<string>
    var sites: set<string>
    var clusterGroups: set<string>
    var clusters: map<string, ClusterRec>
    var virtualMachines: map<string, VirtualMachineRec>
    var interfaces: map<InterfaceKey, InterfaceRec>
    var ipAddresses: map<IpKey, IpRec>
    var devices: map<string, DeviceRec>

    /** The tables' contents. */
    ghost function Contents(): Tables
      reads this
    {
      Tables(statuses, clusterTypes, deviceTypes, deviceRoles, sites, clusterGroups,
        clusters, virtualMachines, interfaces, ipAddresses, devices)
    }

    ghost predicate Valid()
      reads this
    {
      TablesValid(Contents())
    }

    /** An empty database. */
    constructor ()
      ensures Valid()
      ensures statuses == {} && clusterTypes == {} && deviceTypes == {} && deviceRoles == {}
      ensures sites == {} && clusterGroups == {}
      ensures clusters == map[] && virtualMachines == map[] && interfaces == map[]
      ensures ipAddresses == map[] && devices == map[]
    {
      statuses, clusterTypes, deviceTypes, deviceRoles, sites, clusterGroups := {}, {}, {}, {}, {}, {};
      clusters, virtualMachines, interfaces, ipAddresses, devices := map[], map[], map[], map[], map[];
    }
  }
}
