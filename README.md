# nautobot-ssot-vsphere: the site/service classifier and the DiffSync hooks

This project models two parts of the vSphere-to-Nautobot reconciliation plugin in Dafny.

**The site/service classifier** (`utilities/hasmat.py`) reads a host's organization and name. It returns a service code and a site code.

- Each lookup table is a list of one-key dictionaries `{code: [regex, ...]}`. The parsers visit every pattern in order. Every matching pattern overwrites the working result, so the last match decides.
- The "split" rule cuts the organization at its first space or hyphen.
- `get_site_and_service` uses the device name for whichever half the organization left "unknown". It then keeps the site only up to its first space or hyphen.

**The DiffSync models** (`diffsync/diffsync_models.py`) are the create, update and delete hooks of six entity kinds: ClusterGroup, Cluster, VMInterface, IPAddress, VirtualMachine and Host. They run against the Nautobot database.

- Deletions are deferred. `ordered_delete` files the Nautobot record under `"_" + class name in lower case` in the adapter's `objects_to_delete`.
- Which attributes a model compares depends on the plugin settings.

## How the model is organised

**Shared modules**

- `Wrappers` holds Option and Result.
- `Text` implements ASCII `str.lower()`, `replace` and `split`.
- `Patterns` covers the regular expressions the tables use. A pattern is a top-level alternation of literals, each optionally anchored by `^` and `$`. IGNORECASE is ASCII case folding.
- `Names` does the string surgery: the split rule and the site token.

**`Hasmat`**

- The tables are data.
- Each parser is a method with the source's triple loop. It is proved equal to a fold over the table's entries in iteration order (`SiteAfter`, `ServiceAfter`, `OrgAfter`).
- The properties are lemmas about those folds.

**`Nautobot`** is the database.

- A `Store` class holds one set or map per table. Records are keyed by the natural key the hooks look them up by.
- `Store.Valid()` is referential integrity: every reference points at a stored record, and a virtual machine's primary IPs belong to its own interfaces.
- `GetOrCreate` and `UpdateOrCreateIgnoringCase` model Django's `get_or_create` and `update_or_create(name__iexact=...)`.

**`DiffSyncModels`** holds one class per DiffSync model and an `Adapter` class.

- The `Adapter` holds the store, the settings, `objects_to_delete` and the job's warnings.
- Each hook states its whole outcome for every case. A hook can return the model, return None, or raise an exception that its handler does not catch (`Outcome.Raised`). It also states what it writes to the store and which warning it logs.
- Every hook that writes keeps `Store.Valid()`.

Exceptions that escape a hook appear as values. Examples are `DoesNotExist` for a related record the handler does not catch, a `KeyError` for a missing diff key, and the `UnboundLocalError` raised by a handler that names a variable its failing statement never bound. The code lets these escape. The model follows the code.

## Model

| member | source | states |
|---|---|---|
| Text.Lower | nautobot_ssot_vsphere/utilities/hasmat.py:68 | `lower()` keeps the length, folds each character on its own and leaves no upper-case letter |
| Text.LowerIdempotent | nautobot_ssot_vsphere/utilities/hasmat.py:68 | lower-casing twice is lower-casing once |
| Text.FirstIndex | nautobot_ssot_vsphere/utilities/hasmat.py:89 | the index is the first occurrence of the character, or the length when there is none |
| Patterns.AtStartMatches | nautobot_ssot_vsphere/utilities/hasmat.py:87 | a lone `^literal` pattern searched with IGNORECASE matches exactly the strings that start with the literal, ignoring case |
| Names.FirstSeparator | nautobot_ssot_vsphere/utilities/hasmat.py:89 | the first space or hyphen, with none before it |
| Names.SplitAtFirstSeparator | nautobot_ssot_vsphere/utilities/hasmat.py:89 | `replace(" ", "-", 1).split("-", 1)` has two parts exactly when the name has a space or hyphen. The first part is the text before the first separator; the second is the rest, with its first space turned into a hyphen when the cut was at a hyphen |
| Names.SplitAtHyphenBeforeSpace | nautobot_ssot_vsphere/utilities/hasmat.py:89 | a hyphen before the first space cuts the name there |
| Names.SplitAtSpace | nautobot_ssot_vsphere/utilities/hasmat.py:89 | a space no later than the first hyphen cuts the name there |
| Names.SiteTokenIsPrefix | nautobot_ssot_vsphere/utilities/hasmat.py:144 | `replace("-", " ").split(" ")[0]` is the prefix before the first space or hyphen and contains neither |
| Hasmat.EntryOfTable | nautobot_ssot_vsphere/utilities/hasmat.py:84-86 | the nested loops test every pattern of every item of every dictionary |
| Hasmat.NormalizeService | nautobot_ssot_vsphere/utilities/hasmat.py:62-73 | the result is lower case: the mapped code for "jupiter" and "jup2", otherwise the lower-cased input |
| Hasmat.NormalizeServiceIdempotent | nautobot_ssot_vsphere/utilities/hasmat.py:62-73 | normalising a normalised service changes nothing |
| Hasmat.SiteAfterAppend | nautobot_ssot_vsphere/utilities/hasmat.py:105-109 | scanning two runs of patterns is scanning the second from where the first left off |
| Hasmat.SiteAfterNoMatch | nautobot_ssot_vsphere/utilities/hasmat.py:104-109 | when no pattern matches, the site keeps its start value |
| Hasmat.SiteAfterLastMatch | nautobot_ssot_vsphere/utilities/hasmat.py:105-109 | the last matching pattern in iteration order decides the site |
| Hasmat.SiteAfterRange | nautobot_ssot_vsphere/utilities/hasmat.py:104-109 | the site is the start value or the code of a table entry |
| Hasmat.ScanForSite | nautobot_ssot_vsphere/utilities/hasmat.py:104-109 | the triple loop computes the last-match fold over the table's entries |
| Hasmat.ParseNameForSite | nautobot_ssot_vsphere/utilities/hasmat.py:98-111 | the site from the device name is "unknown" or a lower-cased code of the device-name table |
| Hasmat.ServiceEntries | nautobot_ssot_vsphere/utilities/hasmat.py:55-59 | the service table is visited as j1 `^J1`, j2 `^J2`, j3 `^J3` |
| Hasmat.ServiceAfterAppend | nautobot_ssot_vsphere/utilities/hasmat.py:121-127 | scanning two runs of patterns is scanning the second from where the first left off |
| Hasmat.ScanForService | nautobot_ssot_vsphere/utilities/hasmat.py:121-127 | the loop that writes "hns" on every miss computes the fold over the entries |
| Hasmat.ServiceFromNameIsJ3Test | nautobot_ssot_vsphere/utilities/hasmat.py:114-129 | because every miss resets the service to "hns", the result is "j3" exactly when the name starts with J3 ignoring case, else "hns"; it is never j1, j2 or "unknown" |
| Hasmat.ParseNameForService | nautobot_ssot_vsphere/utilities/hasmat.py:114-129 | the service from the device name is "j3" when the name starts with J3 ignoring case, else "hns" |
| Hasmat.OrgAfterAppend | nautobot_ssot_vsphere/utilities/hasmat.py:84-91 | scanning two runs of entries is scanning the second from where the first left off |
| Hasmat.OrgAfterFails | nautobot_ssot_vsphere/utilities/hasmat.py:84-91 | the organization loop raises exactly when a matching split entry meets a name with no space or hyphen |
| Hasmat.OrgAfterNoMatch | nautobot_ssot_vsphere/utilities/hasmat.py:84-91 | with no matching entry, the working (service, site) survives |
| Hasmat.OrgAfterSplitBlock | nautobot_ssot_vsphere/utilities/hasmat.py:84-91 | a run of split entries in which one matches overrides whatever came before: the result is the split or the failure |
| Hasmat.OrganizationEntriesEndWithSplit | nautobot_ssot_vsphere/utilities/hasmat.py:4-34 | the split dictionary's patterns are the last entries of the organization table |
| Hasmat.SplitRuleWins | nautobot_ssot_vsphere/utilities/hasmat.py:76-95 | when a split pattern matches, the earlier site matches do not matter. The result is (normalised first half, lower-cased second half), or the unpacking error when the name cannot be split |
| Hasmat.SplitRuleAppliesToPrefixes | nautobot_ssot_vsphere/utilities/hasmat.py:33 | the split rule applies exactly to names starting with JUPITER-, JUP2-, J1, J2 or J3, ignoring case |
| Hasmat.NoPatternMatches | nautobot_ssot_vsphere/utilities/hasmat.py:78-95 | with no pattern matching, the result is ("fsn", "unknown") for exactly "Fusion", otherwise ("unknown", "unknown") |
| Hasmat.NormalizeStartServices | nautobot_ssot_vsphere/utilities/hasmat.py:78-82 | the loop's start values "unknown" and "fsn" are already normal |
| Hasmat.ScanForOrganization | nautobot_ssot_vsphere/utilities/hasmat.py:84-91 | the triple loop computes the organization fold, stopping with the error where the split cannot be unpacked |
| Hasmat.ParseOrganizationForSiteService | nautobot_ssot_vsphere/utilities/hasmat.py:76-95 | it returns the fold's (normalised service, lower-cased site), both lower case, or the unpacking error |
| Hasmat.SplitWithoutSeparatorFails | nautobot_ssot_vsphere/utilities/hasmat.py:89 | a split-rule name with no space or hyphen raises "not enough values to unpack" |
| Hasmat.JupiterGtnExample | nautobot_ssot_vsphere/utilities/hasmat.py:76-95 | "JUPITER-GTN" matches only the split rule `^JUPITER-` (`^JUPITER$` needs the string to end after JUPITER) and reads as ("j1", "gtn") |
| Hasmat.JupiterGtnFacts | nautobot_ssot_vsphere/utilities/hasmat.py:89 | "JUPITER-GTN" starts with JUPITER- and is cut at index 7 into "JUPITER" and "GTN" |
| Hasmat.J1Fails | nautobot_ssot_vsphere/utilities/hasmat.py:89 | the organization "J1" raises the unpacking error |
| Hasmat.GetSiteAndService | nautobot_ssot_vsphere/utilities/hasmat.py:132-146 | the organization's reading, with the device name used for each half it left "unknown"; the site is cut at its first space or hyphen; the service is never "unknown"; the organization's error propagates |
| Nautobot.IpVersion | nautobot_ssot_vsphere/diffsync/diffsync_models.py:386 | `address.version` is 4 or 6, and 6 exactly for hosts written with a colon |
| Nautobot.GetOrCreate | nautobot_ssot_vsphere/diffsync/diffsync_models.py:102-105 | get_or_create fails with IntegrityError exactly when the key is held by a record with other looked-up fields. Otherwise the key is present with those fields, every other record is untouched, and a new key holds the created record |
| Nautobot.UpdateOrCreateIgnoringCase | nautobot_ssot_vsphere/diffsync/diffsync_models.py:432-442 | the device whose name matches ignoring case is replaced by the new record under the new spelling, or the record is added; every other device stays |
| Nautobot.UpdateOrCreateKeepsNamesDistinct | nautobot_ssot_vsphere/diffsync/diffsync_models.py:432-442 | when device names are distinct ignoring case, the iexact lookup is never ambiguous and the names stay distinct |
| Nautobot.OwnsIpGrows | nautobot_ssot_vsphere/diffsync/diffsync_models.py:383-391 | an IP owned through the machine's interfaces stays owned while interfaces only gain IPs |
| Nautobot.VirtualMachinesValidGrow | nautobot_ssot_vsphere/diffsync/diffsync_models.py:329-356 | virtual machines stay valid while the statuses, clusters and interface IPs they refer to only grow |
| Nautobot.ClusterWriteKeepsValid | nautobot_ssot_vsphere/diffsync/diffsync_models.py:95-131 | writing types, groups and clusters without removing a cluster keeps referential integrity when the clusters are valid |
| Nautobot.InterfaceWriteKeepsValid | nautobot_ssot_vsphere/diffsync/diffsync_models.py:150-200 | writing interfaces that lose no record and no IP keeps referential integrity when the interfaces are valid |
| Nautobot.IpWriteKeepsValid | nautobot_ssot_vsphere/diffsync/diffsync_models.py:231-235 | adding an IP address and assigning it to an interface keeps referential integrity |
| Nautobot.VirtualMachineWriteKeepsValid | nautobot_ssot_vsphere/diffsync/diffsync_models.py:329-356 | writing the default cluster and virtual machines keeps referential integrity when they are valid |
| Nautobot.DeviceWriteKeepsValid | nautobot_ssot_vsphere/diffsync/diffsync_models.py:420-473 | writing devices keeps referential integrity when they are valid |
| DiffSyncModels.VirtualMachineAttributes | nautobot_ssot_vsphere/diffsync/diffsync_models.py:311-315 | `cluster` is a compared attribute exactly when clusters are in use; status and the primary IPs always are |
| DiffSyncModels.HostAttributes | nautobot_ssot_vsphere/diffsync/diffsync_models.py:407-410 | `cluster` is a compared attribute exactly when clusters are in use; site, role and type always are |
| DiffSyncModels.IpAddressAttributes | nautobot_ssot_vsphere/diffsync/diffsync_models.py:212 | the IP's attributes include `state` and not `status` |
| DiffSyncModels.ClusterGroupChildren | nautobot_ssot_vsphere/diffsync/diffsync_models.py:51-52 | clusters are children of their group exactly when top-level groups are enforced |
| DiffSyncModels.OnlyClusterDependsOnSettings | nautobot_ssot_vsphere/diffsync/diffsync_models.py:311-315 | every attribute other than `cluster` is in both settings' attribute sets or in neither, for machines and hosts |
| DiffSyncModels.IpAddressDiffHasNoStatus | nautobot_ssot_vsphere/diffsync/diffsync_models.py:292-293 | a diff of an IP address never has a truthy `status`, so its update never rewrites the status |
| DiffSyncModels.BucketKeyLetters | nautobot_ssot_vsphere/diffsync/diffsync_models.py:38 | the bucket key is "_" followed by the class name, lower-cased letter by letter |
| DiffSyncModels.DeviceBucket | nautobot_ssot_vsphere/diffsync/diffsync_models.py:36-39 | a Host's Device goes to the "_device" bucket |
| DiffSyncModels.BucketKeySeparatesClasses | nautobot_ssot_vsphere/diffsync/diffsync_models.py:38 | two records share a bucket exactly when they are of the same class |
| DiffSyncModels.RegisteredBuckets | nautobot_ssot_vsphere/diffsync/diffsync_models.py:38-40 | registering appends the record to its own bucket, starting it empty when missing, and leaves every other bucket alone; buckets stay sorted by class |
| DiffSyncModels.Adapter.LogWarning | nautobot_ssot_vsphere/diffsync/diffsync_models.py:67 | a warning is appended to the job log |
| DiffSyncModels.OrderedDelete | nautobot_ssot_vsphere/diffsync/diffsync_models.py:27-41 | the record is appended to its class's bucket, nothing else changes, and the model itself is returned |
| DiffSyncModels.Written | nautobot_ssot_vsphere/diffsync/diffsync_models.py:192-196 | a field changes only under a truthy diff value, and then takes that value |
| DiffSyncModels.ClusterWritesOnlyTruthy | nautobot_ssot_vsphere/diffsync/diffsync_models.py:126-130 | a cluster field changes only under a truthy diff value. The group takes the diff's group; the type takes the default type, not the diff's |
| DiffSyncModels.InterfaceWritesOnlyTruthy | nautobot_ssot_vsphere/diffsync/diffsync_models.py:192-196 | an interface field changes only under a truthy diff value and then takes it, so `enabled=False` is never written; IPs are kept |
| DiffSyncModels.VirtualMachineWritesOnlyTruthy | nautobot_ssot_vsphere/diffsync/diffsync_models.py:369-377 | a machine field changes only under a truthy diff value and then takes it; cluster and primary IPs are kept |
| DiffSyncModels.DeviceWritesOnlyTruthy | nautobot_ssot_vsphere/diffsync/diffsync_models.py:459-467 | a device field changes only under a truthy diff value and then takes it; status and site never change |
| DiffSyncModels.ChosenForStep | nautobot_ssot_vsphere/diffsync/diffsync_models.py:386-391 | visiting one more IP makes it the primary of its family exactly when the diff names its host |
| DiffSyncModels.AssignFromInterface | nautobot_ssot_vsphere/diffsync/diffsync_models.py:385-391 | after one interface's IPs, each family's primary is a visited IP the diff names when there is one, else unchanged; other fields are kept |
| DiffSyncModels.AssignPrimaryIps | nautobot_ssot_vsphere/diffsync/diffsync_models.py:383-391 | for each family, the primary becomes one of the machine's interface IPs whose host the diff names for that family when there is one, else stays; nothing else changes |
| DiffSyncModels.OwnedAreSeen | nautobot_ssot_vsphere/diffsync/diffsync_models.py:384-385 | visiting all of the machine's interfaces visits every IP it owns |
| DiffSyncModels.MissingKey | nautobot_ssot_vsphere/diffsync/diffsync_models.py:349-351 | the first key the diff lacks is reported, and none exactly when all are present |
| DiffSyncModels.MissingSizing | nautobot_ssot_vsphere/diffsync/diffsync_models.py:349-351 | vcpus, memory and disk are all read exactly when all are in the diff |
| DiffSyncModels.AddIp | nautobot_ssot_vsphere/diffsync/diffsync_models.py:234 | after `add`, the interface holds the IP and every IP it had, and nothing else |
| DiffSyncModels.PrimaryRequested | nautobot_ssot_vsphere/diffsync/diffsync_models.py:383 | the primary-IP loop runs exactly when a primary IP is truthy in the diff |
| DiffSyncModels.DiffSyncClusterGroup.constructor | nautobot_ssot_vsphere/diffsync/diffsync_models.py:68 | the in-memory model holds the identifiers and attributes |
| DiffSyncModels.DiffSyncClusterGroup.Create | nautobot_ssot_vsphere/diffsync/diffsync_models.py:57-68 | the group is stored and the store stays valid |
| DiffSyncModels.DiffSyncClusterGroup.Delete | nautobot_ssot_vsphere/diffsync/diffsync_models.py:70-76 | a stored group is registered for deletion and the model returned; otherwise a warning and None |
| DiffSyncModels.DiffSyncCluster.constructor | nautobot_ssot_vsphere/diffsync/diffsync_models.py:112 | the in-memory model holds the identifiers and attributes |
| DiffSyncModels.DiffSyncCluster.Create | nautobot_ssot_vsphere/diffsync/diffsync_models.py:94-112 | the default type is added. The cluster's get_or_create either conflicts (warning, nothing else written) or stores it; then a missing `group` raises KeyError, a truthy group is created and set. The store stays valid |
| DiffSyncModels.DiffSyncCluster.Delete | nautobot_ssot_vsphere/diffsync/diffsync_models.py:114-120 | a stored cluster is registered for deletion and the model returned; otherwise a warning and None |
| DiffSyncModels.DiffSyncCluster.Update | nautobot_ssot_vsphere/diffsync/diffsync_models.py:122-131 | a missing cluster raises with the store unchanged. Otherwise the default type is added, a truthy group created and set, a truthy type reset to the default, and None returned |
| DiffSyncModels.DiffSyncVMInterface.constructor | nautobot_ssot_vsphere/diffsync/diffsync_models.py:164 | the in-memory model holds the identifiers and attributes |
| DiffSyncModels.DiffSyncVMInterface.Create | nautobot_ssot_vsphere/diffsync/diffsync_models.py:149-164 | `enabled`, the machine and `mac_address` are read in order, each raising when missing. A conflicting interface raises UnboundLocalError from the handler; otherwise the interface is stored, and the store stays valid |
| DiffSyncModels.DiffSyncVMInterface.Delete | nautobot_ssot_vsphere/diffsync/diffsync_models.py:166-183 | a missing machine raises. The interface is matched with its MAC exactly when the MAC is valid; a match is registered, a miss warned |
| DiffSyncModels.DiffSyncVMInterface.Update | nautobot_ssot_vsphere/diffsync/diffsync_models.py:185-204 | a missing machine is warned, a missing interface raises. Otherwise the truthy fields are written, the model takes the diff and is returned, and the store stays valid |
| DiffSyncModels.InterfacesGrowByGetOrCreate | nautobot_ssot_vsphere/diffsync/diffsync_models.py:153-158 | a successful get_or_create takes no interface and no IP away |
| DiffSyncModels.DiffSyncIpAddress.constructor | nautobot_ssot_vsphere/diffsync/diffsync_models.py:268 | the in-memory model holds the identifiers and attributes |
| DiffSyncModels.DiffSyncIpAddress.Create | nautobot_ssot_vsphere/diffsync/diffsync_models.py:221-268 | the machine, interface and `state` status lookups raise in that order when missing. A conflicting address raises UnboundLocalError; otherwise the address is stored and added to the interface, and the store stays valid |
| DiffSyncModels.DiffSyncIpAddress.Delete | nautobot_ssot_vsphere/diffsync/diffsync_models.py:270-283 | a stored address is registered for deletion and the model returned; otherwise a warning and None |
| DiffSyncModels.DiffSyncIpAddress.Update | nautobot_ssot_vsphere/diffsync/diffsync_models.py:285-302 | a missing address is warned. A truthy `status` raises from the positional status lookup; otherwise the model takes the diff, and the store is never written |
| DiffSyncModels.DiffSyncVirtualMachine.constructor | nautobot_ssot_vsphere/diffsync/diffsync_models.py:356 | the in-memory model holds the identifiers and attributes |
| DiffSyncModels.DiffSyncVirtualMachine.Create | nautobot_ssot_vsphere/diffsync/diffsync_models.py:328-356 | the status lookup raises when missing. With clusters in use a missing cluster raises; otherwise the default type and cluster are fetched or created, and a conflict is warned. The store stays valid |
| DiffSyncModels.DiffSyncVirtualMachine.InsertMachine | nautobot_ssot_vsphere/diffsync/diffsync_models.py:345-356 | a missing vcpus, memory or disk raises KeyError. A conflicting machine is warned, otherwise stored with no primary IPs; the store stays valid |
| DiffSyncModels.DiffSyncVirtualMachine.Delete | nautobot_ssot_vsphere/diffsync/diffsync_models.py:358-364 | a stored machine is registered for deletion and the model returned; otherwise a warning and None |
| DiffSyncModels.DiffSyncVirtualMachine.Update | nautobot_ssot_vsphere/diffsync/diffsync_models.py:366-398 | a missing machine is warned. A missing status raises; with clusters in use, a different truthy cluster name raises ValueError. Otherwise the truthy fields are written, the primary IPs chosen among its interfaces' IPs when asked for, the model takes the diff, and the store stays valid |
| DiffSyncModels.VirtualMachineUpdateKeepsValid | nautobot_ssot_vsphere/diffsync/diffsync_models.py:366-398 | the machine saved by update keeps referential integrity: its status exists, its cluster is kept and its primaries are its own |
| DiffSyncModels.DiffSyncHost.constructor | nautobot_ssot_vsphere/diffsync/diffsync_models.py:446 | the in-memory model holds the identifiers and attributes |
| DiffSyncModels.DiffSyncHost.Create | nautobot_ssot_vsphere/diffsync/diffsync_models.py:419-446 | the Active status, type, role, cluster and site key raise in order when missing. A missing site is warned with no device written; an ambiguous iexact name raises; otherwise the device is updated or created, and the store stays valid |
| DiffSyncModels.DiffSyncHost.Delete | nautobot_ssot_vsphere/diffsync/diffsync_models.py:448-454 | a stored device is registered at the end of the "_device" bucket; a missing one raises, since the handler catches the wrong exception |
| DiffSyncModels.DiffSyncHost.Update | nautobot_ssot_vsphere/diffsync/diffsync_models.py:456-473 | a missing device raises, and so does a missing truthy type, role or cluster. Otherwise the truthy fields are written, the model takes the diff, and the store stays valid |

## Left out

- `str.lower()` and IGNORECASE are modelled on ASCII letters only; Unicode case folding is not modelled.
- The regular-expression engine is replaced by the literal, anchored alternatives the tables use.
- Two behaviours of the code are modelled as written:
  - In the split rule the second half is not simply everything after the first separator. When the cut is at a hyphen, the first later space also becomes a hyphen (`Names.SplitAtFirstSeparator`).
  - Many lookups raise out of the hooks instead of being logged.
- Slugs are not modelled. A ClusterGroup is identified by its name, so the IntegrityError a clashing slug would raise in `DiffSyncClusterGroup.create` is not modelled.
- Virtual machines are taken as unique by name, which makes the machine `get_or_create` conflict in `DiffSyncVirtualMachine.create` an IntegrityError; Nautobot's own uniqueness is per cluster and tenant.
- IP addresses are taken as unique by host and prefix length, which makes the IP `get_or_create` conflict an IntegrityError. Status restrictions by content type (`get_for_model`) are not modelled.
- `DiffSyncModels.AddIp` models `ip_addresses.add` as adding to the interface's list. Whether Nautobot moves an already-assigned IP away from its previous interface is not modelled.
- `validated_save` validation, database transactions and the text of the log messages are not modelled.
- `tag_object` is taken to save the record it is given; the tagging itself is not modelled.
- `is_valid_mac` is a parameter of `DiffSyncVMInterface.Delete`.
- The order of a machine's interfaces is the database's. `DiffSyncModels.AssignPrimaryIps` picks them in an unspecified order, so which matching IP wins when several match is left open.
- An IP's address family is decided by the presence of a colon in its host.
- The adapter's flush of `objects_to_delete` and its order are not part of this model. The adapter is not modelled beyond its buckets and the job log.
- The primary-IP code that is commented out in `DiffSyncIpAddress.create` is not modelled.
- `update_forward_refs`, DiffSync's diff computation and pydantic's field validation are not modelled. The diff's attribute values are taken as given.
