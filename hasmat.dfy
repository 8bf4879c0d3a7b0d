/**
 * The site/service classifier of utilities/hasmat.py.
 *
 * Each table is a list of one-key dictionaries `{code: [pattern, ...]}`. The
 * parsers walk every dictionary, every item of it and every pattern of the
 * item, and overwrite their working result on each pattern they test, so the
 * LAST matching pattern in that order decides.
 */
module Hasmat {
  import opened Wrappers
  import opened Text
  import opened Patterns
  import opened Names

  /** One `key: [patterns]` item of a dictionary. */
  datatype Item = Item(key: string, patterns: seq<Pattern>)

  /** A dictionary of the table, as its items in insertion order. */
  type Mapping = seq<Item>

  type Table = seq<Mapping>

  /** One (code, pattern) pair, in the order the nested loops visit them. */
  datatype Entry = Entry(key: string, pattern: Pattern)

  /** The only exception the classifier raises: `a, b = [x]` in the split rule. */
  datatype UnpackError = NotEnoughValuesToUnpack

  const SplitKey := "split"

  const OrganizationDcMappings: Table := [
    [Item("GTN", [
      [Alternative(true, "JUPITER", true)],
      [Anywhere("Germantown")],
      [Anywhere("SOUTH AMERICA"), Anywhere("JUPITER 2"), Anywhere("HUGHES NOC"), Anywhere("ENTERPRISE"),
       Anywhere("EM7"), Anywhere("T19 DDNS"), Anywhere("E05-J2WW-GTN"), Anywhere("SBSS"), Anywhere("HUGHES RFT"),
       Anywhere("GSDS"), Anywhere("T19-NMS"), Anywhere("SYSTEM"), Anywhere("FACILITY"), Anywhere("JUP2 RFT"),
       Anywhere("HUGHES EXXONMOBILE"), Anywhere("T19 RFT")],
      [AtStart("GTN")]])],
    [Item("T19", [[AtStart("T19-")]])],
    [Item("GEE", [[AtStart("ROW")]])],
    [Item("DET", [[Anywhere("Detroit")]])],
    [Item("NLV", [[Anywhere("Vegas")]])],
    [Item(SplitKey, SplitPatterns)]
  ]

  /** The patterns of the "split" item, the last dictionary of the organization table. */
  const SplitPatterns: seq<Pattern> :=
    [[AtStart("JUPITER-")], [AtStart("JUP2-")], [AtStart("J1")], [AtStart("J2")], [AtStart("J3")]]

  const DeviceNameDcMappings: Table := [
    [Item("GTN", [[AtStart("GTN"), AtStart("DSS"), AtStart("VMWHN"), Anywhere("ac5"), Anywhere("ac3"),
                   Anywhere("a34"), Anywhere("a36"), Anywhere("ac303"), Anywhere("b12")]])],
    [Item("DET", [[AtStart("DET")]])],
    [Item("GIL", [[Anywhere("GIL")]])],
    [Item("SWA", [[Anywhere("SWA")]])],
    [Item("NLV", [[AtStart("NLV"), AtStart("NVX")]])],
    [Item("BXI", [[AtStart("BXI")]])],
    [Item("SV8", [[Anywhere("SV8")]])],
    [Item("SLC", [[Anywhere("SLC")]])],
    [Item("CHY", [[Anywhere("CHY")]])],
    [Item("CH1", [[Anywhere("CH1")]])],
    [Item("DA1", [[Anywhere("DA1")]])],
    [Item("GIL", [[Anywhere("GIL")]])],
    [Item("SEA", [[Anywhere("SEA")]])]
  ]

  const OrganizationServiceMappings: map<string, string> := map["jupiter" := "j1", "jup2" := "j2"]

  const ServiceMappings: Table := [
    [Item("j1", [[AtStart("J1")]])],
    [Item("j2", [[AtStart("J2")]])],
    [Item("j3", [[AtStart("J3")]])]
  ]

  // ---------------------------------------------------------------------
  // Iteration order of the nested loops

  function PatternEntries(key: string, patterns: seq<Pattern>): (r: seq<Entry>)
    ensures |r| == |patterns|
    ensures forall k :: 0 <= k < |patterns| ==> r[k] == Entry(key, patterns[k])
  {
    seq(|patterns|, k requires 0 <= k < |patterns| => Entry(key, patterns[k]))
  }

  function MappingEntries(m: Mapping): seq<Entry>
  {
    if m == [] then [] else MappingEntries(m[..|m| - 1]) + PatternEntries(m[|m| - 1].key, m[|m| - 1].patterns)
  }

  /** Every (code, pattern) pair of the table, in the order the parsers test them. */
  function Entries(t: Table): seq<Entry>
  {
    if t == [] then [] else Entries(t[..|t| - 1]) + MappingEntries(t[|t| - 1])
  }

  lemma PatternEntriesSnoc(key: string, patterns: seq<Pattern>, k: nat)
    requires k < |patterns|
    ensures PatternEntries(key, patterns[..k + 1]) == PatternEntries(key, patterns[..k]) + [Entry(key, patterns[k])]
  {
  }

  lemma MappingEntriesSnoc(m: Mapping, j: nat)
    requires j < |m|
    ensures MappingEntries(m[..j + 1]) == MappingEntries(m[..j]) + PatternEntries(m[j].key, m[j].patterns)
  {
    assert m[..j + 1][..j] == m[..j];
  }

  lemma EntriesSnoc(t: Table, i: nat)
    requires i < |t|
    ensures Entries(t[..i + 1]) == Entries(t[..i]) + MappingEntries(t[i])
  {
    assert t[..i + 1][..i] == t[..i];
  }

  /** The pattern at position k of item j of dictionary i is one of the table's entries. */
  lemma {:induction false} EntryOfTable(t: Table, i: nat, j: nat, k: nat)
    requires i < |t| && j < |t[i]| && k < |t[i][j].patterns|
    ensures Entry(t[i][j].key, t[i][j].patterns[k]) in Entries(t)
  {
    if i == |t| - 1 {
      EntryOfMapping(t[i], j, k);
    } else {
      assert t[..|t| - 1][i] == t[i];
      EntryOfTable(t[..|t| - 1], i, j, k);
    }
  }

  lemma {:induction false} EntryOfMapping(m: Mapping, j: nat, k: nat)
    requires j < |m| && k < |m[j].patterns|
    ensures Entry(m[j].key, m[j].patterns[k]) in MappingEntries(m)
  {
    if j == |m| - 1 {
      assert PatternEntries(m[j].key, m[j].patterns)[k] == Entry(m[j].key, m[j].patterns[k]);
    } else {
      assert m[..|m| - 1][j] == m[j];
      EntryOfMapping(m[..|m| - 1], j, k);
    }
  }

  // ---------------------------------------------------------------------
  // normalize_service

  /**
   * `normalize_service`: lower-case the name, then apply the service aliases
   * `jupiter -> j1` and `jup2 -> j2`.
   */
  function NormalizeService(service: string): (r: string)
    ensures IsLower(r)
    ensures Lower(service) in OrganizationServiceMappings ==> r == OrganizationServiceMappings[Lower(service)]
    ensures Lower(service) !in OrganizationServiceMappings ==> r == Lower(service)
  {
    var s := Lower(service);
    if s in OrganizationServiceMappings then OrganizationServiceMappings[s] else s
  }

  /** Normalising a normalised service name changes nothing. */
  lemma NormalizeServiceIdempotent(service: string)
    ensures NormalizeService(NormalizeService(service)) == NormalizeService(service)
  {
    var r := NormalizeService(service);
    LowerOfLower(r);
    if Lower(service) in OrganizationServiceMappings {
      assert r == "j1" || r == "j2";
    }
  }

  // ---------------------------------------------------------------------
  // parse_name_for_site

  function SiteStep(site: string, e: Entry, name: string): string
  {
    if Search(e.pattern, name) then e.key else site
  }

  /** The working `site` after the loops have tested the entries `es`, starting from `site`. */
  function SiteAfter(site: string, es: seq<Entry>, name: string): string
  {
    if es == [] then site else SiteStep(SiteAfter(site, es[..|es| - 1], name), es[|es| - 1], name)
  }

  /** What `parse_name_for_site` returns. */
  function SiteFromName(deviceName: string): string
  {
    Lower(SiteAfter("unknown", Entries(DeviceNameDcMappings), deviceName))
  }

  lemma SiteAfterSnoc(site: string, es: seq<Entry>, e: Entry, name: string)
    ensures SiteAfter(site, es + [e], name) == SiteStep(SiteAfter(site, es, name), e, name)
  {
  }

  /** Testing `a` then `b` is testing `a + b`. */
  lemma {:induction false} SiteAfterAppend(site: string, a: seq<Entry>, b: seq<Entry>, name: string)
    ensures SiteAfter(site, a + b, name) == SiteAfter(SiteAfter(site, a, name), b, name)
  {
    if b == [] {
      assert a + b == a;
    } else {
      var b' := b[..|b| - 1];
      assert a + b == (a + b') + [b[|b| - 1]];
      SiteAfterSnoc(site, a + b', b[|b| - 1], name);
      SiteAfterAppend(site, a, b', name);
    }
  }

  /** With no matching entry, the start value survives. */
  lemma {:induction false} SiteAfterNoMatch(site: string, es: seq<Entry>, name: string)
    requires forall i :: 0 <= i < |es| ==> !Search(es[i].pattern, name)
    ensures SiteAfter(site, es, name) == site
  {
    if es != [] {
      var init := es[..|es| - 1];
      assert forall i :: 0 <= i < |init| ==> init[i] == es[i];
      SiteAfterNoMatch(site, init, name);
    }
  }

  /** Last match wins: the code of the last matching entry is the result, whatever came before. */
  lemma {:induction false} SiteAfterLastMatch(site: string, es: seq<Entry>, name: string, i: nat)
    requires i < |es| && Search(es[i].pattern, name)
    requires forall j :: i < j < |es| ==> !Search(es[j].pattern, name)
    ensures SiteAfter(site, es, name) == es[i].key
  {
    if i < |es| - 1 {
      var init := es[..|es| - 1];
      assert forall j :: 0 <= j < |init| ==> init[j] == es[j];
      SiteAfterLastMatch(site, init, name, i);
    }
  }

  /** The result is the start value or the code of one of the entries. */
  lemma {:induction false} SiteAfterRange(site: string, es: seq<Entry>, name: string)
    ensures SiteAfter(site, es, name) == site || exists e :: e in es && SiteAfter(site, es, name) == e.key
  {
    if es != [] {
      SiteAfterRange(site, es[..|es| - 1], name);
      var r := SiteAfter(site, es[..|es| - 1], name);
      if r != site {
        var e :| e in es[..|es| - 1] && r == e.key;
        assert e in es;
      }
    }
  }

  /**
   * The triple loop of `parse_name_for_site` over a table: every matching
   * pattern overwrites `site` with its code.
   */
  method ScanForSite(table: Table, deviceName: string) returns (site: string)
    ensures site == SiteAfter("unknown", Entries(table), deviceName)
  {
    site := "unknown";
    var i := 0;
    while i < |table|
      invariant 0 <= i <= |table|
      invariant site == SiteAfter("unknown", Entries(table[..i]), deviceName)
    {
      var mapping := table[i];
      ghost var beforeMapping := site;
      var j := 0;
      while j < |mapping|
        invariant 0 <= j <= |mapping|
        invariant site == SiteAfter(beforeMapping, MappingEntries(mapping[..j]), deviceName)
      {
        var key, patterns := mapping[j].key, mapping[j].patterns;
        ghost var beforeItem := site;
        var k := 0;
        while k < |patterns|
          invariant 0 <= k <= |patterns|
          invariant site == SiteAfter(beforeItem, PatternEntries(key, patterns[..k]), deviceName)
        {
          if Search(patterns[k], deviceName) {
            site := key;
          }
          PatternEntriesSnoc(key, patterns, k);
          SiteAfterSnoc(beforeItem, PatternEntries(key, patterns[..k]), Entry(key, patterns[k]), deviceName);
          k := k + 1;
        }
        assert patterns[..k] == patterns;
        MappingEntriesSnoc(mapping, j);
        SiteAfterAppend(beforeMapping, MappingEntries(mapping[..j]), PatternEntries(key, patterns), deviceName);
        j := j + 1;
      }
      assert mapping[..j] == mapping;
      EntriesSnoc(table, i);
      SiteAfterAppend("unknown", Entries(table[..i]), MappingEntries(mapping), deviceName);
      i := i + 1;
    }
    assert table[..i] == table;
  }

  /** `parse_name_for_site`: the lower-cased code of the last matching pattern, or "unknown". */
  method ParseNameForSite(deviceName: string) returns (site: string)
    ensures site == SiteFromName(deviceName)
    ensures site == "unknown" || exists e :: e in Entries(DeviceNameDcMappings) && site == Lower(e.key)
  {
    site := ScanForSite(DeviceNameDcMappings, deviceName);
    SiteAfterRange("unknown", Entries(DeviceNameDcMappings), deviceName);
    LowerOfLower("unknown");
    site := Lower(site);
  }

  // ---------------------------------------------------------------------
  // parse_name_for_service

  /** One pattern test: the code on a match, "hns" otherwise. */
  function ServiceStep(e: Entry, name: string): string
  {
    if Search(e.pattern, name) then e.key else "hns"
  }

  /** The working `service` after testing `es`: every test overwrites it, so only the last counts. */
  function ServiceAfter(service: string, es: seq<Entry>, name: string): string
  {
    if es == [] then service else ServiceStep(es[|es| - 1], name)
  }

  /** What `parse_name_for_service` returns. */
  function ServiceFromName(deviceName: string): string
  {
    ServiceAfter("unknown", Entries(ServiceMappings), deviceName)
  }

  /** The last entry of the service table is `j3: ^J3`. */
  lemma ServiceEntries()
    ensures Entries(ServiceMappings) == [Entry("j1", [AtStart("J1")]), Entry("j2", [AtStart("J2")]), Entry("j3", [AtStart("J3")])]
  {
    var t := ServiceMappings;
    assert t[..0] == [];
    EntriesSnoc(t, 0);
    EntriesSnoc(t, 1);
    EntriesSnoc(t, 2);
    assert t[..3] == t;
    forall i | 0 <= i < 3
      ensures MappingEntries(t[i]) == [Entry(t[i][0].key, t[i][0].patterns[0])]
    {
      assert t[i][..0] == [];
      MappingEntriesSnoc(t[i], 0);
      assert t[i][..1] == t[i];
    }
  }

  /**
   * Only the `^J3` test decides: the name parse yields "j3" exactly when the
   * name starts with J3 (any case), and "hns" otherwise; never "j1", "j2" or "unknown".
   */
  lemma ServiceFromNameIsJ3Test(deviceName: string)
    ensures ServiceFromName(deviceName) == (if StartsWithIgnoreCase(deviceName, "J3") then "j3" else "hns")
    ensures ServiceFromName(deviceName) !in {"j1", "j2", "unknown"}
  {
    ServiceEntries();
    AtStartMatches("J3", deviceName);
  }

  lemma ServiceAfterAppend(service: string, a: seq<Entry>, b: seq<Entry>, name: string)
    ensures ServiceAfter(service, a + b, name) == ServiceAfter(ServiceAfter(service, a, name), b, name)
  {
  }

  /**
   * The triple loop of `parse_name_for_service` over a table: every pattern
   * tested overwrites `service`, with the code on a match and "hns" otherwise.
   */
  method ScanForService(table: Table, deviceName: string) returns (service: string)
    ensures service == ServiceAfter("unknown", Entries(table), deviceName)
  {
    service := "unknown";
    var i := 0;
    while i < |table|
      invariant 0 <= i <= |table|
      invariant service == ServiceAfter("unknown", Entries(table[..i]), deviceName)
    {
      var mapping := table[i];
      ghost var beforeMapping := service;
      var j := 0;
      while j < |mapping|
        invariant 0 <= j <= |mapping|
        invariant service == ServiceAfter(beforeMapping, MappingEntries(mapping[..j]), deviceName)
      {
        var key, patterns := mapping[j].key, mapping[j].patterns;
        ghost var beforeItem := service;
        var k := 0;
        while k < |patterns|
          invariant 0 <= k <= |patterns|
          invariant service == ServiceAfter(beforeItem, PatternEntries(key, patterns[..k]), deviceName)
        {
          if Search(patterns[k], deviceName) {
            service := key;
          } else {
            service := "hns";
          }
          PatternEntriesSnoc(key, patterns, k);
          k := k + 1;
        }
        assert patterns[..k] == patterns;
        MappingEntriesSnoc(mapping, j);
        ServiceAfterAppend(beforeMapping, MappingEntries(mapping[..j]), PatternEntries(key, patterns), deviceName);
        j := j + 1;
      }
      assert mapping[..j] == mapping;
      EntriesSnoc(table, i);
      ServiceAfterAppend("unknown", Entries(table[..i]), MappingEntries(mapping), deviceName);
      i := i + 1;
    }
    assert table[..i] == table;
  }

  /** `parse_name_for_service`: "j3" when the name starts with J3 (any case), else "hns". */
  method ParseNameForService(deviceName: string) returns (service: string)
    ensures service == ServiceFromName(deviceName)
    ensures service == (if StartsWithIgnoreCase(deviceName, "J3") then "j3" else "hns")
  {
    service := ScanForService(ServiceMappings, deviceName);
    ServiceFromNameIsJ3Test(deviceName);
  }

  // ---------------------------------------------------------------------
  // parse_organization_for_site_service

  /** The working (service, site) of the organization loop, or the unpacking failure that ends it. */
  datatype OrgState = Reading(service: string, site: string) | UnpackFailed

  function OrgStep(st: OrgState, e: Entry, organization: string): OrgState
  {
    if st.UnpackFailed? || !Search(e.pattern, organization) then st
    else if e.key == SplitKey then
      match SplitOrganization(organization)
      case None => UnpackFailed
      case Some(parts) => Reading(parts.0, parts.1)
    else Reading(st.service, e.key)
  }

  /** The state after the loops have tested the entries `es`. */
  function OrgAfter(st: OrgState, es: seq<Entry>, organization: string): OrgState
  {
    if es == [] then st else OrgStep(OrgAfter(st, es[..|es| - 1], organization), es[|es| - 1], organization)
  }

  /** The service the loop starts from: "fsn" for exactly "Fusion", else "unknown". */
  function InitialService(organization: string): string
  {
    if organization == "Fusion" then "fsn" else "unknown"
  }

  /** What `parse_organization_for_site_service` returns, or the error it raises. */
  function OrganizationReading(organization: string): Result<(string, string), UnpackError>
  {
    match OrgAfter(Reading(InitialService(organization), "unknown"), Entries(OrganizationDcMappings), organization)
    case UnpackFailed => Err(NotEnoughValuesToUnpack)
    case Reading(service, site) => Ok((NormalizeService(service), Lower(site)))
  }

  lemma OrgAfterSnoc(st: OrgState, es: seq<Entry>, e: Entry, organization: string)
    ensures OrgAfter(st, es + [e], organization) == OrgStep(OrgAfter(st, es, organization), e, organization)
  {
  }

  lemma {:induction false} OrgAfterAppend(st: OrgState, a: seq<Entry>, b: seq<Entry>, organization: string)
    ensures OrgAfter(st, a + b, organization) == OrgAfter(OrgAfter(st, a, organization), b, organization)
  {
    if b == [] {
      assert a + b == a;
    } else {
      var b' := b[..|b| - 1];
      assert a + b == (a + b') + [b[|b| - 1]];
      OrgAfterSnoc(st, a + b', b[|b| - 1], organization);
      OrgAfterAppend(st, a, b', organization);
    }
  }

  /**
   * The loop fails exactly when it started failed, or some matching entry is
   * a split entry and the organization cannot be split in two.
   */
  lemma {:induction false} OrgAfterFails(st: OrgState, es: seq<Entry>, organization: string)
    ensures OrgAfter(st, es, organization).UnpackFailed? <==>
      st.UnpackFailed? ||
      (SplitOrganization(organization).None? &&
       exists e :: e in es && e.key == SplitKey && Search(e.pattern, organization))
  {
    if es != [] {
      var init := es[..|es| - 1];
      var last := es[|es| - 1];
      OrgAfterFails(st, init, organization);
      assert es == init + [last];
      if SplitOrganization(organization).None? && last.key == SplitKey && Search(last.pattern, organization) {
        assert last in es;
      }
      if e :| e in es && e.key == SplitKey && Search(e.pattern, organization) {
        if e != last {
          assert e in init;
        }
      }
    }
  }

  /** With no matching entry, the state survives. */
  lemma {:induction false} OrgAfterNoMatch(st: OrgState, es: seq<Entry>, organization: string)
    requires forall e :: e in es ==> !Search(e.pattern, organization)
    ensures OrgAfter(st, es, organization) == st
  {
    if es != [] {
      assert forall e :: e in es[..|es| - 1] ==> e in es;
      OrgAfterNoMatch(st, es[..|es| - 1], organization);
    }
  }

  /** What a matching split entry leaves: the two halves, or the unpacking failure. */
  function SplitState(organization: string): OrgState
  {
    match SplitOrganization(organization)
    case None => UnpackFailed
    case Some(parts) => Reading(parts.0, parts.1)
  }

  /**
   * A block of split entries of which one matches overwrites whatever the
   * earlier entries left: the result is the split, or the failure.
   */
  lemma {:induction false} OrgAfterSplitBlock(st: OrgState, b: seq<Entry>, organization: string)
    requires st.Reading? || SplitOrganization(organization).None?
    requires forall e :: e in b ==> e.key == SplitKey
    requires exists e :: e in b && Search(e.pattern, organization)
    ensures OrgAfter(st, b, organization) == SplitState(organization)
  {
    var init := b[..|b| - 1];
    var last := b[|b| - 1];
    assert b == init + [last];
    if Search(last.pattern, organization) {
      OrgAfterFails(st, init, organization);
    } else {
      var e :| e in b && Search(e.pattern, organization);
      assert e in init;
      assert forall x :: x in init ==> x in b;
      OrgAfterSplitBlock(st, init, organization);
    }
  }

  /** The organization matches one of the patterns of the split rule. */
  predicate SplitRuleApplies(organization: string)
  {
    exists p :: p in SplitPatterns && Search(p, organization)
  }

  /** The organization table ends with the split dictionary. */
  lemma OrganizationEntriesEndWithSplit()
    ensures Entries(OrganizationDcMappings) ==
            Entries(OrganizationDcMappings[..5]) + PatternEntries(SplitKey, SplitPatterns)
  {
  }

  /**
   * The split rule wins: when a split pattern matches, earlier site matches do
   * not matter and the result is the normalised text before the first space or
   * hyphen with the lower-cased rest, or the unpacking error.
   */
  lemma SplitRuleWins(organization: string)
    requires SplitRuleApplies(organization)
    ensures OrganizationReading(organization) ==
      match SplitOrganization(organization)
      case None => Err(NotEnoughValuesToUnpack)
      case Some(parts) => Ok((NormalizeService(parts.0), Lower(parts.1)))
  {
    OrganizationEntriesEndWithSplit();
    var st0 := Reading(InitialService(organization), "unknown");
    var a := Entries(OrganizationDcMappings[..5]);
    var b := PatternEntries(SplitKey, SplitPatterns);
    OrgAfterAppend(st0, a, b, organization);
    OrgAfterFails(st0, a, organization);
    var p :| p in SplitPatterns && Search(p, organization);
    var k :| 0 <= k < |SplitPatterns| && SplitPatterns[k] == p;
    assert b[k] in b;
    OrgAfterSplitBlock(OrgAfter(st0, a, organization), b, organization);
  }

  /** With no pattern matching, the service is the normalised start value and the site "unknown". */
  lemma NoPatternMatches(organization: string)
    requires forall e :: e in Entries(OrganizationDcMappings) ==> !Search(e.pattern, organization)
    ensures OrganizationReading(organization) == Ok((if organization == "Fusion" then "fsn" else "unknown", "unknown"))
  {
    OrgAfterNoMatch(Reading(InitialService(organization), "unknown"), Entries(OrganizationDcMappings), organization);
    NormalizeStartServices();
  }

  /** The two start values of the organization loop are already normal. */
  lemma NormalizeStartServices()
    ensures NormalizeService("unknown") == "unknown" && NormalizeService("fsn") == "fsn"
    ensures Lower("unknown") == "unknown"
  {
  }

  /**
   * The triple loop of `parse_organization_for_site_service` over a table: a
   * matching split pattern replaces both names by the halves of the
   * organization (the unpacking raises when there is only one), any other
   * matching pattern sets the site to its code.
   */
  method ScanForOrganization(table: Table, organization: string, service0: string)
    returns (r: Result<(string, string), UnpackError>)
    ensures r.Err? <==> OrgAfter(Reading(service0, "unknown"), Entries(table), organization).UnpackFailed?
    ensures r.Ok? ==> OrgAfter(Reading(service0, "unknown"), Entries(table), organization) == Reading(r.value.0, r.value.1)
  {
    ghost var st0 := Reading(service0, "unknown");
    var service, site := service0, "unknown";
    var i := 0;
    while i < |table|
      invariant 0 <= i <= |table|
      invariant OrgAfter(st0, Entries(table[..i]), organization) == Reading(service, site)
    {
      var mapping := table[i];
      ghost var beforeMapping := Reading(service, site);
      var j := 0;
      while j < |mapping|
        invariant 0 <= j <= |mapping|
        invariant OrgAfter(beforeMapping, MappingEntries(mapping[..j]), organization) == Reading(service, site)
      {
        var key, patterns := mapping[j].key, mapping[j].patterns;
        ghost var beforeItem := Reading(service, site);
        var k := 0;
        while k < |patterns|
          invariant 0 <= k <= |patterns|
          invariant OrgAfter(beforeItem, PatternEntries(key, patterns[..k]), organization) == Reading(service, site)
        {
          PatternEntriesSnoc(key, patterns, k);
          OrgAfterSnoc(beforeItem, PatternEntries(key, patterns[..k]), Entry(key, patterns[k]), organization);
          if Search(patterns[k], organization) {
            if key == SplitKey {
              var parts := SplitOnce(ReplaceFirst(organization, ' ', '-'), '-');
              if |parts| != 2 {
                EntryOfTable(table, i, j, k);
                OrgAfterFails(st0, Entries(table), organization);
                return Err(NotEnoughValuesToUnpack);
              }
              service, site := parts[0], parts[1];
            } else {
              site := key;
            }
          }
          k := k + 1;
        }
        assert patterns[..k] == patterns;
        MappingEntriesSnoc(mapping, j);
        OrgAfterAppend(beforeMapping, MappingEntries(mapping[..j]), PatternEntries(key, patterns), organization);
        j := j + 1;
      }
      assert mapping[..j] == mapping;
      EntriesSnoc(table, i);
      OrgAfterAppend(st0, Entries(table[..i]), MappingEntries(mapping), organization);
      i := i + 1;
    }
    assert table[..i] == table;
    return Ok((service, site));
  }

  /**
   * `parse_organization_for_site_service`: the (service, site) the
   * organization names, the site lower-cased, or the unpacking error.
   */
  method ParseOrganizationForSiteService(organization: string) returns (r: Result<(string, string), UnpackError>)
    ensures r == OrganizationReading(organization)
    ensures r.Ok? ==> IsLower(r.value.0) && IsLower(r.value.1)
  {
    var service := "unknown";
    if organization == "Fusion" {
      service := "fsn";
    }
    assert service == InitialService(organization);
    var scanned := ScanForOrganization(OrganizationDcMappings, organization, service);
    match scanned
    case Err(_) =>
      return Err(NotEnoughValuesToUnpack);
    case Ok(parts) =>
      return Ok((NormalizeService(parts.0), Lower(parts.1)));
  }

  /** A split rule that matches an organization without space or hyphen raises the unpacking error. */
  lemma SplitWithoutSeparatorFails(organization: string)
    requires SplitRuleApplies(organization)
    requires forall i :: 0 <= i < |organization| ==> !IsSeparator(organization[i])
    ensures OrganizationReading(organization) == Err(NotEnoughValuesToUnpack)
  {
    SplitAtFirstSeparator(organization);
    SplitRuleWins(organization);
  }

  /** The split rule applies exactly to the names starting with JUPITER-, JUP2-, J1, J2 or J3 (any case). */
  lemma SplitRuleAppliesToPrefixes(organization: string)
    ensures SplitRuleApplies(organization) <==>
      StartsWithIgnoreCase(organization, "JUPITER-") || StartsWithIgnoreCase(organization, "JUP2-") ||
      StartsWithIgnoreCase(organization, "J1") || StartsWithIgnoreCase(organization, "J2") ||
      StartsWithIgnoreCase(organization, "J3")
  {
    AtStartMatches("JUPITER-", organization);
    AtStartMatches("JUP2-", organization);
    AtStartMatches("J1", organization);
    AtStartMatches("J2", organization);
    AtStartMatches("J3", organization);
    assert SplitPatterns[0] == [AtStart("JUPITER-")];
    assert SplitPatterns[4] == [AtStart("J3")];
  }

  /** "JUPITER-GTN" matches the split rule `^JUPITER-` and reads as ("j1", "gtn"). */
  lemma JupiterGtnExample()
    ensures OrganizationReading("JUPITER-GTN") == Ok(("j1", "gtn"))
  {
    JupiterGtnFacts();
    SplitRuleAppliesToPrefixes("JUPITER-GTN");
    SplitRuleWins("JUPITER-GTN");
    SplitAtFirstSeparator("JUPITER-GTN");
  }

  lemma {:induction false} JupiterGtnFacts()
    ensures StartsWithIgnoreCase("JUPITER-GTN", "JUPITER-")
    ensures FirstSeparator("JUPITER-GTN") == 7
    ensures HalvesAt("JUPITER-GTN", 7) == ("JUPITER", "GTN")
    ensures NormalizeService("JUPITER") == "j1" && Lower("GTN") == "gtn"
  {
    var org := "JUPITER-GTN";
    assert org[..8] == "JUPITER-";
    FirstSeparatorIs(org, 7);
    JupiterGtnHalves();
    LowerJupiter();
    LowerGtn();
  }

  lemma {:induction false} JupiterGtnHalves()
    ensures HalvesAt("JUPITER-GTN", 7) == ("JUPITER", "GTN")
  {
    var org := "JUPITER-GTN";
    assert org[7] == '-';
    assert org[..7] == "JUPITER" && org[8..] == "GTN";
    FirstIndexIs("GTN", ' ', 3);
  }

  lemma {:induction false} LowerJupiter()
    ensures Lower("JUPITER") == "jupiter"
  {
  }

  lemma {:induction false} LowerGtn()
    ensures Lower("GTN") == "gtn"
  {
  }

  /** "J1" matches `^J1` but has nothing to split at: the unpacking raises. */
  lemma J1Fails()
    ensures OrganizationReading("J1") == Err(NotEnoughValuesToUnpack)
  {
    SplitRuleAppliesToPrefixes("J1");
    assert "J1"[..2] == "J1";
    SplitWithoutSeparatorFails("J1");
  }

  // ---------------------------------------------------------------------
  // get_site_and_service

  /**
   * `get_site_and_service`: the organization's reading, with the device
   * name consulted only for the part the organization left "unknown", and the
   * site cut at its first space or hyphen.
   */
  method GetSiteAndService(organization: string, deviceName: string)
    returns (r: Result<(string, string), UnpackError>)
    ensures r.Err? <==> OrganizationReading(organization).Err?
    ensures r.Ok? ==>
      var orgService := OrganizationReading(organization).value.0;
      var orgSite := OrganizationReading(organization).value.1;
      r.value.0 == (if orgService == "unknown" then ServiceFromName(deviceName) else orgService) &&
      r.value.1 == SiteToken(if orgSite == "unknown" then SiteFromName(deviceName) else orgSite)
    ensures r.Ok? ==> r.value.0 != "unknown"
    ensures r.Ok? ==> forall i :: 0 <= i < |r.value.1| ==> !IsSeparator(r.value.1[i])
  {
    var parsed := ParseOrganizationForSiteService(organization);
    if parsed.Err? {
      return Err(parsed.error);
    }
    var service, site := parsed.value.0, parsed.value.1;
    if service == "unknown" && site == "unknown" {
      service := ParseNameForService(deviceName);
      site := ParseNameForSite(deviceName);
    } else if service == "unknown" {
      service := ParseNameForService(deviceName);
    } else if site == "unknown" {
      site := ParseNameForSite(deviceName);
    }
    SiteTokenIsPrefix(site);
    site := FirstField(ReplaceAll(site, '-', ' '), ' ');
    return Ok((service, site));
  }
}
