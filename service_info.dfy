/**
 * The zone-information service: a fixed table of zone records, a total lookup
 * into it, and the response envelopes its three HTTP handlers build. The HTTP
 * layer is abstracted away: a handler takes its path or query input as a plain
 * value and returns the value it would hand to the renderer, or `None` when it
 * renders nothing.
 */
module ServiceInfo {
  import opened Wrappers
  import opened GoStrings

  /** DNS-facing metadata of one zone. */
  datatype CfZoneInfo = CfZoneInfo(
    cfZoneIPs: seq<string>,
    cfZoneCName: string,
    cfZoneRootDomain: string,
    cfZoneID: string)

  /** The two sub-zones of the GES group; a `None` slot is a nil pointer. */
  datatype ServiceInfoWrapper = ServiceInfoWrapper(
    gesProxy: Option<CfZoneInfo>,
    gesWaf: Option<CfZoneInfo>)

  /** The envelope returned by the zone endpoints; a `None` slot is omitted. */
  datatype ServiceInfoResponse = ServiceInfoResponse(
    anInfo: Option<CfZoneInfo>,
    atlasInfo: Option<CfZoneInfo>,
    gesANInfo: Option<ServiceInfoWrapper>)

  /** The envelope returned by the array-echo endpoint. */
  datatype CommaSeparatedRes = CommaSeparatedRes(value: string)

  type ZoneTable = map<string, CfZoneInfo>

  /** Go's zero value of `CfZoneInfo`: what indexing a map at a missing key yields. */
  const ZeroZoneInfo := CfZoneInfo([], "", "", "")

  /** The separator of IP lists and of the echoed query values. */
  const Comma := ','

  /** The group names a zone request may name, after upper-casing. */
  const ZoneGroups: set<string> := {"GES", "AN", "ATLAS"}

  // The records the table is expected to hold, written out literally.
  const AnRecord := CfZoneInfo(["1.1.1.1", "2.2.2.2"], "wp", "wpenginepowered.com", "11111")
  const AtlasRecord := CfZoneInfo(["3.3.3.3", "4.4.4.4"], "js.wp", "wpenginepowered.com", "22222")
  const GesWafRecord := CfZoneInfo([], "", "wpewaf.com", "33333")
  const GesProxyRecord := CfZoneInfo([], "", "wpeproxy.com", "44444")

  /**
   * Normalises a split IP list: a list that is empty or starts with the empty
   * string becomes the empty list, any other list is kept as it is.
   */
  function CreateStringArray(config: seq<string>): (r: seq<string>)
    ensures r == [] <==> (config == [] || config[0] == "")
    ensures r != [] ==> r == config
    ensures r == [] || r[0] != ""
  {
    if |config| == 0 || config[0] == "" then [] else config
  }

  /** Normalising a normalised list changes nothing. */
  lemma CreateStringArrayIdempotent(config: seq<string>)
    ensures CreateStringArray(CreateStringArray(config)) == CreateStringArray(config)
  {
  }

  /**
   * The normaliser undoes the comma-joining of an IP list whose entries are
   * non-empty and comma-free, including the empty list: splitting "" yields
   * [""], which it turns back into [].
   */
  lemma IPListRoundTrip(ips: seq<string>)
    requires forall i :: 0 <= i < |ips| ==> ips[i] != "" && Comma !in ips[i]
    ensures CreateStringArray(Split(Join(ips, Comma), Comma)) == ips
  {
    if ips == [] {
      assert Split("", Comma) == [""];
    } else {
      SplitJoin(ips, Comma);
    }
  }

  /** `createStringArray(strings.Split(csv, ","))`: the IP list of a table entry. */
  function ParseIPs(csv: string): (ips: seq<string>)
    ensures ips == [] || ips[0] != ""
  {
    CreateStringArray(Split(csv, Comma))
  }

  /** Parsing the comma-joined form of a clean IP list gives the list back. */
  lemma ParseJoinedIPs(ips: seq<string>)
    requires forall i :: 0 <= i < |ips| ==> ips[i] != "" && Comma !in ips[i]
    ensures ParseIPs(Join(ips, Comma)) == ips
  {
    IPListRoundTrip(ips);
  }

  /** The IP list written for AN, parsed. */
  lemma AnIPList()
    ensures ParseIPs("1.1.1.1,2.2.2.2") == ["1.1.1.1", "2.2.2.2"]
  {
    ParseJoinedIPs(["1.1.1.1", "2.2.2.2"]);
    assert Join(["1.1.1.1", "2.2.2.2"], Comma) == "1.1.1.1,2.2.2.2";
  }

  /** The IP list written for ATLAS, parsed. */
  lemma AtlasIPList()
    ensures ParseIPs("3.3.3.3,4.4.4.4") == ["3.3.3.3", "4.4.4.4"]
  {
    ParseJoinedIPs(["3.3.3.3", "4.4.4.4"]);
    assert Join(["3.3.3.3", "4.4.4.4"], Comma) == "3.3.3.3,4.4.4.4";
  }

  /** The zone table: exactly four keys. */
  function CreateZoneInfo(): (m: ZoneTable)
    ensures m.Keys == {"AN", "ATLAS", "GES_WAF", "GES_PROXY"}
  {
    map[
      "AN" := CfZoneInfo(ParseIPs("1.1.1.1,2.2.2.2"), "wp", "wpenginepowered.com", "11111"),
      "ATLAS" := CfZoneInfo(ParseIPs("3.3.3.3,4.4.4.4"), "js.wp", "wpenginepowered.com", "22222"),
      "GES_WAF" := CfZoneInfo(ParseIPs(""), "", "wpewaf.com", "33333"),
      "GES_PROXY" := CfZoneInfo(ParseIPs(""), "", "wpeproxy.com", "44444")
    ]
  }

  /**
   * Every entry of the table: AN and ATLAS carry two IP addresses each, the two
   * GES sub-zones an empty IP list and an empty CNAME.
   */
  lemma ZoneTableContents()
    ensures CreateZoneInfo()["AN"] == AnRecord
    ensures CreateZoneInfo()["ATLAS"] == AtlasRecord
    ensures CreateZoneInfo()["GES_WAF"] == GesWafRecord
    ensures CreateZoneInfo()["GES_PROXY"] == GesProxyRecord
  {
    AnIPList();
    AtlasIPList();
  }

  /** Go's `m[k]`: the stored value, or the zero record at a missing key. */
  function MapIndex(zoneInfo: ZoneTable, zoneName: string): CfZoneInfo
  {
    if zoneName in zoneInfo then zoneInfo[zoneName] else ZeroZoneInfo
  }

  /**
   * A field-by-field copy of the record stored under `zoneName`. The lookup is
   * total: a missing key gives the all-empty record.
   */
  function GetZoneInfo(zoneInfo: ZoneTable, zoneName: string): (r: CfZoneInfo)
    ensures zoneName in zoneInfo ==> r == zoneInfo[zoneName]
    ensures zoneName !in zoneInfo ==> r.cfZoneIPs == [] && r.cfZoneCName == ""
                                      && r.cfZoneRootDomain == "" && r.cfZoneID == ""
  {
    CfZoneInfo(
      MapIndex(zoneInfo, zoneName).cfZoneIPs,
      MapIndex(zoneInfo, zoneName).cfZoneCName,
      MapIndex(zoneInfo, zoneName).cfZoneRootDomain,
      MapIndex(zoneInfo, zoneName).cfZoneID)
  }

  /** Looking up each of the four keys of the service's table gives its record. */
  lemma LookupInZoneTable()
    ensures GetZoneInfo(CreateZoneInfo(), "AN") == AnRecord
    ensures GetZoneInfo(CreateZoneInfo(), "ATLAS") == AtlasRecord
    ensures GetZoneInfo(CreateZoneInfo(), "GES_WAF") == GesWafRecord
    ensures GetZoneInfo(CreateZoneInfo(), "GES_PROXY") == GesProxyRecord
  {
    ZoneTableContents();
  }

  /** In a table holding exactly the four keys, any other name misses. */
  lemma MissOutsideKeys(zoneInfo: ZoneTable, zoneName: string)
    requires zoneInfo.Keys == {"AN", "ATLAS", "GES_WAF", "GES_PROXY"}
    requires zoneName !in {"AN", "ATLAS", "GES_WAF", "GES_PROXY"}
    ensures GetZoneInfo(zoneInfo, zoneName) == ZeroZoneInfo
  {
  }

  /** Looking up any other name in the service's table gives the zero record, never a failure. */
  lemma LookupOutsideZoneTable(zoneName: string)
    requires zoneName !in {"AN", "ATLAS", "GES_WAF", "GES_PROXY"}
    ensures GetZoneInfo(CreateZoneInfo(), zoneName) == ZeroZoneInfo
  {
    MissOutsideKeys(CreateZoneInfo(), zoneName);
  }

  /** The AN slot: the record stored under "AN", or the zero record. */
  function GetANServiceInfo(zoneInfo: ZoneTable): (r: CfZoneInfo)
    ensures "AN" in zoneInfo ==> r == zoneInfo["AN"]
    ensures "AN" !in zoneInfo ==> r == ZeroZoneInfo
  {
    GetZoneInfo(zoneInfo, "AN")
  }

  /** The ATLAS slot: the record stored under "ATLAS", or the zero record. */
  function GetAtlasServiceInfo(zoneInfo: ZoneTable): (r: CfZoneInfo)
    ensures "ATLAS" in zoneInfo ==> r == zoneInfo["ATLAS"]
    ensures "ATLAS" !in zoneInfo ==> r == ZeroZoneInfo
  {
    GetZoneInfo(zoneInfo, "ATLAS")
  }

  /** The GES wrapper: both sub-zone slots present, holding the GES_PROXY and GES_WAF records. */
  function GetGESServiceInfo(zoneInfo: ZoneTable): (r: ServiceInfoWrapper)
    ensures r.gesProxy.Some? && r.gesWaf.Some?
    ensures r.gesProxy.value == (if "GES_PROXY" in zoneInfo then zoneInfo["GES_PROXY"] else ZeroZoneInfo)
    ensures r.gesWaf.value == (if "GES_WAF" in zoneInfo then zoneInfo["GES_WAF"] else ZeroZoneInfo)
  {
    ServiceInfoWrapper(
      Some(GetZoneInfo(zoneInfo, "GES_PROXY")),
      Some(GetZoneInfo(zoneInfo, "GES_WAF")))
  }

  /** The GES group as the service answers it. */
  const GesWrapper := ServiceInfoWrapper(Some(GesProxyRecord), Some(GesWafRecord))

  /** Exactly one of the three slots of `res` is populated. */
  predicate OneSlot(res: ServiceInfoResponse)
  {
    (if res.anInfo.Some? then 1 else 0)
      + (if res.atlasInfo.Some? then 1 else 0)
      + (if res.gesANInfo.Some? then 1 else 0) == 1
  }

  /**
   * `GET /service_info/{zone_name}`: the name is upper-cased and matched
   * against the three group names; a match fills that group's slot only, any
   * other name renders nothing.
   */
  function GetZoneServiceInfo(zoneName: string): (r: Option<ServiceInfoResponse>)
    ensures ToUpper(zoneName) !in ZoneGroups ==> r == None
    ensures r.Some? ==> OneSlot(r.value)
    ensures ToUpper(zoneName) == "GES" ==> r == Some(ServiceInfoResponse(None, None, Some(GesWrapper)))
    ensures ToUpper(zoneName) == "AN" ==> r == Some(ServiceInfoResponse(Some(AnRecord), None, None))
    ensures ToUpper(zoneName) == "ATLAS" ==> r == Some(ServiceInfoResponse(None, Some(AtlasRecord), None))
  {
    ZoneTableContents();
    var zoneInfo := CreateZoneInfo();
    var name := ToUpper(zoneName);
    if name == "GES" then
      Some(ServiceInfoResponse(None, None, Some(GetGESServiceInfo(zoneInfo))))
    else if name == "AN" then
      Some(ServiceInfoResponse(Some(GetANServiceInfo(zoneInfo)), None, None))
    else if name == "ATLAS" then
      Some(ServiceInfoResponse(None, Some(GetAtlasServiceInfo(zoneInfo)), None))
    else
      None
  }

  /** `GET /service_info/`: all three slots, GES nesting both sub-zones. */
  function GetAllServiceInfo(): (r: ServiceInfoResponse)
    ensures r.anInfo == Some(AnRecord)
    ensures r.atlasInfo == Some(AtlasRecord)
    ensures r.gesANInfo == Some(GesWrapper)
  {
    ZoneTableContents();
    var zoneInfo := CreateZoneInfo();
    ServiceInfoResponse(
      Some(GetANServiceInfo(zoneInfo)),
      Some(GetAtlasServiceInfo(zoneInfo)),
      Some(GetGESServiceInfo(zoneInfo)))
  }

  /** `GET /array_test`: the `status` values joined with commas. */
  function GetArrayTest(status: seq<string>): (r: CommaSeparatedRes)
    ensures status == [] ==> r.value == ""
    ensures |status| == 1 ==> r.value == status[0]
    ensures |status| >= 1 ==> Split(r.value, Comma) == SplitAll(status, Comma)
  {
    JoinSplitsInto(status, Comma);
    CommaSeparatedRes(Join(status, Comma))
  }

  /**
   * Echoing comma-free values: the joined value splits back into exactly the
   * values that were given.
   */
  lemma GetArrayTestRoundTrip(status: seq<string>)
    requires |status| >= 1
    requires forall i :: 0 <= i < |status| ==> Comma !in status[i]
    ensures Split(GetArrayTest(status).value, Comma) == status
  {
    SplitJoin(status, Comma);
  }

  /** Names with the same upper-case form get the same answer. */
  lemma DispatchCaseInsensitive(a: string, b: string)
    requires |a| == |b|
    requires forall i :: 0 <= i < |a| ==> UpperAscii(a[i]) == UpperAscii(b[i])
    ensures GetZoneServiceInfo(a) == GetZoneServiceInfo(b)
  {
    assert ToUpper(a) == ToUpper(b);
  }

  /** Upper-casing a name before sending it does not change the answer. */
  lemma DispatchOnUpperCase(zoneName: string)
    ensures GetZoneServiceInfo(ToUpper(zoneName)) == GetZoneServiceInfo(zoneName)
  {
    ToUpperIdempotent(zoneName);
  }

  /** "an" is answered exactly as "AN": with the AN slot alone. */
  lemma DispatchLowerCase()
    ensures GetZoneServiceInfo("an") == GetZoneServiceInfo("AN")
    ensures GetZoneServiceInfo("an") == Some(ServiceInfoResponse(Some(AnRecord), None, None))
  {
  }

  /**
   * Names outside the three groups render nothing, including the empty name
   * and the table key of a GES sub-zone.
   */
  lemma DispatchUnknown()
    ensures GetZoneServiceInfo("unknown") == None
    ensures GetZoneServiceInfo("") == None
    ensures GetZoneServiceInfo("ges_waf") == None
  {
  }

  /**
   * A single-group response never disagrees with the list-all response: each
   * slot it fills holds what the list-all response holds in that slot.
   */
  lemma SingleGroupAgreesWithAll(zoneName: string)
    ensures GetZoneServiceInfo(zoneName).Some? ==>
              var single := GetZoneServiceInfo(zoneName).value;
              && (single.anInfo.Some? ==> single.anInfo == GetAllServiceInfo().anInfo)
              && (single.atlasInfo.Some? ==> single.atlasInfo == GetAllServiceInfo().atlasInfo)
              && (single.gesANInfo.Some? ==> single.gesANInfo == GetAllServiceInfo().gesANInfo)
  {
    var all := GetAllServiceInfo();
    var name := ToUpper(zoneName);
    if name == "GES" {
      assert GetZoneServiceInfo(zoneName) == Some(ServiceInfoResponse(None, None, all.gesANInfo));
    } else if name == "AN" {
      assert GetZoneServiceInfo(zoneName) == Some(ServiceInfoResponse(all.anInfo, None, None));
    } else if name == "ATLAS" {
      assert GetZoneServiceInfo(zoneName) == Some(ServiceInfoResponse(None, all.atlasInfo, None));
    } else {
      assert GetZoneServiceInfo(zoneName) == None;
    }
  }
}
