/** The resource scanners of waf-coverage-get-info.py: each turns one
    account's inventory of load balancers, CloudFront distributions or API
    Gateway stages, together with the answers of the firewall lookups, into
    one flat record per resource. The inventories (already paginated) and
    the lookups are inputs; the calls that fetch them are not modelled. */
module CoverageScan {
  import opened Wrappers
  import opened Text

  /** One row of the profiles CSV. */
  datatype ProfileInfo = ProfileInfo(ssoSession: string, profileName: string, accountId: string)

  /** The fields every record starts with. */
  datatype BasicInfo = BasicInfo(ssoSession: string, profilePrefix: string, profileName: string, accountId: string)

  /** The text the scripts write for "not applicable" and for "no firewall". */
  const NotApplicable := "N/A"
  const NoFirewall := "None"

  /** The tag key that marks a load balancer as deliberately unprotected. */
  const IgnoreTagKey := "et:waf-ignore"

  /** get_web_acl_for_resource of one firewall service: the name of the
      WebACL associated with the resource of the given ARN, if any. */
  type WebAclLookup = string -> Option<string>

  /** generate_basic_info: the profile's fields, plus its prefix, which is
      the profile name up to its first '-' (the whole name if it has none). */
  function GenerateBasicInfo(profile: ProfileInfo): (b: BasicInfo)
    ensures b.ssoSession == profile.ssoSession
    ensures b.profileName == profile.profileName
    ensures b.accountId == profile.accountId
    ensures b.profilePrefix <= profile.profileName
    ensures '-' !in b.profilePrefix
    ensures |b.profilePrefix| == |profile.profileName| || profile.profileName[|b.profilePrefix|] == '-'
  {
    SplitHead(profile.profileName, '-');
    BasicInfo(profile.ssoSession, Split(profile.profileName, '-')[0], profile.profileName, profile.accountId)
  }

  /** The pair (associated_waf, waf_version) a record ends up with. */
  datatype Firewall = Firewall(associatedWaf: string, wafVersion: string)

  /** The lookup shared by application load balancers and REST API stages:
      the WAFv2 WebACL if WAFv2 answers one, else the WAF Regional (v1) WebACL
      if that service answers one, else no firewall. */
  function FirewallAssociation(arn: string, wafv2: WebAclLookup, wafRegional: WebAclLookup): (f: Firewall)
    ensures f.wafVersion == "v2" <==> wafv2(arn).Some?
    ensures f.wafVersion == "v1" <==> wafv2(arn).None? && wafRegional(arn).Some?
    ensures f.wafVersion == NoFirewall <==> wafv2(arn).None? && wafRegional(arn).None?
    ensures wafv2(arn).Some? ==> f.associatedWaf == wafv2(arn).value
    ensures wafv2(arn).None? && wafRegional(arn).Some? ==> f.associatedWaf == wafRegional(arn).value
    ensures wafv2(arn).None? && wafRegional(arn).None? ==> f.associatedWaf == NoFirewall
  {
    match wafv2(arn)
    case Some(name) => Firewall(name, "v2")
    case None =>
      match wafRegional(arn)
      case Some(name) => Firewall(name, "v1")
      case None => Firewall(NoFirewall, NoFirewall)
  }

  // ---------------------------------------------------------------- ELB

  /** One entry of describe_load_balancers of elbv2, with the keys of the
      tags describe_tags answers for it. */
  datatype LoadBalancerV2 = LoadBalancerV2(arn: string, name: string, lbType: string, scheme: string, tagKeys: seq<string>)

  /** One entry of describe_load_balancers of the classic elb service. */
  datatype LoadBalancerV1 = LoadBalancerV1(name: string, scheme: string)

  /** One row of the load-balancer CSV. */
  datatype ElbRecord = ElbRecord(
    basic: BasicInfo,
    name: string,
    version: string,
    lbType: string,
    scheme: string,
    associatedWaf: string,
    wafVersion: string,
    markedAsWafIgnore: bool)

  /** The record of one v2 load balancer: a network balancer cannot have a
      firewall, an application balancer gets the v2-then-v1 lookup, any other
      type is recorded without a firewall. */
  function ElbV2Info(elb: LoadBalancerV2, wafv2: WebAclLookup, wafRegional: WebAclLookup, profile: ProfileInfo): (r: ElbRecord)
    ensures r.basic == GenerateBasicInfo(profile)
    ensures r.name == elb.name && r.version == "v2" && r.lbType == elb.lbType && r.scheme == elb.scheme
    ensures r.markedAsWafIgnore <==> exists k :: 0 <= k < |elb.tagKeys| && elb.tagKeys[k] == IgnoreTagKey
    ensures r.wafVersion == NotApplicable <==> elb.lbType == "network"
    ensures r.wafVersion == "v2" <==> elb.lbType == "application" && wafv2(elb.arn).Some?
    ensures r.wafVersion == "v1" <==> elb.lbType == "application" && wafv2(elb.arn).None? && wafRegional(elb.arn).Some?
    ensures elb.lbType == "network" ==> r.associatedWaf == NotApplicable
    ensures elb.lbType == "application" ==>
      Firewall(r.associatedWaf, r.wafVersion) == FirewallAssociation(elb.arn, wafv2, wafRegional)
    ensures elb.lbType != "network" && elb.lbType != "application" ==>
      r.associatedWaf == NoFirewall && r.wafVersion == NoFirewall
  {
    var firewall :=
      if elb.lbType == "network" then Firewall(NotApplicable, NotApplicable)
      else if elb.lbType == "application" then FirewallAssociation(elb.arn, wafv2, wafRegional)
      else Firewall(NoFirewall, NoFirewall);
    ElbRecord(GenerateBasicInfo(profile), elb.name, "v2", elb.lbType, elb.scheme,
              firewall.associatedWaf, firewall.wafVersion, IgnoreTagKey in elb.tagKeys)
  }

  /** get_elbv2_info: one record per balancer, in the inventory's order. */
  method GetElbV2Info(elbs: seq<LoadBalancerV2>, wafv2: WebAclLookup, wafRegional: WebAclLookup, profile: ProfileInfo)
    returns (infos: seq<ElbRecord>)
    ensures |infos| == |elbs|
    ensures forall k :: 0 <= k < |elbs| ==> infos[k] == ElbV2Info(elbs[k], wafv2, wafRegional, profile)
  {
    infos := [];
    for i := 0 to |elbs|
      invariant |infos| == i
      invariant forall k :: 0 <= k < i ==> infos[k] == ElbV2Info(elbs[k], wafv2, wafRegional, profile)
    {
      var elb := elbs[i];
      var wafIgnore := IgnoreTagKey in elb.tagKeys;
      var info := ElbRecord(GenerateBasicInfo(profile), elb.name, "v2", elb.lbType, elb.scheme,
                            NoFirewall, NoFirewall, wafIgnore);
      if elb.lbType == "network" {
        info := info.(associatedWaf := NotApplicable, wafVersion := NotApplicable);
      } else if elb.lbType == "application" {
        var response := wafv2(elb.arn);
        if response.Some? {
          info := info.(associatedWaf := response.value, wafVersion := "v2");
        } else {
          var regionalResponse := wafRegional(elb.arn);
          if regionalResponse.Some? {
            info := info.(associatedWaf := regionalResponse.value, wafVersion := "v1");
          }
        }
      }
      infos := infos + [info];
    }
  }

  /** The record of one classic load balancer. */
  function ElbV1Info(elb: LoadBalancerV1, profile: ProfileInfo): (r: ElbRecord)
    ensures r.basic == GenerateBasicInfo(profile) && r.name == elb.name && r.scheme == elb.scheme
    ensures r.version == "v1" && r.lbType == "classic"
    ensures r.associatedWaf == NotApplicable && r.wafVersion == NotApplicable && !r.markedAsWafIgnore
  {
    ElbRecord(GenerateBasicInfo(profile), elb.name, "v1", "classic", elb.scheme, NotApplicable, NotApplicable, false)
  }

  /** get_elbv1_info: one record per classic balancer, in order; classic
      balancers cannot have a firewall and are never marked to be ignored. */
  method GetElbV1Info(elbs: seq<LoadBalancerV1>, profile: ProfileInfo) returns (infos: seq<ElbRecord>)
    ensures |infos| == |elbs|
    ensures forall k :: 0 <= k < |elbs| ==> infos[k] == ElbV1Info(elbs[k], profile)
    ensures forall k :: 0 <= k < |infos| ==>
      && infos[k].basic == GenerateBasicInfo(profile)
      && infos[k].name == elbs[k].name && infos[k].scheme == elbs[k].scheme
      && infos[k].version == "v1" && infos[k].lbType == "classic"
      && infos[k].associatedWaf == NotApplicable && infos[k].wafVersion == NotApplicable
      && !infos[k].markedAsWafIgnore
  {
    infos := [];
    for i := 0 to |elbs|
      invariant |infos| == i
      invariant forall k :: 0 <= k < i ==> infos[k] == ElbV1Info(elbs[k], profile)
    {
      var elb := elbs[i];
      var info := ElbRecord(GenerateBasicInfo(profile), elb.name, "v1", "classic", elb.scheme,
                            NotApplicable, NotApplicable, false);
      infos := infos + [info];
    }
  }

  // --------------------------------------------------------- CloudFront

  /** One entry of list_distributions; `aliases` holds Aliases.Items, and
      Aliases.Quantity is its length. */
  datatype Distribution = Distribution(id: string, aliases: seq<string>, domainName: string, webAclId: string)

  /** get_web_acl of the global (v1) WAF service: the name of a WebACL by id. */
  type WebAclNames = string -> string

  /** One row of the CloudFront CSV. */
  datatype CloudFrontRecord = CloudFrontRecord(
    basic: BasicInfo,
    distributionId: string,
    distributionName: string,
    associatedWaf: string,
    wafVersion: string)

  /** The display name: the first alias if there is one, else the domain name. */
  function DistributionName(dist: Distribution): (n: string)
    ensures |dist.aliases| > 0 ==> n == dist.aliases[0]
    ensures |dist.aliases| == 0 ==> n == dist.domainName
  {
    if |dist.aliases| > 0 then dist.aliases[0] else dist.domainName
  }

  /** The firewall of a distribution from its WebACLId: none for an empty id
      (and for the id "None", which the script cannot tell apart from the
      absence of an id); for an id with '/' (a WAFv2 ARN) its second-to-last
      '/'-separated piece, with version v2; otherwise a v1 id, whose name the
      global lookup gives. */
  function CloudFrontFirewall(webAclId: string, wafGlobal: WebAclNames): (f: Firewall)
    ensures webAclId == "" || webAclId == NoFirewall ==> f == Firewall(NoFirewall, NoFirewall)
    ensures webAclId != "" && webAclId != NoFirewall && '/' !in webAclId ==>
      f == Firewall(wafGlobal(webAclId), "v1")
    ensures '/' in webAclId ==> f.wafVersion == "v2" && '/' !in f.associatedWaf
  {
    var webAclName := if webAclId != "" then webAclId else NoFirewall;
    if webAclName == NoFirewall then Firewall(NoFirewall, NoFirewall)
    else
      var segments := Split(webAclName, '/');
      OccurrencesPositive(webAclName, '/');
      if |segments| > 1 then Firewall(segments[|segments| - 2], "v2")
      else Firewall(wafGlobal(webAclName), "v1")
  }

  /** For a WAFv2 ARN whose last two pieces are `name` and `id`, the firewall
      is named `name` (the piece before the id) and is a v2 one. */
  lemma WebAclArnName(prefix: string, name: string, id: string, wafGlobal: WebAclNames)
    requires '/' !in name && '/' !in id
    ensures CloudFrontFirewall(prefix + "/" + name + "/" + id, wafGlobal) == Firewall(name, "v2")
  {
    var tail := name + ['/'] + id;
    var s := prefix + ['/'] + tail;
    assert prefix + "/" + name + "/" + id == s;
    SplitAt(name, '/', id);
    SplitWithoutSeparator(name, '/');
    SplitWithoutSeparator(id, '/');
    assert Split(tail, '/') == [name, id];
    SplitAt(prefix, '/', tail);
    var segments := Split(s, '/');
    assert segments == Split(prefix, '/') + [name, id];
    assert segments[|segments| - 2] == name;
    NotNoFirewall(s, |prefix|);
  }

  /** A text with a '/' is neither empty nor the text "None". */
  lemma NotNoFirewall(s: string, k: nat)
    requires k < |s| && s[k] == '/'
    ensures s != "" && s != NoFirewall
  {
  }

  /** With a single '/', the firewall is named by the text before it. */
  lemma WebAclSingleSlash(name: string, id: string, wafGlobal: WebAclNames)
    requires '/' !in name && '/' !in id
    ensures CloudFrontFirewall(name + "/" + id, wafGlobal) == Firewall(name, "v2")
  {
    var s := name + ['/'] + id;
    assert name + "/" + id == s;
    SplitAt(name, '/', id);
    SplitWithoutSeparator(name, '/');
    SplitWithoutSeparator(id, '/');
    assert Split(s, '/') == [name, id];
    NotNoFirewall(s, |name|);
  }

  /** The record of one distribution. */
  function CloudFrontInfo(dist: Distribution, wafGlobal: WebAclNames, profile: ProfileInfo): (r: CloudFrontRecord)
    ensures r.basic == GenerateBasicInfo(profile) && r.distributionId == dist.id
    ensures r.distributionName == DistributionName(dist)
    ensures Firewall(r.associatedWaf, r.wafVersion) == CloudFrontFirewall(dist.webAclId, wafGlobal)
  {
    var f := CloudFrontFirewall(dist.webAclId, wafGlobal);
    CloudFrontRecord(GenerateBasicInfo(profile), dist.id, DistributionName(dist), f.associatedWaf, f.wafVersion)
  }

  /** get_cloudfront_info: one record per distribution, in order, built by
      reassigning the name and version step by step as the script does. */
  method GetCloudFrontInfo(dists: seq<Distribution>, wafGlobal: WebAclNames, profile: ProfileInfo)
    returns (infos: seq<CloudFrontRecord>)
    ensures |infos| == |dists|
    ensures forall k :: 0 <= k < |dists| ==> infos[k] == CloudFrontInfo(dists[k], wafGlobal, profile)
  {
    infos := [];
    for i := 0 to |dists|
      invariant |infos| == i
      invariant forall k :: 0 <= k < i ==> infos[k] == CloudFrontInfo(dists[k], wafGlobal, profile)
    {
      var dist := dists[i];
      var distributionName := if |dist.aliases| > 0 then dist.aliases[0] else dist.domainName;
      var webAclName := if dist.webAclId != "" then dist.webAclId else NoFirewall;
      var wafVersion := NoFirewall;
      if webAclName != NoFirewall {
        var segments := Split(webAclName, '/');
        if |segments| > 1 {
          webAclName := segments[|segments| - 2];
          wafVersion := "v2";
        } else {
          webAclName := wafGlobal(webAclName);
          wafVersion := "v1";
        }
      }
      infos := infos + [CloudFrontRecord(GenerateBasicInfo(profile), dist.id, distributionName, webAclName, wafVersion)];
    }
  }

  // -------------------------------------------------------- API Gateway

  /** One entry of get_apis of apigatewayv2, with the names get_stages
      answers for it. */
  datatype HttpApi = HttpApi(apiId: string, name: string, protocolType: string, stageNames: seq<string>)

  /** One entry of get_rest_apis of apigateway, with the first of its
      endpoint types and the names get_stages answers for it. */
  datatype RestApi = RestApi(id: string, name: string, endpointType: string, stageNames: seq<string>)

  /** One row of the API Gateway CSV: one per stage. */
  datatype ApigwRecord = ApigwRecord(
    basic: BasicInfo,
    apiGatewayId: string,
    apiGatewayName: string,
    protocol: string,
    endpointType: string,
    stageName: string,
    associatedWaf: string,
    wafVersion: string)

  /** The stages of each API, one after the other. */
  function Flatten<T>(groups: seq<seq<T>>): seq<T>
  {
    if groups == [] then []
    else Flatten(groups[..|groups| - 1]) + groups[|groups| - 1]
  }

  /** Total size of the groups. */
  function SizeSum<T>(groups: seq<seq<T>>): nat
  {
    if groups == [] then 0
    else SizeSum(groups[..|groups| - 1]) + |groups[|groups| - 1]|
  }

  lemma {:induction false} FlattenLength<T>(groups: seq<seq<T>>)
    ensures |Flatten(groups)| == SizeSum(groups)
  {
    if groups != [] {
      FlattenLength(groups[..|groups| - 1]);
    }
  }

  /** An element of the flattened sequence is exactly an element of one of
      the groups. */
  lemma {:induction false} FlattenMember<T>(groups: seq<seq<T>>, x: T)
    ensures x in Flatten(groups) <==> exists i :: 0 <= i < |groups| && x in groups[i]
  {
    if groups != [] {
      var init := groups[..|groups| - 1];
      FlattenMember(init, x);
      if exists i :: 0 <= i < |init| && x in init[i] {
        var i :| 0 <= i < |init| && x in init[i];
        assert groups[i] == init[i];
      }
      if exists i :: 0 <= i < |groups| && x in groups[i] {
        var i :| 0 <= i < |groups| && x in groups[i];
        if i < |init| {
          assert init[i] == groups[i];
        }
      }
    }
  }

  /** The record of one stage of an HTTP or WebSocket API: these APIs are
      regional and no firewall applies to them. */
  function HttpApiStageInfo(api: HttpApi, stageName: string, profile: ProfileInfo): (r: ApigwRecord)
    ensures r.basic == GenerateBasicInfo(profile) && r.apiGatewayId == api.apiId && r.apiGatewayName == api.name
    ensures r.protocol == api.protocolType && r.endpointType == "REGIONAL" && r.stageName == stageName
    ensures r.associatedWaf == NotApplicable && r.wafVersion == NotApplicable
  {
    ApigwRecord(GenerateBasicInfo(profile), api.apiId, api.name, api.protocolType, "REGIONAL", stageName,
                NotApplicable, NotApplicable)
  }

  function HttpApiStages(api: HttpApi, profile: ProfileInfo): seq<ApigwRecord>
  {
    seq(|api.stageNames|, j requires 0 <= j < |api.stageNames| => HttpApiStageInfo(api, api.stageNames[j], profile))
  }

  function HttpApiGroups(apis: seq<HttpApi>, profile: ProfileInfo): seq<seq<ApigwRecord>>
  {
    seq(|apis|, i requires 0 <= i < |apis| => HttpApiStages(apis[i], profile))
  }

  /** What get_api_gateway_v2_info returns: one record per stage of each
      API, each regional and without a firewall, every stage of every API
      being present. */
  lemma HttpApiRecords(apis: seq<HttpApi>, profile: ProfileInfo)
    ensures var r := Flatten(HttpApiGroups(apis, profile));
      && |r| == SizeSum(HttpApiGroups(apis, profile))
      && (forall i, j :: 0 <= i < |apis| && 0 <= j < |apis[i].stageNames| ==>
            HttpApiStageInfo(apis[i], apis[i].stageNames[j], profile) in r)
      && (forall x :: x in r ==>
            x.endpointType == "REGIONAL" && x.associatedWaf == NotApplicable && x.wafVersion == NotApplicable
            && x.basic == GenerateBasicInfo(profile))
  {
    var groups := HttpApiGroups(apis, profile);
    var r := Flatten(groups);
    FlattenLength(groups);
    forall i, j | 0 <= i < |apis| && 0 <= j < |apis[i].stageNames|
      ensures HttpApiStageInfo(apis[i], apis[i].stageNames[j], profile) in r
    {
      FlattenMember(groups, HttpApiStageInfo(apis[i], apis[i].stageNames[j], profile));
      assert groups[i][j] == HttpApiStageInfo(apis[i], apis[i].stageNames[j], profile);
    }
    forall x | x in r
      ensures x.endpointType == "REGIONAL" && x.associatedWaf == NotApplicable && x.wafVersion == NotApplicable
      ensures x.basic == GenerateBasicInfo(profile)
    {
      FlattenMember(groups, x);
    }
  }

  /** get_api_gateway_v2_info: for each API in order, one record per stage
      in order. */
  method GetApiGatewayV2Info(apis: seq<HttpApi>, profile: ProfileInfo) returns (infos: seq<ApigwRecord>)
    ensures infos == Flatten(HttpApiGroups(apis, profile))
  {
    var groups := HttpApiGroups(apis, profile);
    infos := [];
    for i := 0 to |apis|
      invariant infos == Flatten(groups[..i])
    {
      var api := apis[i];
      var apiInfo := ApigwRecord(GenerateBasicInfo(profile), api.apiId, api.name, api.protocolType, "REGIONAL",
                                 "", NoFirewall, NoFirewall);
      var stages := api.stageNames;
      for j := 0 to |stages|
        invariant infos == Flatten(groups[..i]) + groups[i][..j]
      {
        var stageInfo := apiInfo.(stageName := stages[j], associatedWaf := NotApplicable, wafVersion := NotApplicable);
        infos := infos + [stageInfo];
      }
      assert groups[..i + 1][..i] == groups[..i];
      assert groups[i][..|stages|] == groups[i];
    }
    assert groups[..|apis|] == groups;
  }

  /** The ARN of a REST API stage, as the lookups are asked about it. */
  function StageArn(region: string, apiId: string, stageName: string): (arn: string)
    ensures "arn:aws:apigateway:" + region <= arn
    ensures |arn| >= |stageName| && arn[|arn| - |stageName|..] == stageName
  {
    "arn:aws:apigateway:" + region + "::/restapis/" + apiId + "/stages/" + stageName
  }

  /** The record of one REST API stage: its firewall comes from the
      v2-then-v1 lookup of the stage's ARN. */
  function RestApiStageInfo(api: RestApi, stageName: string, region: string,
                            wafv2: WebAclLookup, wafRegional: WebAclLookup, profile: ProfileInfo): (r: ApigwRecord)
    ensures r.basic == GenerateBasicInfo(profile)
    ensures r.apiGatewayId == api.id && r.apiGatewayName == api.name
    ensures r.protocol == "REST" && r.endpointType == api.endpointType && r.stageName == stageName
    ensures Firewall(r.associatedWaf, r.wafVersion) == FirewallAssociation(StageArn(region, api.id, stageName), wafv2, wafRegional)
  {
    var f := FirewallAssociation(StageArn(region, api.id, stageName), wafv2, wafRegional);
    ApigwRecord(GenerateBasicInfo(profile), api.id, api.name, "REST", api.endpointType, stageName,
                f.associatedWaf, f.wafVersion)
  }

  function RestApiStages(api: RestApi, region: string, wafv2: WebAclLookup, wafRegional: WebAclLookup,
                         profile: ProfileInfo): seq<ApigwRecord>
  {
    seq(|api.stageNames|, j requires 0 <= j < |api.stageNames| =>
      RestApiStageInfo(api, api.stageNames[j], region, wafv2, wafRegional, profile))
  }

  function RestApiGroups(apis: seq<RestApi>, region: string, wafv2: WebAclLookup, wafRegional: WebAclLookup,
                         profile: ProfileInfo): seq<seq<ApigwRecord>>
  {
    seq(|apis|, i requires 0 <= i < |apis| => RestApiStages(apis[i], region, wafv2, wafRegional, profile))
  }

  /** What get_api_gateway_v1_info returns: one record per stage of each
      REST API, every stage of every API being present, and each record
      carrying the firewall found for its own stage ARN. */
  lemma RestApiRecords(apis: seq<RestApi>, region: string, wafv2: WebAclLookup, wafRegional: WebAclLookup,
                       profile: ProfileInfo)
    ensures var r := Flatten(RestApiGroups(apis, region, wafv2, wafRegional, profile));
      && |r| == SizeSum(RestApiGroups(apis, region, wafv2, wafRegional, profile))
      && (forall i, j :: 0 <= i < |apis| && 0 <= j < |apis[i].stageNames| ==>
            RestApiStageInfo(apis[i], apis[i].stageNames[j], region, wafv2, wafRegional, profile) in r)
      && (forall x :: x in r ==>
            x.protocol == "REST"
            && Firewall(x.associatedWaf, x.wafVersion)
               == FirewallAssociation(StageArn(region, x.apiGatewayId, x.stageName), wafv2, wafRegional))
  {
    var groups := RestApiGroups(apis, region, wafv2, wafRegional, profile);
    var r := Flatten(groups);
    FlattenLength(groups);
    forall i, j | 0 <= i < |apis| && 0 <= j < |apis[i].stageNames|
      ensures RestApiStageInfo(apis[i], apis[i].stageNames[j], region, wafv2, wafRegional, profile) in r
    {
      FlattenMember(groups, RestApiStageInfo(apis[i], apis[i].stageNames[j], region, wafv2, wafRegional, profile));
      assert groups[i][j] == RestApiStageInfo(apis[i], apis[i].stageNames[j], region, wafv2, wafRegional, profile);
    }
    forall x | x in r
      ensures x.protocol == "REST"
      ensures Firewall(x.associatedWaf, x.wafVersion)
        == FirewallAssociation(StageArn(region, x.apiGatewayId, x.stageName), wafv2, wafRegional)
    {
      FlattenMember(groups, x);
    }
  }

  /** get_api_gateway_v1_info: for each REST API in order, one record per
      stage in order, the stage's firewall found through the v2 lookup of
      its ARN and, failing that, the WAF Regional one. */
  method GetApiGatewayV1Info(apis: seq<RestApi>, region: string, wafv2: WebAclLookup, wafRegional: WebAclLookup,
                             profile: ProfileInfo) returns (infos: seq<ApigwRecord>)
    ensures infos == Flatten(RestApiGroups(apis, region, wafv2, wafRegional, profile))
  {
    var groups := RestApiGroups(apis, region, wafv2, wafRegional, profile);
    infos := [];
    for i := 0 to |apis|
      invariant infos == Flatten(groups[..i])
    {
      var api := apis[i];
      var apiInfo := ApigwRecord(GenerateBasicInfo(profile), api.id, api.name, "REST", api.endpointType,
                                 "", NoFirewall, NoFirewall);
      var stages := api.stageNames;
      for j := 0 to |stages|
        invariant infos == Flatten(groups[..i]) + groups[i][..j]
      {
        var stageArn := "arn:aws:apigateway:" + region + "::/restapis/" + api.id + "/stages/" + stages[j];
        var stageInfo := apiInfo.(stageName := stages[j], associatedWaf := NoFirewall, wafVersion := NoFirewall);
        var response := wafv2(stageArn);
        if response.Some? {
          stageInfo := stageInfo.(associatedWaf := response.value, wafVersion := "v2");
        } else {
          var regionalResponse := wafRegional(stageArn);
          if regionalResponse.Some? {
            stageInfo := stageInfo.(associatedWaf := regionalResponse.value, wafVersion := "v1");
          }
        }
        assert stageInfo == groups[i][j] by {
          assert stageArn == StageArn(region, api.id, stages[j]);
        }
        infos := infos + [stageInfo];
      }
      assert groups[..i + 1][..i] == groups[..i];
      assert groups[i][..|stages|] == groups[i];
    }
    assert groups[..|apis|] == groups;
  }
}
