/** The first version of the scanner (waf-coverage.py): load balancers and
    CloudFront distributions only, WAFv2 lookups only, no profile prefix and
    no waf_version column. Its records are compared with those of the
    current scanner (module CoverageScan). */
module LegacyScan {
  import opened Wrappers
  import opened Text
  import opened CoverageScan

  /** One row of the legacy load-balancer CSV. */
  datatype LegacyElbRecord = LegacyElbRecord(
    ssoSession: string,
    profileName: string,
    accountId: string,
    name: string,
    version: string,
    lbType: string,
    scheme: string,
    associatedWaf: string,
    markedAsWafIgnore: bool)

  /** One row of the legacy CloudFront CSV. */
  datatype LegacyCloudFrontRecord = LegacyCloudFrontRecord(
    ssoSession: string,
    profileName: string,
    accountId: string,
    distributionId: string,
    distributionName: string,
    associatedWaf: string)

  /** The exception that aborts the legacy CloudFront scan: indexing the
      second-to-last piece of a WebACLId that has no '/'. */
  datatype ScanError = IndexError

  // ---------------------------------------------------------------- ELB

  /** The record of one v2 load balancer: a network balancer cannot have a
      firewall, an application balancer is looked up in WAFv2 only, any other
      type is recorded without a firewall. */
  function LegacyElbV2Info(elb: LoadBalancerV2, wafv2: WebAclLookup, profile: ProfileInfo): (r: LegacyElbRecord)
    ensures r.ssoSession == profile.ssoSession && r.profileName == profile.profileName
    ensures r.accountId == profile.accountId
    ensures r.name == elb.name && r.version == "v2" && r.lbType == elb.lbType && r.scheme == elb.scheme
    ensures r.markedAsWafIgnore <==> exists k :: 0 <= k < |elb.tagKeys| && elb.tagKeys[k] == IgnoreTagKey
    ensures elb.lbType == "network" ==> r.associatedWaf == NotApplicable
    ensures elb.lbType == "application" && wafv2(elb.arn).Some? ==> r.associatedWaf == wafv2(elb.arn).value
    ensures elb.lbType == "application" && wafv2(elb.arn).None? ==> r.associatedWaf == NoFirewall
    ensures elb.lbType != "network" && elb.lbType != "application" ==> r.associatedWaf == NoFirewall
  {
    var associatedWaf :=
      if elb.lbType == "network" then NotApplicable
      else if elb.lbType == "application" && wafv2(elb.arn).Some? then wafv2(elb.arn).value
      else NoFirewall;
    LegacyElbRecord(profile.ssoSession, profile.profileName, profile.accountId, elb.name, "v2",
                    elb.lbType, elb.scheme, associatedWaf, IgnoreTagKey in elb.tagKeys)
  }

  /** get_elbv2_info: one record per balancer, in the inventory's order,
      starting from "no firewall" and overwriting it as the script does. */
  method GetLegacyElbV2Info(elbs: seq<LoadBalancerV2>, wafv2: WebAclLookup, profile: ProfileInfo)
    returns (infos: seq<LegacyElbRecord>)
    ensures |infos| == |elbs|
    ensures forall k :: 0 <= k < |elbs| ==> infos[k] == LegacyElbV2Info(elbs[k], wafv2, profile)
  {
    infos := [];
    for i := 0 to |elbs|
      invariant |infos| == i
      invariant forall k :: 0 <= k < i ==> infos[k] == LegacyElbV2Info(elbs[k], wafv2, profile)
    {
      var elb := elbs[i];
      var wafIgnore := IgnoreTagKey in elb.tagKeys;
      var info := LegacyElbRecord(profile.ssoSession, profile.profileName, profile.accountId, elb.name, "v2",
                                  elb.lbType, elb.scheme, NoFirewall, wafIgnore);
      var response: Option<string> := None;
      if elb.lbType == "network" {
        info := info.(associatedWaf := NotApplicable);
      } else if elb.lbType == "application" {
        response := wafv2(elb.arn);
      }
      if response.Some? {
        info := info.(associatedWaf := response.value);
      }
      infos := infos + [info];
    }
  }

  /** The record of one classic load balancer. */
  function LegacyElbV1Info(elb: LoadBalancerV1, profile: ProfileInfo): (r: LegacyElbRecord)
    ensures r.ssoSession == profile.ssoSession && r.profileName == profile.profileName
    ensures r.accountId == profile.accountId && r.name == elb.name && r.scheme == elb.scheme
    ensures r.version == "v1" && r.lbType == "classic" && r.associatedWaf == NotApplicable && !r.markedAsWafIgnore
  {
    LegacyElbRecord(profile.ssoSession, profile.profileName, profile.accountId, elb.name, "v1",
                    "classic", elb.scheme, NotApplicable, false)
  }

  /** get_elbv1_info: one record per classic balancer, in order, without a
      firewall and never marked to be ignored. */
  method GetLegacyElbV1Info(elbs: seq<LoadBalancerV1>, profile: ProfileInfo) returns (infos: seq<LegacyElbRecord>)
    ensures |infos| == |elbs|
    ensures forall k :: 0 <= k < |elbs| ==> infos[k] == LegacyElbV1Info(elbs[k], profile)
    ensures forall k :: 0 <= k < |infos| ==>
      && infos[k].name == elbs[k].name && infos[k].scheme == elbs[k].scheme
      && infos[k].version == "v1" && infos[k].lbType == "classic"
      && infos[k].associatedWaf == NotApplicable && !infos[k].markedAsWafIgnore
  {
    infos := [];
    for i := 0 to |elbs|
      invariant |infos| == i
      invariant forall k :: 0 <= k < i ==> infos[k] == LegacyElbV1Info(elbs[k], profile)
    {
      infos := infos + [LegacyElbRecord(profile.ssoSession, profile.profileName, profile.accountId,
                                        elbs[i].name, "v1", "classic", elbs[i].scheme, NotApplicable, false)];
    }
  }

  /** Against the current scanner, a v2 balancer's record differs only where
      the current one falls back to a WAF Regional (v1) WebACL, which the
      legacy scanner does not look up and records as no firewall. */
  lemma LegacyElbV2Agrees(elb: LoadBalancerV2, wafv2: WebAclLookup, wafRegional: WebAclLookup, profile: ProfileInfo)
    ensures var legacy := LegacyElbV2Info(elb, wafv2, profile);
      var current := ElbV2Info(elb, wafv2, wafRegional, profile);
      && legacy.ssoSession == current.basic.ssoSession && legacy.profileName == current.basic.profileName
      && legacy.accountId == current.basic.accountId
      && legacy.name == current.name && legacy.version == current.version && legacy.lbType == current.lbType
      && legacy.scheme == current.scheme && legacy.markedAsWafIgnore == current.markedAsWafIgnore
      && (current.wafVersion != "v1" ==> legacy.associatedWaf == current.associatedWaf)
      && (current.wafVersion == "v1" ==> legacy.associatedWaf == NoFirewall)
  {
  }

  // --------------------------------------------------------- CloudFront

  /** associated_waf of a distribution: "None" for an empty WebACLId, else
      the second-to-last '/'-separated piece, which does not exist (and the
      scan fails) when the id has no '/'. */
  function LegacyCloudFrontWaf(webAclId: string): (r: Result<string, ScanError>)
    ensures r.Failure? <==> webAclId != "" && '/' !in webAclId
    ensures webAclId == "" ==> r == Success(NoFirewall)
    ensures r.Success? ==> '/' !in r.value
  {
    if webAclId != "" then
      var segments := Split(webAclId, '/');
      OccurrencesPositive(webAclId, '/');
      if |segments| >= 2 then Success(segments[|segments| - 2]) else Failure(IndexError)
    else Success(NoFirewall)
  }

  /** The record of one distribution, or the error that aborts the scan. */
  function LegacyCloudFrontInfo(dist: Distribution, profile: ProfileInfo): (r: Result<LegacyCloudFrontRecord, ScanError>)
    ensures r.Failure? <==> dist.webAclId != "" && '/' !in dist.webAclId
    ensures r.Success? ==>
      && r.value.ssoSession == profile.ssoSession && r.value.profileName == profile.profileName
      && r.value.accountId == profile.accountId && r.value.distributionId == dist.id
      && r.value.distributionName == DistributionName(dist)
      && r.value.associatedWaf == LegacyCloudFrontWaf(dist.webAclId).value
  {
    match LegacyCloudFrontWaf(dist.webAclId)
    case Failure(e) => Failure(e)
    case Success(waf) =>
      Success(LegacyCloudFrontRecord(profile.ssoSession, profile.profileName, profile.accountId,
                                     dist.id, DistributionName(dist), waf))
  }

  /** get_cloudfront_info: one record per distribution, in order, unless some
      distribution's WebACLId has no '/', in which case the exception ends
      the scan and no record is returned. */
  method GetLegacyCloudFrontInfo(dists: seq<Distribution>, profile: ProfileInfo)
    returns (r: Result<seq<LegacyCloudFrontRecord>, ScanError>)
    ensures r.Success? <==> forall k :: 0 <= k < |dists| ==> LegacyCloudFrontInfo(dists[k], profile).Success?
    ensures r.Success? ==> |r.value| == |dists|
    ensures r.Success? ==> forall k :: 0 <= k < |dists| ==> Success(r.value[k]) == LegacyCloudFrontInfo(dists[k], profile)
  {
    var infos: seq<LegacyCloudFrontRecord> := [];
    for i := 0 to |dists|
      invariant |infos| == i
      invariant forall k :: 0 <= k < i ==> Success(infos[k]) == LegacyCloudFrontInfo(dists[k], profile)
    {
      var dist := dists[i];
      var distributionName := if |dist.aliases| > 0 then dist.aliases[0] else dist.domainName;
      var associatedWaf := NoFirewall;
      if dist.webAclId != "" {
        var segments := Split(dist.webAclId, '/');
        if |segments| < 2 {
          return Failure(IndexError);
        }
        associatedWaf := segments[|segments| - 2];
      }
      infos := infos + [LegacyCloudFrontRecord(profile.ssoSession, profile.profileName, profile.accountId,
                                               dist.id, distributionName, associatedWaf)];
    }
    r := Success(infos);
  }

  /** Against the current scanner: where the legacy scanner records a
      distribution at all, it names the same firewall; it fails exactly on
      the ids the current scanner treats as WAF Classic ids or as "None". */
  lemma LegacyCloudFrontAgrees(dist: Distribution, wafGlobal: WebAclNames, profile: ProfileInfo)
    ensures var legacy := LegacyCloudFrontWaf(dist.webAclId);
      var current := CloudFrontFirewall(dist.webAclId, wafGlobal);
      && (legacy.Success? ==> legacy.value == current.associatedWaf)
      && (legacy.Failure? <==> current.wafVersion == "v1" || dist.webAclId == NoFirewall)
  {
    if '/' in dist.webAclId {
      var k :| 0 <= k < |dist.webAclId| && dist.webAclId[k] == '/';
      NotNoFirewall(dist.webAclId, k);
    }
  }

  /** A WAF Classic WebACL id (no '/') on any distribution aborts the legacy
      CloudFront scan. */
  lemma ClassicWebAclIdAbortsScan(dist: Distribution, others: seq<Distribution>, profile: ProfileInfo)
    requires dist.webAclId != "" && '/' !in dist.webAclId
    ensures LegacyCloudFrontInfo(dist, profile) == Failure(IndexError)
    ensures exists k :: 0 <= k < |others + [dist]| && LegacyCloudFrontInfo((others + [dist])[k], profile).Failure?
  {
    assert (others + [dist])[|others|] == dist;
  }
}
