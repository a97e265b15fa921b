/** The CSV files between the two stages: how a record written by the
    scanners (waf-coverage-get-info.py) is read back as a row by the
    aggregator (waf-coverage-calculate.py), and which resources therefore
    end up in the total and in the protected count of their prefix. */
module ScanToCoverage {
  import opened Wrappers
  import opened Text
  import opened CoverageScan
  import opened CoverageCalc

  /** str() of a Python bool, which is what csv.DictWriter writes. */
  function BoolText(b: bool): string
  {
    if b then "True" else "False"
  }

  /** The load-balancer CSV row of a record, as the aggregator reads it. */
  function ElbCsvRow(r: ElbRecord): (row: ElbRow)
    ensures ElbRules.prefixOf(row) == r.basic.profilePrefix
    ensures Lower(row.markedAsWafIgnore) == "true" <==> r.markedAsWafIgnore
    ensures row.scheme == r.scheme && row.lbType == r.lbType
    ensures row.wafVersion == r.wafVersion && row.associatedWaf == r.associatedWaf
  {
    LowerOfConstants();
    ElbRow(r.basic.profilePrefix, BoolText(r.markedAsWafIgnore), r.scheme, r.lbType, r.wafVersion, r.associatedWaf)
  }

  /** The CloudFront CSV row of a record, as the aggregator reads it. */
  function CloudFrontCsvRow(r: CloudFrontRecord): (row: CloudFrontRow)
    ensures CloudFrontRules.prefixOf(row) == r.basic.profilePrefix
    ensures row.wafVersion == r.wafVersion && row.associatedWaf == r.associatedWaf
  {
    CloudFrontRow(r.basic.profilePrefix, r.wafVersion, r.associatedWaf)
  }

  /** The API Gateway CSV row of a record, as the aggregator reads it. */
  function ApigwCsvRow(r: ApigwRecord): (row: ApigwRow)
    ensures ApigwRules.prefixOf(row) == r.basic.profilePrefix
    ensures row.endpointType == r.endpointType && row.protocol == r.protocol
    ensures row.wafVersion == r.wafVersion && row.associatedWaf == r.associatedWaf
  {
    ApigwRow(r.basic.profilePrefix, r.endpointType, r.protocol, r.wafVersion, r.associatedWaf)
  }

  /** The lower-case forms of the constants the scanners write, compared
      with the words the aggregator looks for. */
  lemma LowerOfConstants()
    ensures Lower("True") == "true" && Lower("False") != "true"
    ensures Lower("None") == "none"
    ensures Lower(NotApplicable) != "none" && Lower(NotApplicable) != "v1"
    ensures Lower("v1") == "v1" && Lower("v2") != "v1"
    ensures Lower("network") == "network"
    ensures Lower("classic") == "classic" && Lower("classic") != "network"
    ensures Lower("application") != "network" && Lower("application") != "classic"
    ensures Lower("REST") != "http" && Lower("REGIONAL") != "private"
  {
    assert Lower("True") == "true" by {
      assert Lower("True")[0] == 't';
    }
    assert Lower("None") == "none" by {
      assert Lower("None")[0] == 'n';
    }
    assert Lower("v1") == "v1";
    assert Lower("v2")[1] == '2';
    assert Lower("network") == "network";
    assert Lower("classic") == "classic";
    assert Lower("classic")[0] == 'c';
    assert Lower("REST")[0] == 'r';
  }

  /** A v2 load balancer is counted in its prefix's total iff it is not
      tagged to be ignored, not internal and not a network balancer; it is
      counted as protected iff, in addition, it is an application balancer
      with a WAFv2 WebACL whose name is not "none" in any letter case. A v1
      (WAF Regional) WebACL never counts. */
  lemma ElbV2Counting(elb: LoadBalancerV2, wafv2: WebAclLookup, wafRegional: WebAclLookup, profile: ProfileInfo)
    ensures var row := ElbCsvRow(ElbV2Info(elb, wafv2, wafRegional, profile));
      && row.profilePrefix == GenerateBasicInfo(profile).profilePrefix
      && (CountedInTotal(ElbRules, row) <==>
            IgnoreTagKey !in elb.tagKeys && Lower(elb.scheme) != "internal" && Lower(elb.lbType) != "network")
      && (CountedWithWaf(ElbRules, row) <==>
            && IgnoreTagKey !in elb.tagKeys && Lower(elb.scheme) != "internal"
            && elb.lbType == "application" && wafv2(elb.arn).Some? && Lower(wafv2(elb.arn).value) != "none")
  {
    LowerOfConstants();
  }

  /** A balancer tagged et:waf-ignore adds nothing to either counter. */
  lemma IgnoredBalancerNotCounted(rows: seq<ElbRow>, elb: LoadBalancerV2, wafv2: WebAclLookup,
                                  wafRegional: WebAclLookup, profile: ProfileInfo, p: string)
    requires IgnoreTagKey in elb.tagKeys
    ensures var row := ElbCsvRow(ElbV2Info(elb, wafv2, wafRegional, profile));
      && TotalCount(rows + [row], ElbRules, p) == TotalCount(rows, ElbRules, p)
      && WafCount(rows + [row], ElbRules, p) == WafCount(rows, ElbRules, p)
  {
    var row := ElbCsvRow(ElbV2Info(elb, wafv2, wafRegional, profile));
    ElbV2Counting(elb, wafv2, wafRegional, profile);
    AppendRow(rows, ElbRules, row, p);
  }

  /** A classic balancer is counted in the total iff it is not internal,
      and never as protected. */
  lemma ElbV1Counting(elb: LoadBalancerV1, profile: ProfileInfo)
    ensures var row := ElbCsvRow(ElbV1Info(elb, profile));
      && (CountedInTotal(ElbRules, row) <==> Lower(elb.scheme) != "internal")
      && !CountedWithWaf(ElbRules, row)
  {
    LowerOfConstants();
  }

  /** Every distribution is counted in the total; it is counted as
      protected iff its WebACLId is a WAFv2 ARN (it holds a '/') whose
      WebACL name is not "none" in any letter case. */
  lemma CloudFrontCounting(dist: Distribution, wafGlobal: WebAclNames, profile: ProfileInfo)
    ensures var row := CloudFrontCsvRow(CloudFrontInfo(dist, wafGlobal, profile));
      && CountedInTotal(CloudFrontRules, row)
      && (CountedWithWaf(CloudFrontRules, row) <==>
            '/' in dist.webAclId && Lower(CloudFrontFirewall(dist.webAclId, wafGlobal).associatedWaf) != "none")
  {
    LowerOfConstants();
  }

  /** A REST API stage is counted in the total iff its API's endpoint type
      is not private, and as protected iff, in addition, WAFv2 answers a
      WebACL for the stage's ARN whose name is not "none". */
  lemma RestApiStageCounting(api: RestApi, stageName: string, region: string,
                             wafv2: WebAclLookup, wafRegional: WebAclLookup, profile: ProfileInfo)
    ensures var arn := StageArn(region, api.id, stageName);
      var row := ApigwCsvRow(RestApiStageInfo(api, stageName, region, wafv2, wafRegional, profile));
      && (CountedInTotal(ApigwRules, row) <==> Lower(api.endpointType) != "private")
      && (CountedWithWaf(ApigwRules, row) <==>
            Lower(api.endpointType) != "private" && wafv2(arn).Some? && Lower(wafv2(arn).value) != "none")
  {
    LowerOfConstants();
  }

  /** A stage of an HTTP or WebSocket API is always counted in the total,
      and counted as protected iff the API's protocol is not HTTP, although
      no firewall is ever recorded for it. */
  lemma HttpApiStageCounting(api: HttpApi, stageName: string, profile: ProfileInfo)
    ensures var row := ApigwCsvRow(HttpApiStageInfo(api, stageName, profile));
      && CountedInTotal(ApigwRules, row)
      && row.wafVersion == NotApplicable
      && (CountedWithWaf(ApigwRules, row) <==> Lower(api.protocolType) != "http")
  {
    LowerOfConstants();
  }

  /** The rule as written: a stage of a WebSocket API, which has no firewall
      (its waf_version is N/A), is counted as protected. */
  lemma WebSocketStageCountedAsProtected(apiId: string, name: string, stageName: string, profile: ProfileInfo)
    ensures var row := ApigwCsvRow(HttpApiStageInfo(HttpApi(apiId, name, "WEBSOCKET", [stageName]), stageName, profile));
      && row.wafVersion != "v2"
      && CountedInTotal(ApigwRules, row)
      && CountedWithWaf(ApigwRules, row)
  {
    HttpApiStageCounting(HttpApi(apiId, name, "WEBSOCKET", [stageName]), stageName, profile);
  }

  /** The rule as intended: no stage of an HTTP or WebSocket API is counted
      as protected, and for REST API stages the intended rule counts exactly
      what the written one counts. */
  lemma IntendedApigwCounting(httpApi: HttpApi, httpStage: string, restApi: RestApi, restStage: string,
                              region: string, wafv2: WebAclLookup, wafRegional: WebAclLookup, profile: ProfileInfo)
    ensures var row := ApigwCsvRow(HttpApiStageInfo(httpApi, httpStage, profile));
      CountedInTotal(ApigwRulesIntended, row) && !CountedWithWaf(ApigwRulesIntended, row)
    ensures var row := ApigwCsvRow(RestApiStageInfo(restApi, restStage, region, wafv2, wafRegional, profile));
      && (CountedInTotal(ApigwRulesIntended, row) <==> CountedInTotal(ApigwRules, row))
      && (CountedWithWaf(ApigwRulesIntended, row) <==> CountedWithWaf(ApigwRules, row))
  {
    LowerOfConstants();
    assert Lower("v2") == "v2";
    assert Lower(NotApplicable) != "v2";
  }
}
