/** The coverage aggregator (waf-coverage-calculate.py): it folds the rows of
    the three per-family scan CSV files into per-prefix counters of resources
    in scope and resources with a firewall, adds the three families up per
    prefix, and turns each pair of counters into a percentage. */
module CoverageCalc {
  import opened Wrappers
  import opened Text

  /** One row of the load-balancer CSV, reduced to the columns read here.
      Every value is the text the CSV holds. */
  datatype ElbRow = ElbRow(
    profilePrefix: string,
    markedAsWafIgnore: string,
    scheme: string,
    lbType: string,
    wafVersion: string,
    associatedWaf: string)

  /** One row of the CloudFront CSV, reduced to the columns read here. */
  datatype CloudFrontRow = CloudFrontRow(
    profilePrefix: string,
    wafVersion: string,
    associatedWaf: string)

  /** One row of the API Gateway CSV, reduced to the columns read here. */
  datatype ApigwRow = ApigwRow(
    profilePrefix: string,
    endpointType: string,
    protocol: string,
    wafVersion: string,
    associatedWaf: string)

  /** The pair of defaultdict(int) counters of one family, or of the summary:
      prefix -> resources counted, prefix -> resources counted as protected. */
  datatype Counters = Counters(total: map<string, nat>, waf: map<string, nat>)

  /** How one family is counted: the key a row is grouped under, the test
      that skips the row entirely (the first `continue`) and the test that
      keeps an already counted row out of the firewall count (the second). */
  datatype Rules<-R> = Rules(prefixOf: R -> string, skipsTotal: R -> bool, skipsWaf: R -> bool)

  predicate CountedInTotal<R>(rules: Rules<R>, row: R)
  {
    !rules.skipsTotal(row)
  }

  predicate CountedWithWaf<R>(rules: Rules<R>, row: R)
  {
    !rules.skipsTotal(row) && !rules.skipsWaf(row)
  }

  /** Number of rows grouped under `p` that reach the total increment. */
  function TotalCount<R>(rows: seq<R>, rules: Rules<R>, p: string): nat
  {
    if rows == [] then 0
    else
      var last := rows[|rows| - 1];
      TotalCount(rows[..|rows| - 1], rules, p)
        + (if rules.prefixOf(last) == p && CountedInTotal(rules, last) then 1 else 0)
  }

  /** Number of rows grouped under `p` that reach the firewall increment. */
  function WafCount<R>(rows: seq<R>, rules: Rules<R>, p: string): nat
  {
    if rows == [] then 0
    else
      var last := rows[|rows| - 1];
      WafCount(rows[..|rows| - 1], rules, p)
        + (if rules.prefixOf(last) == p && CountedWithWaf(rules, last) then 1 else 0)
  }

  /** A row is only counted as protected after it was counted in the total. */
  lemma {:induction false} WafCountAtMostTotal<R>(rows: seq<R>, rules: Rules<R>, p: string)
    ensures WafCount(rows, rules, p) <= TotalCount(rows, rules, p)
  {
    if rows != [] {
      WafCountAtMostTotal(rows[..|rows| - 1], rules, p);
    }
  }

  /** Appending one row to the input changes the counters of its own prefix
      only, by one in the total when the row is in scope and by one in the
      firewall count when it is also protected. */
  lemma AppendRow<R>(rows: seq<R>, rules: Rules<R>, row: R, p: string)
    ensures TotalCount(rows + [row], rules, p)
      == TotalCount(rows, rules, p) + (if rules.prefixOf(row) == p && !rules.skipsTotal(row) then 1 else 0)
    ensures WafCount(rows + [row], rules, p)
      == WafCount(rows, rules, p)
         + (if rules.prefixOf(row) == p && !rules.skipsTotal(row) && !rules.skipsWaf(row) then 1 else 0)
  {
    assert (rows + [row])[..|rows|] == rows;
  }

  /** The invariant of every pair of counters: each key of the total has a
      count of at least one (so no percentage divides by zero), and each key
      of the firewall count is a key of the total with a count no larger. */
  ghost predicate WellFormed(c: Counters)
  {
    && (forall p :: p in c.total ==> c.total[p] >= 1)
    && (forall p :: p in c.waf ==> p in c.total && c.waf[p] <= c.total[p])
  }

  /** `c` holds exactly the counts of `rows` under `rules`: a prefix is a key
      of a counter iff at least one row reached that counter's increment. */
  ghost predicate Tallies<R>(c: Counters, rows: seq<R>, rules: Rules<R>)
  {
    && (forall p :: p in c.total <==> TotalCount(rows, rules, p) > 0)
    && (forall p :: p in c.total ==> c.total[p] == TotalCount(rows, rules, p))
    && (forall p :: p in c.waf <==> WafCount(rows, rules, p) > 0)
    && (forall p :: p in c.waf ==> c.waf[p] == WafCount(rows, rules, p))
  }

  lemma TalliesWellFormed<R>(c: Counters, rows: seq<R>, rules: Rules<R>)
    requires Tallies(c, rows, rules)
    ensures WellFormed(c)
  {
    forall p | p in c.waf
      ensures p in c.total && c.waf[p] <= c.total[p]
    {
      WafCountAtMostTotal(rows, rules, p);
    }
  }

  /** The loop shared by count_cloudfront_with_waf, count_elb_with_waf and
      count_apigw_with_waf: one pass over the rows, incrementing the total of
      the row's prefix unless the row is skipped, then its firewall count
      unless the row is not protected. */
  method Tally<R>(rows: seq<R>, rules: Rules<R>) returns (c: Counters)
    ensures Tallies(c, rows, rules)
    ensures WellFormed(c)
  {
    var total: map<string, nat> := map[];
    var waf: map<string, nat> := map[];
    var i := 0;
    while i < |rows|
      invariant 0 <= i <= |rows|
      invariant Tallies(Counters(total, waf), rows[..i], rules)
    {
      var row := rows[i];
      var p := rules.prefixOf(row);
      assert rows[..i + 1] == rows[..i] + [row];
      forall q {
        AppendRow(rows[..i], rules, row, q);
      }
      if !rules.skipsTotal(row) {
        total := total[p := GetOr(total, p, 0) + 1];
        if !rules.skipsWaf(row) {
          waf := waf[p := GetOr(waf, p, 0) + 1];
        }
      }
      i := i + 1;
    }
    assert rows[..|rows|] == rows;
    c := Counters(total, waf);
    TalliesWellFormed(c, rows, rules);
  }

  // CloudFront: every row is in scope; a row is protected unless its
  // firewall is a v1 one or it has none.

  function CloudFrontPrefix(row: CloudFrontRow): string { row.profilePrefix }

  predicate CloudFrontSkipsTotal(row: CloudFrontRow) { false }

  predicate CloudFrontSkipsWaf(row: CloudFrontRow)
  {
    Lower(row.wafVersion) == "v1" || Lower(row.associatedWaf) == "none"
  }

  const CloudFrontRules: Rules<CloudFrontRow> :=
    Rules(CloudFrontPrefix, CloudFrontSkipsTotal, CloudFrontSkipsWaf)

  /** count_cloudfront_with_waf over the rows of the CloudFront CSV. */
  method CountCloudFrontWithWaf(rows: seq<CloudFrontRow>) returns (c: Counters)
    ensures Tallies(c, rows, CloudFrontRules)
    ensures forall p :: p in c.total <==> exists i :: 0 <= i < |rows| && rows[i].profilePrefix == p
    ensures WellFormed(c)
  {
    c := Tally(rows, CloudFrontRules);
    forall p ensures p in c.total <==> exists i :: 0 <= i < |rows| && rows[i].profilePrefix == p {
      CloudFrontEveryRowCounted(rows, p);
    }
  }

  /** Every CloudFront row is counted in the total of its prefix. */
  lemma {:induction false} CloudFrontEveryRowCounted(rows: seq<CloudFrontRow>, p: string)
    ensures TotalCount(rows, CloudFrontRules, p) > 0
        <==> exists i :: 0 <= i < |rows| && rows[i].profilePrefix == p
  {
    if rows != [] {
      var init := rows[..|rows| - 1];
      CloudFrontEveryRowCounted(init, p);
      if exists i :: 0 <= i < |init| && init[i].profilePrefix == p {
        var i :| 0 <= i < |init| && init[i].profilePrefix == p;
        assert rows[i] == init[i];
      }
      if exists i :: 0 <= i < |rows| && rows[i].profilePrefix == p {
        var i :| 0 <= i < |rows| && rows[i].profilePrefix == p;
        if i < |init| {
          assert init[i] == rows[i];
        }
      }
    }
  }

  // Load balancers: a row marked to be ignored, an internal one and a
  // network one are out of scope; a classic one, one with a v1 firewall and
  // one without a firewall are not protected.

  function ElbPrefix(row: ElbRow): string { row.profilePrefix }

  predicate ElbSkipsTotal(row: ElbRow)
  {
    || Lower(row.markedAsWafIgnore) == "true"
    || Lower(row.scheme) == "internal"
    || Lower(row.lbType) == "network"
  }

  predicate ElbSkipsWaf(row: ElbRow)
  {
    || Lower(row.lbType) == "classic"
    || Lower(row.wafVersion) == "v1"
    || Lower(row.associatedWaf) == "none"
  }

  const ElbRules: Rules<ElbRow> := Rules(ElbPrefix, ElbSkipsTotal, ElbSkipsWaf)

  /** count_elb_with_waf over the rows of the load-balancer CSV. */
  method CountElbWithWaf(rows: seq<ElbRow>) returns (c: Counters)
    ensures Tallies(c, rows, ElbRules)
    ensures WellFormed(c)
  {
    c := Tally(rows, ElbRules);
  }

  // API Gateway: a private endpoint is out of scope; an HTTP API, one with a
  // v1 firewall and one without a firewall are not protected.

  function ApigwPrefix(row: ApigwRow): string { row.profilePrefix }

  predicate ApigwSkipsTotal(row: ApigwRow)
  {
    Lower(row.endpointType) == "private"
  }

  predicate ApigwSkipsWaf(row: ApigwRow)
  {
    || Lower(row.protocol) == "http"
    || Lower(row.wafVersion) == "v1"
    || Lower(row.associatedWaf) == "none"
  }

  const ApigwRules: Rules<ApigwRow> := Rules(ApigwPrefix, ApigwSkipsTotal, ApigwSkipsWaf)

  /** count_apigw_with_waf over the rows of the API Gateway CSV. */
  method CountApigwWithWaf(rows: seq<ApigwRow>) returns (c: Counters)
    ensures Tallies(c, rows, ApigwRules)
    ensures WellFormed(c)
  {
    c := Tally(rows, ApigwRules);
  }

  // The rule as its own comment describes it: a stage is protected only when
  // its firewall is a WAFv2 WebACL. The written rule misses the WebSocket
  // APIs, whose stages carry no firewall (waf_version N/A) and are not HTTP.

  predicate ApigwSkipsWafIntended(row: ApigwRow)
  {
    ApigwSkipsWaf(row) || Lower(row.wafVersion) != "v2"
  }

  const ApigwRulesIntended: Rules<ApigwRow> := Rules(ApigwPrefix, ApigwSkipsTotal, ApigwSkipsWafIntended)

  /** count_apigw_with_waf with the corrected rule: every protected stage
      has a v2 firewall, and the protected count never exceeds what the
      written rule counts. */
  method CountApigwWithWafIntended(rows: seq<ApigwRow>) returns (c: Counters)
    ensures Tallies(c, rows, ApigwRulesIntended)
    ensures WellFormed(c)
    ensures forall p :: p in c.waf ==>
      exists i :: 0 <= i < |rows| && rows[i].profilePrefix == p && Lower(rows[i].wafVersion) == "v2"
  {
    c := Tally(rows, ApigwRulesIntended);
    forall p | p in c.waf
      ensures exists i :: 0 <= i < |rows| && rows[i].profilePrefix == p && Lower(rows[i].wafVersion) == "v2"
    {
      IntendedAgainstWritten(rows, p);
    }
  }

  /** The corrected rule counts the same totals as the written one and never
      more protected stages, and each stage it counts as protected has a v2
      firewall. */
  lemma {:induction false} IntendedAgainstWritten(rows: seq<ApigwRow>, p: string)
    ensures TotalCount(rows, ApigwRulesIntended, p) == TotalCount(rows, ApigwRules, p)
    ensures WafCount(rows, ApigwRulesIntended, p) <= WafCount(rows, ApigwRules, p)
    ensures WafCount(rows, ApigwRulesIntended, p) > 0 ==>
      exists i :: 0 <= i < |rows| && rows[i].profilePrefix == p && Lower(rows[i].wafVersion) == "v2"
  {
    if rows != [] {
      var init := rows[..|rows| - 1];
      IntendedAgainstWritten(init, p);
      if WafCount(init, ApigwRulesIntended, p) > 0 {
        var i :| 0 <= i < |init| && init[i].profilePrefix == p && Lower(init[i].wafVersion) == "v2";
        assert rows[i] == init[i];
      }
    }
  }

  /** generate_profile_prefixes: the union of the keys of the totals. */
  method GenerateProfilePrefixes(resources: seq<Counters>) returns (prefixes: set<string>)
    ensures forall p :: p in prefixes <==> exists i :: 0 <= i < |resources| && p in resources[i].total
  {
    prefixes := {};
    for i := 0 to |resources|
      invariant forall p :: p in prefixes <==> exists j :: 0 <= j < i && p in resources[j].total
    {
      prefixes := prefixes + resources[i].total.Keys;
    }
  }

  /** The sum of the three family totals of prefix `p`, a prefix missing
      from a family counting as zero. */
  function CombinedTotal(cloudfront: Counters, elb: Counters, apigw: Counters, p: string): nat
  {
    GetOr(cloudfront.total, p, 0) + GetOr(elb.total, p, 0) + GetOr(apigw.total, p, 0)
  }

  /** The sum of the three family firewall counts of prefix `p`. */
  function CombinedWaf(cloudfront: Counters, elb: Counters, apigw: Counters, p: string): nat
  {
    GetOr(cloudfront.waf, p, 0) + GetOr(elb.waf, p, 0) + GetOr(apigw.waf, p, 0)
  }

  /** `c` is the summary of the three families: its keys are the prefixes of
      any family total, and each of its counts is the sum of the three
      family counts, a prefix missing from a family counting as zero. */
  ghost predicate IsSummary(c: Counters, cloudfront: Counters, elb: Counters, apigw: Counters)
  {
    && c.total.Keys == cloudfront.total.Keys + elb.total.Keys + apigw.total.Keys
    && c.waf.Keys == c.total.Keys
    && (forall p :: p in c.total ==>
          c.total[p] == CombinedTotal(cloudfront, elb, apigw, p))
    && (forall p :: p in c.waf ==>
          c.waf[p] == CombinedWaf(cloudfront, elb, apigw, p))
  }

  /** Adding well-formed counters up keeps them well-formed. */
  lemma SummaryWellFormed(c: Counters, cloudfront: Counters, elb: Counters, apigw: Counters)
    requires IsSummary(c, cloudfront, elb, apigw)
    requires WellFormed(cloudfront) && WellFormed(elb) && WellFormed(apigw)
    ensures WellFormed(c)
  {
    forall p | p in c.total
      ensures c.total[p] >= 1
    {
      assert p in cloudfront.total || p in elb.total || p in apigw.total;
    }
    forall p | p in c.waf
      ensures c.waf[p] <= c.total[p]
    {
      assert GetOr(cloudfront.waf, p, 0) <= GetOr(cloudfront.total, p, 0);
      assert GetOr(elb.waf, p, 0) <= GetOr(elb.total, p, 0);
      assert GetOr(apigw.waf, p, 0) <= GetOr(apigw.total, p, 0);
    }
  }

  /** The prefixes of the three families are the union of their key sets. */
  lemma PrefixesOfThree(prefixes: set<string>, a: Counters, b: Counters, c: Counters)
    requires forall p :: p in prefixes <==> exists i :: 0 <= i < 3 && p in [a, b, c][i].total
    ensures prefixes == a.total.Keys + b.total.Keys + c.total.Keys
  {
    var rs := [a, b, c];
    assert rs[0] == a && rs[1] == b && rs[2] == c;
  }

  /** summarize_waf_info: per prefix of any family, the sums of the three
      families' counters. */
  method SummarizeWafInfo(cloudfront: Counters, elb: Counters, apigw: Counters) returns (c: Counters)
    ensures IsSummary(c, cloudfront, elb, apigw)
    ensures WellFormed(cloudfront) && WellFormed(elb) && WellFormed(apigw) ==> WellFormed(c)
  {
    var prefixes := GenerateProfilePrefixes([cloudfront, elb, apigw]);
    PrefixesOfThree(prefixes, cloudfront, elb, apigw);
    var total: map<string, nat> := map[];
    var waf: map<string, nat> := map[];
    var remaining := prefixes;
    while remaining != {}
      invariant remaining <= prefixes
      invariant total.Keys == prefixes - remaining
      invariant waf.Keys == prefixes - remaining
      invariant forall p :: p in total ==>
        total[p] == CombinedTotal(cloudfront, elb, apigw, p)
      invariant forall p :: p in waf ==>
        waf[p] == CombinedWaf(cloudfront, elb, apigw, p)
      decreases remaining
    {
      var p :| p in remaining;
      total := total[p := CombinedTotal(cloudfront, elb, apigw, p)];
      waf := waf[p := CombinedWaf(cloudfront, elb, apigw, p)];
      remaining := remaining - {p};
    }
    c := Counters(total, waf);
    if WellFormed(cloudfront) && WellFormed(elb) && WellFormed(apigw) {
      SummaryWellFormed(c, cloudfront, elb, apigw);
    }
  }

  /** The only exception calculate_waf_coverage can raise. */
  datatype CoverageError = ZeroDivisionError

  /** (waf_count / total_count) * 100, as an exact ratio rather than a float. */
  function Percentage(wafCount: nat, totalCount: nat): (r: real)
    requires totalCount > 0
    ensures r * totalCount as real == wafCount as real * 100.0
    ensures wafCount == 0 <==> r == 0.0
    ensures wafCount == totalCount <==> r == 100.0
  {
    var q := wafCount as real / totalCount as real;
    assert q * totalCount as real == wafCount as real;
    assert q * 100.0 * totalCount as real == wafCount as real * 100.0 by {
      assert q * 100.0 * totalCount as real == (q * totalCount as real) * 100.0;
    }
    assert wafCount == 0 ==> q == 0.0;
    assert wafCount == totalCount ==> (q - 1.0) * totalCount as real == 0.0;
    assert wafCount == totalCount ==> q == 1.0;
    q * 100.0
  }

  /** A percentage of at most as many protected resources as resources lies
      between 0 and 100. */
  lemma PercentageBounds(wafCount: nat, totalCount: nat)
    requires 0 < totalCount
    requires wafCount <= totalCount
    ensures 0.0 <= Percentage(wafCount, totalCount) <= 100.0
  {
    var q := wafCount as real / totalCount as real;
    assert q * totalCount as real == wafCount as real;
  }

  /** calculate_waf_coverage: a percentage for every prefix of the total, a
      prefix missing from the firewall count counting as zero protected
      resources; a total of zero raises ZeroDivisionError. */
  method CalculateWafCoverage(c: Counters) returns (r: Result<map<string, real>, CoverageError>)
    ensures r.Success? <==> forall p :: p in c.total ==> c.total[p] > 0
    ensures r.Success? ==> r.value.Keys == c.total.Keys
    ensures r.Success? ==> forall p :: p in r.value ==>
      c.total[p] > 0 && r.value[p] == Percentage(GetOr(c.waf, p, 0), c.total[p])
    ensures WellFormed(c) ==> r.Success? && forall p :: p in r.value ==> 0.0 <= r.value[p] <= 100.0
  {
    var results: map<string, real> := map[];
    var remaining := c.total.Keys;
    while remaining != {}
      invariant remaining <= c.total.Keys
      invariant results.Keys == c.total.Keys - remaining
      invariant forall p :: p in results ==>
        c.total[p] > 0 && results[p] == Percentage(GetOr(c.waf, p, 0), c.total[p])
      decreases remaining
    {
      var p :| p in remaining;
      var totalCount := c.total[p];
      var wafCount := GetOr(c.waf, p, 0);
      if totalCount == 0 {
        return Failure(ZeroDivisionError);
      }
      results := results[p := Percentage(wafCount, totalCount)];
      remaining := remaining - {p};
    }
    r := Success(results);
    if WellFormed(c) {
      forall p | p in results
        ensures 0.0 <= results[p] <= 100.0
      {
        PercentageBounds(GetOr(c.waf, p, 0), c.total[p]);
      }
    }
  }

  /** Resources of prefix `p` in scope, over the rows of all three files. */
  function RowsTotal(cloudfrontRows: seq<CloudFrontRow>, elbRows: seq<ElbRow>, apigwRows: seq<ApigwRow>, p: string): nat
  {
    TotalCount(cloudfrontRows, CloudFrontRules, p) + TotalCount(elbRows, ElbRules, p)
      + TotalCount(apigwRows, ApigwRules, p)
  }

  /** Protected resources of prefix `p`, over the rows of all three files. */
  function RowsWaf(cloudfrontRows: seq<CloudFrontRow>, elbRows: seq<ElbRow>, apigwRows: seq<ApigwRow>, p: string): nat
  {
    WafCount(cloudfrontRows, CloudFrontRules, p) + WafCount(elbRows, ElbRules, p)
      + WafCount(apigwRows, ApigwRules, p)
  }

  /** The summary of three tallies counts, per prefix, the rows of all three
      files together. */
  lemma SummaryOfTallies(s: Counters, cloudfront: Counters, elb: Counters, apigw: Counters,
                         cloudfrontRows: seq<CloudFrontRow>, elbRows: seq<ElbRow>, apigwRows: seq<ApigwRow>, p: string)
    requires Tallies(cloudfront, cloudfrontRows, CloudFrontRules)
    requires Tallies(elb, elbRows, ElbRules)
    requires Tallies(apigw, apigwRows, ApigwRules)
    requires IsSummary(s, cloudfront, elb, apigw)
    ensures p in s.total <==> RowsTotal(cloudfrontRows, elbRows, apigwRows, p) > 0
    ensures p in s.total ==> s.total[p] == RowsTotal(cloudfrontRows, elbRows, apigwRows, p)
    ensures p in s.total ==> GetOr(s.waf, p, 0) == RowsWaf(cloudfrontRows, elbRows, apigwRows, p)
  {
    WafCountAtMostTotal(cloudfrontRows, CloudFrontRules, p);
    WafCountAtMostTotal(elbRows, ElbRules, p);
    WafCountAtMostTotal(apigwRows, ApigwRules, p);
  }

  /** The coverage computed from a family's tally is, per prefix in scope,
      the percentage of that prefix's protected rows among its rows in
      scope. */
  lemma CoverageOfTally<R>(c: Counters, rows: seq<R>, rules: Rules<R>, coverage: map<string, real>)
    requires Tallies(c, rows, rules)
    requires forall p :: p in coverage ==>
      p in c.total && c.total[p] > 0 && coverage[p] == Percentage(GetOr(c.waf, p, 0), c.total[p])
    ensures forall p :: p in coverage ==>
      TotalCount(rows, rules, p) > 0 &&
      coverage[p] == Percentage(WafCount(rows, rules, p), TotalCount(rows, rules, p))
  {
    forall p | p in coverage
      ensures TotalCount(rows, rules, p) > 0
      ensures coverage[p] == Percentage(WafCount(rows, rules, p), TotalCount(rows, rules, p))
    {
      assert GetOr(c.waf, p, 0) == WafCount(rows, rules, p);
    }
  }

  /** The main block: count the three families, summarize them and compute
      the four coverages. None of the four divides by zero, each has a
      percentage exactly for the prefixes with at least one resource in
      scope, and every percentage lies between 0 and 100. */
  method Report(cloudfrontRows: seq<CloudFrontRow>, elbRows: seq<ElbRow>, apigwRows: seq<ApigwRow>)
    returns (cloudfrontCoverage: map<string, real>, elbCoverage: map<string, real>,
             apigwCoverage: map<string, real>, summarizedCoverage: map<string, real>)
    ensures forall p :: p in cloudfrontCoverage <==> TotalCount(cloudfrontRows, CloudFrontRules, p) > 0
    ensures forall p :: p in elbCoverage <==> TotalCount(elbRows, ElbRules, p) > 0
    ensures forall p :: p in apigwCoverage <==> TotalCount(apigwRows, ApigwRules, p) > 0
    ensures forall p :: p in summarizedCoverage <==> RowsTotal(cloudfrontRows, elbRows, apigwRows, p) > 0
    ensures forall p :: p in summarizedCoverage ==>
      RowsTotal(cloudfrontRows, elbRows, apigwRows, p) > 0 &&
      summarizedCoverage[p]
        == Percentage(RowsWaf(cloudfrontRows, elbRows, apigwRows, p), RowsTotal(cloudfrontRows, elbRows, apigwRows, p))
    ensures forall p :: p in cloudfrontCoverage ==>
      TotalCount(cloudfrontRows, CloudFrontRules, p) > 0 &&
      cloudfrontCoverage[p]
        == Percentage(WafCount(cloudfrontRows, CloudFrontRules, p), TotalCount(cloudfrontRows, CloudFrontRules, p))
    ensures forall p :: p in elbCoverage ==>
      TotalCount(elbRows, ElbRules, p) > 0 &&
      elbCoverage[p] == Percentage(WafCount(elbRows, ElbRules, p), TotalCount(elbRows, ElbRules, p))
    ensures forall p :: p in apigwCoverage ==>
      TotalCount(apigwRows, ApigwRules, p) > 0 &&
      apigwCoverage[p] == Percentage(WafCount(apigwRows, ApigwRules, p), TotalCount(apigwRows, ApigwRules, p))
    ensures forall p :: p in cloudfrontCoverage ==> 0.0 <= cloudfrontCoverage[p] <= 100.0
    ensures forall p :: p in elbCoverage ==> 0.0 <= elbCoverage[p] <= 100.0
    ensures forall p :: p in apigwCoverage ==> 0.0 <= apigwCoverage[p] <= 100.0
    ensures forall p :: p in summarizedCoverage ==> 0.0 <= summarizedCoverage[p] <= 100.0
  {
    var cloudfront := CountCloudFrontWithWaf(cloudfrontRows);
    var elb := CountElbWithWaf(elbRows);
    var apigw := CountApigwWithWaf(apigwRows);
    var summarized := SummarizeWafInfo(cloudfront, elb, apigw);

    var r1 := CalculateWafCoverage(cloudfront);
    var r2 := CalculateWafCoverage(elb);
    var r3 := CalculateWafCoverage(apigw);
    var r4 := CalculateWafCoverage(summarized);
    cloudfrontCoverage, elbCoverage, apigwCoverage, summarizedCoverage := r1.value, r2.value, r3.value, r4.value;

    CoverageOfTally(cloudfront, cloudfrontRows, CloudFrontRules, cloudfrontCoverage);
    CoverageOfTally(elb, elbRows, ElbRules, elbCoverage);
    CoverageOfTally(apigw, apigwRows, ApigwRules, apigwCoverage);
    forall p
      ensures p in summarizedCoverage <==> RowsTotal(cloudfrontRows, elbRows, apigwRows, p) > 0
      ensures p in summarizedCoverage ==>
        summarizedCoverage[p]
          == Percentage(RowsWaf(cloudfrontRows, elbRows, apigwRows, p), RowsTotal(cloudfrontRows, elbRows, apigwRows, p))
    {
      SummaryOfTallies(summarized, cloudfront, elb, apigw, cloudfrontRows, elbRows, apigwRows, p);
    }
  }
}
