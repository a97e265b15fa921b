# WAF coverage and AWS SSO profile scripts, modelled in Dafny

The repository holds small operational Python scripts for AWS accounts
reached through SSO profiles. This project models and verifies the core of
five of them.

- **Profile catalogue.**
  - `aws-sso-profiles-get.py` exports the SSO profiles of an AWS CLI config to a profiles CSV (`sso_session, profile_name, account_id`).
  - `aws-sso-profiles-set.py` builds a config with one `profile <name>` section per CSV row. The section carries five options.
- **Scanners.**
  - `waf-coverage-get-info.py` walks each profile's load balancers (v2 and classic), CloudFront distributions and API Gateway stages (HTTP/WebSocket and REST). It writes one flat record per resource. Each record names the associated web application firewall (WAF) WebACL and its version: `v2` for WAFv2, `v1` for WAF Classic/Regional, `None` for none, `N/A` where no firewall applies.
  - `waf-coverage.py` is its older variant. It covers load balancers and CloudFront only, asks WAFv2 only, and has no `waf_version` or `profile_prefix` column.
- **Aggregator.** `waf-coverage-calculate.py` reads the three CSV files back. Per profile prefix (the profile name up to its first `-`), it counts the resources in scope and those protected by a firewall. It adds the three families up and turns each pair of counts into a coverage percentage.

Each AWS response is an input value. Inventories arrive already paginated as
sequences. A WebACL lookup is a function from an ARN to `Option<name>`. The
WAF Classic name lookup is a function from a WebACL id to a name. The parsed
config is a sequence of sections. A CSV file is a sequence of records.

Modules:
- `Wrappers`: Option, Result and `dict.get` with a default.
- `Text`: the parts of Python's `str` that the scripts use (`lower`, `split`, `replace`).
- `CoverageCalc`: the aggregator.
- `CoverageScan`: the scanners.
- `LegacyScan`: the older scanner.
- `ScanToCoverage`: which scanned resources the aggregator counts, and how.
- `AwsConfig`: the part of `configparser` the SSO scripts use, as a class with a mutable section list.
- `SsoProfilesGet`, `SsoProfilesSet` and `SsoRoundTrip`: the two profile scripts and how they invert each other.

The model follows what the code does, including where that is easy to
misread:
- A repeated profile name makes `add_section` raise `DuplicateSectionError` and no config is written. It does not silently overwrite the earlier section.
- The profile-section name is built from `profile_name`.
- `configparser.read` ignores a config file that does not exist, so the export has no "unreadable config" error of its own.
- The export-then-rebuild round trip holds only when exported profile names are distinct and contain no further `profile `, because the export uses `str.replace`.

## Model

| member | source | states |
|---|---|---|
| CoverageCalc.WafCountAtMostTotal | waf-coverage-calculate.py:65-71 | a row reaches the protected increment only after the total increment, so per prefix the protected count never exceeds the total |
| CoverageCalc.AppendRow | waf-coverage-calculate.py:59-71 | one more row changes only its own prefix's counters: +1 total when it is in scope, +1 protected when it is also protected |
| CoverageCalc.TalliesWellFormed | waf-coverage-calculate.py:43-49 | counters that hold the row counts have every total at least 1 and every protected count at most its total, under a key of the total |
| CoverageCalc.Tally | waf-coverage-calculate.py:54-73 | the shared counting loop: a prefix is a key of a counter iff some row reached that increment, and the value is the number of such rows |
| CoverageCalc.CountCloudFrontWithWaf | waf-coverage-calculate.py:35-51 | CloudFront counters hold the row counts; every prefix of any row is a key of the total |
| CoverageCalc.CloudFrontEveryRowCounted | waf-coverage-calculate.py:42-44 | a prefix has a CloudFront total iff some row carries that prefix |
| CoverageCalc.CountElbWithWaf | waf-coverage-calculate.py:54-73 | load-balancer counters hold the row counts; a row marked to be ignored, internal or network is in neither counter, and a classic row, a v1 row or one without a firewall only in the total (case-insensitively) |
| CoverageCalc.CountApigwWithWaf | waf-coverage-calculate.py:76-95 | API Gateway counters hold the row counts; a private row is in neither counter, and an HTTP row, a v1 row or one without a firewall only in the total |
| CoverageCalc.CountApigwWithWafIntended | waf-coverage-calculate.py:89-91 | corrected rule: the API Gateway counters under "protected only with a v2 firewall"; every prefix with a protected count has a row whose waf_version is v2 |
| CoverageCalc.IntendedAgainstWritten | waf-coverage-calculate.py:84-93 | the corrected rule counts the same totals as the written one, never more protected stages, and only stages with a v2 firewall |
| CoverageCalc.GenerateProfilePrefixes | waf-coverage-calculate.py:98-103 | the prefixes are exactly the keys of the totals of the given families |
| CoverageCalc.PrefixesOfThree | waf-coverage-calculate.py:111 | for three families, the prefixes are the union of their three key sets |
| CoverageCalc.SummaryWellFormed | waf-coverage-calculate.py:113-122 | summing well-formed family counters gives well-formed counters |
| CoverageCalc.SummarizeWafInfo | waf-coverage-calculate.py:106-124 | summary keys are the union of the family totals' keys; each combined count is the sum of the family counts, a missing prefix counting 0 |
| CoverageCalc.Percentage | waf-coverage-calculate.py:29 | the percentage times the total is 100 × the protected count; it is 0 iff nothing is protected and 100 iff everything is |
| CoverageCalc.PercentageBounds | waf-coverage-calculate.py:29 | with 0 < total and protected ≤ total the percentage lies in [0, 100] |
| CoverageCalc.CalculateWafCoverage | waf-coverage-calculate.py:20-32 | one percentage per key of the total, the protected count defaulting to 0; ZeroDivisionError iff some total is 0, which well-formed counters exclude, and then each percentage lies in [0, 100] |
| CoverageCalc.SummaryOfTallies | waf-coverage-calculate.py:177-183 | the summary of the three tallies counts, per prefix, the in-scope and protected rows of all three files together |
| CoverageCalc.CoverageOfTally | waf-coverage-calculate.py:20-32 | the coverage computed from a family's counters is, per prefix, 100 × that prefix's protected rows / its rows in scope |
| CoverageCalc.Report | waf-coverage-calculate.py:177-190 | none of the four coverages divides by zero; each has a percentage exactly for the prefixes with a resource in scope; each family's percentage is 100 × its protected rows / its in-scope rows, and the summary's the same over all three files; all lie in [0, 100] |
| CoverageScan.GenerateBasicInfo | waf-coverage-get-info.py:36-42 | session, name and account are copied; the prefix is the part of the name before its first '-' (the whole name without one) |
| CoverageScan.FirewallAssociation | waf-coverage-get-info.py:117-132 | the WAFv2 WebACL with version v2 if WAFv2 answers; else the WAF Regional WebACL with version v1 if that answers; else None/None |
| CoverageScan.ElbV2Info | waf-coverage-get-info.py:92-134 | a network balancer gets N/A/N/A, an application balancer the v2-then-v1 lookup, any other type None/None; ignored iff a tag key equals et:waf-ignore |
| CoverageScan.GetElbV2Info | waf-coverage-get-info.py:88-136 | exactly one record per balancer, in input order, each as ElbV2Info describes |
| CoverageScan.ElbV1Info | waf-coverage-get-info.py:144-154 | a classic balancer's record: its name and scheme, version v1, type classic, N/A firewall and version, never ignored |
| CoverageScan.GetElbV1Info | waf-coverage-get-info.py:139-158 | one record per classic balancer, in order, with version v1, type classic, N/A firewall and version, never marked ignored |
| CoverageScan.DistributionName | waf-coverage-get-info.py:166 | the first alias when there is one, else the domain name |
| CoverageScan.CloudFrontFirewall | waf-coverage-get-info.py:167-179 | an empty id gives None/None; an id with '/' gives version v2 and a name without '/'; a bare id gives the WAF Classic lookup's name with version v1 |
| CoverageScan.WebAclArnName | waf-coverage-get-info.py:171-175 | for a WAFv2 ARN ending in `/name/id` the firewall is `name`, version v2 |
| CoverageScan.WebAclSingleSlash | waf-coverage-get-info.py:171-175 | for an id `name/id` the firewall is `name`, version v2 |
| CoverageScan.CloudFrontInfo | waf-coverage-get-info.py:166-188 | a distribution's record: its id, its display name, and the firewall CloudFrontFirewall gives for its WebACLId |
| CoverageScan.GetCloudFrontInfo | waf-coverage-get-info.py:161-192 | exactly one record per distribution, in order, with the display name and the firewall described above |
| CoverageScan.FlattenLength | waf-coverage-get-info.py:204-220 | the stage records of all APIs number the sum of the stage counts |
| CoverageScan.FlattenMember | waf-coverage-get-info.py:204-220 | a record is among all stage records iff it is among the records of some API |
| CoverageScan.HttpApiStageInfo | waf-coverage-get-info.py:201-217 | an HTTP/WebSocket stage's record: the API's id, name and protocol, endpoint REGIONAL, N/A firewall and version |
| CoverageScan.HttpApiRecords | waf-coverage-get-info.py:195-222 | one record per stage of each HTTP/WebSocket API, each REGIONAL with N/A firewall and version |
| CoverageScan.GetApiGatewayV2Info | waf-coverage-get-info.py:195-222 | the records are those of each API's stages, API by API and stage by stage, in order |
| CoverageScan.StageArn | waf-coverage-get-info.py:243 | the stage ARN starts with `arn:aws:apigateway:{region}` and ends with the stage name |
| CoverageScan.RestApiStageInfo | waf-coverage-get-info.py:243-264 | a REST stage record has protocol REST, its API's endpoint type, and the v2-then-v1 firewall of `arn:aws:apigateway:{region}::/restapis/{id}/stages/{stage}` |
| CoverageScan.RestApiRecords | waf-coverage-get-info.py:225-269 | one record per stage of each REST API, each carrying the firewall of its own stage ARN |
| CoverageScan.GetApiGatewayV1Info | waf-coverage-get-info.py:225-269 | the records are those of each REST API's stages, in order |
| LegacyScan.LegacyElbV2Info | waf-coverage.py:68-88 | network gives N/A, application the WAFv2 WebACL name or None, other types None; ignored iff a tag key equals et:waf-ignore |
| LegacyScan.GetLegacyElbV2Info | waf-coverage.py:59-92 | exactly one record per balancer, in order |
| LegacyScan.LegacyElbV1Info | waf-coverage.py:99-110 | a classic balancer's legacy record: its name and scheme, v1, classic, N/A firewall, not ignored |
| LegacyScan.GetLegacyElbV1Info | waf-coverage.py:95-114 | one record per classic balancer: classic, v1, N/A, not ignored |
| LegacyScan.LegacyElbV2Agrees | waf-coverage.py:82-88 | the legacy record matches the current one except where the current one falls back to a WAF Regional WebACL, which the legacy one records as None |
| LegacyScan.LegacyCloudFrontWaf | waf-coverage.py:123 | an empty id gives None; a non-empty id fails with IndexError iff it has no '/'; a result never holds '/' |
| LegacyScan.LegacyCloudFrontInfo | waf-coverage.py:121-132 | a distribution fails with IndexError iff its WebACLId is non-empty without '/'; otherwise its record has its id, display name and the legacy firewall name |
| LegacyScan.GetLegacyCloudFrontInfo | waf-coverage.py:117-136 | one record per distribution in order if no id fails, otherwise the IndexError and no records |
| LegacyScan.LegacyCloudFrontAgrees | waf-coverage.py:122-123 | where the legacy scanner records a distribution it names the same firewall as the current one; it fails exactly on WAF Classic ids and on the id "None" |
| LegacyScan.ClassicWebAclIdAbortsScan | waf-coverage.py:123 | any non-empty WebACLId without '/' (a WAF Classic id) fails with IndexError, so a list holding such a distribution makes the legacy scan fail |
| ScanToCoverage.ElbCsvRow | waf-coverage-get-info.py:303-307 | the load-balancer row read back is grouped under the record's prefix; its ignore flag lower-cases to "true" iff the record was marked; scheme, type and firewall fields are the record's |
| ScanToCoverage.CloudFrontCsvRow | waf-coverage-get-info.py:310-314 | the CloudFront row read back is grouped under the record's prefix and has its firewall name and version |
| ScanToCoverage.ApigwCsvRow | waf-coverage-get-info.py:317-321 | the API Gateway row read back is grouped under the record's prefix and has its endpoint type, protocol, firewall name and version |
| ScanToCoverage.LowerOfConstants | waf-coverage-calculate.py:46-90 | the lower-cased values the scanners write compared with the words the aggregator tests |
| ScanToCoverage.ElbV2Counting | waf-coverage-calculate.py:62-69 | a v2 balancer is in scope iff not ignored, not internal and not network; it is protected iff in addition it is an application balancer with a WAFv2 WebACL not named "none" |
| ScanToCoverage.IgnoredBalancerNotCounted | waf-coverage-calculate.py:62-63 | a balancer tagged et:waf-ignore changes neither counter |
| ScanToCoverage.ElbV1Counting | waf-coverage-calculate.py:62-69 | a classic balancer is in scope iff not internal and is never protected |
| ScanToCoverage.CloudFrontCounting | waf-coverage-calculate.py:42-49 | every distribution is in scope; it is protected iff its WebACLId is a WAFv2 ARN whose WebACL name is not "none" |
| ScanToCoverage.RestApiStageCounting | waf-coverage-calculate.py:84-93 | a REST stage is in scope iff not private; it is protected iff in addition WAFv2 answers a WebACL for its ARN not named "none" |
| ScanToCoverage.HttpApiStageCounting | waf-coverage-calculate.py:84-93 | an HTTP/WebSocket stage is always in scope; it is protected iff its protocol is not HTTP, though its waf_version is N/A |
| ScanToCoverage.WebSocketStageCountedAsProtected | waf-coverage-calculate.py:89-91 | as written: a WebSocket stage without a firewall is counted as protected |
| ScanToCoverage.IntendedApigwCounting | waf-coverage-calculate.py:89-91 | corrected rule: no HTTP/WebSocket stage is protected, and REST stages are counted as before |
| Text.Lower | waf-coverage-calculate.py:46 | `str.lower` keeps the length and lower-cases each ASCII letter |
| Text.Split | waf-coverage-get-info.py:39 | `str.split(sep)` gives one more piece than there are separators, none holding the separator |
| Text.OccurrencesPositive | waf-coverage-get-info.py:171-175 | the separator occurs at least once iff it is in the text, so a text holding '/' splits into at least two pieces |
| Text.SplitJoin | waf-coverage-get-info.py:171 | joining the pieces with the separator gives the text back |
| Text.SplitWithoutSeparator | waf-coverage-get-info.py:171-178 | a text without the separator is a single piece |
| Text.SplitAt | waf-coverage-get-info.py:171-175 | splitting around one separator splits both sides independently |
| Text.SplitHead | waf-coverage-get-info.py:39 | the first piece is the prefix before the first separator, or the whole text |
| Text.ReplaceAll | aws-sso-profiles-get.py:26 | `str.replace` with a replacement no longer than the pattern never lengthens the text, and with one of equal length keeps its length |
| Text.ReplaceAllAbsent | aws-sso-profiles-get.py:26 | `replace` of a pattern that does not occur changes nothing |
| Text.ReplaceAllLeading | aws-sso-profiles-get.py:26 | `replace` removes a leading occurrence and goes on with the rest |
| AwsConfig.Names | aws-sso-profiles-get.py:22 | the section names, in order |
| AwsConfig.Lookup | aws-sso-profiles-get.py:30 | `get` without a fallback: NoSectionError for a missing section, the value of a present option, NoOptionError for a missing one |
| AwsConfig.ConfigParser.SectionNames | aws-sso-profiles-get.py:22 | `sections()` lists the section names in order |
| AwsConfig.ConfigParser.Get | aws-sso-profiles-get.py:30 | `get` without a fallback: NoSectionError for a missing section; in a section that is present, the option's value, or NoOptionError when the option is missing; a value found belongs to that section's option |
| AwsConfig.ConfigParser.GetWithFallback | aws-sso-profiles-get.py:27 | `get` with a fallback: the value when found, else the fallback |
| AwsConfig.ConfigParser.AddSection | aws-sso-profiles-set.py:24 | appends an empty section; a present name raises DuplicateSectionError and DEFAULT raises ValueError, leaving the sections unchanged; names stay distinct |
| AwsConfig.ConfigParser.Set | aws-sso-profiles-set.py:26-31 | stores the option in the named section only; a missing section raises NoSectionError and changes nothing |
| SsoProfilesGet.Qualifies | aws-sso-profiles-get.py:23-29 | a section that is exported is named `profile …` and has an sso_session other than "Unknown"; a profile section without sso_session is skipped |
| SsoProfilesGet.ProfileNameOf | aws-sso-profiles-get.py:26 | the profile name is never longer than the section name; it is the section name itself when that holds no `profile `, and the part after the leading `profile ` when no other occurs |
| SsoProfilesGet.RowOf | aws-sso-profiles-get.py:26-31 | a row carries the section's session (never "Unknown") and account id |
| SsoProfilesGet.SsoRowsFromSections | aws-sso-profiles-get.py:22-31 | every exported row is the row of some section named `profile …` with a known SSO session |
| SsoProfilesGet.ExportOf | aws-sso-profiles-get.py:22-31 | the export writes at most one row per section, and the only error it raises is NoOptionError for sso_account_id in a `profile …` section |
| SsoProfilesGet.QualifyingSections | aws-sso-profiles-get.py:22-29 | the sections the export writes a row for are sections of the config, each named `profile …` with a known session |
| SsoProfilesGet.SsoRowsOfQualifying | aws-sso-profiles-get.py:22-31 | without a missing account id, the rows are those of the qualifying sections, one each, in order |
| SsoProfilesGet.ExportComplete | aws-sso-profiles-get.py:22-31 | the export raises nothing iff every qualifying section has an account id, and then writes exactly the rows of the qualifying sections in order |
| SsoProfilesGet.ErrorSticks | aws-sso-profiles-get.py:30 | once NoOptionError is raised, later sections change nothing |
| SsoProfilesGet.ExportStopsAtFirstMissing | aws-sso-profiles-get.py:29-31 | with a missing account id the export raises NoOptionError for the first qualifying section without one, after writing the rows of the sections before it |
| SsoProfilesGet.ExportProfiles | aws-sso-profiles-get.py:18-31 | the header is sso_session, profile_name, account_id; the rows and the error are those of the export of the config's sections |
| SsoProfilesSet.DefaultSettings | aws-sso-profiles-set.py:8-9 | region defaults to us-east-1 and output to json |
| SsoProfilesSet.ProfileOptions | aws-sso-profiles-set.py:26-31 | a section holds exactly sso_session, sso_account_id, sso_role_name, region and output, from the row and the settings |
| SsoProfilesSet.BuildConfig | aws-sso-profiles-set.py:20-31 | a built config has one section per row; the only error is DuplicateSectionError on a `profile …` name |
| SsoProfilesSet.SectionNameInjective | aws-sso-profiles-set.py:23 | two rows with the same section name `profile <name>` have the same profile name |
| SsoProfilesSet.BuildConfigShape | aws-sso-profiles-set.py:20-31 | a built config has one section per row, in order, holding the row's name, session, account and the settings |
| SsoProfilesSet.BuildConfigContents | aws-sso-profiles-set.py:20-31 | the config is built iff profile names are distinct, and then has one section per row, in order, named `profile <name>`, with distinct names |
| SsoProfilesSet.DuplicateSticks | aws-sso-profiles-set.py:24 | after a DuplicateSectionError later rows change nothing |
| SsoProfilesSet.BuildConfigStep | aws-sso-profiles-set.py:23-31 | each row either adds its section or fails on a name already present |
| SsoProfilesSet.SetProfileOptions | aws-sso-profiles-set.py:26-31 | the five `set` calls fill the freshly added section and touch no other |
| SsoProfilesSet.SetProfiles | aws-sso-profiles-set.py:20-31 | the ConfigParser loop ends with exactly the sections of the specification, or with its DuplicateSectionError |
| SsoRoundTrip.ProfileNameOfSectionName | aws-sso-profiles-get.py:26 | stripping `profile ` from `profile <name>` gives `name` back when `name` holds no `profile ` |
| SsoRoundTrip.RowOfBuiltSection | aws-sso-profiles-get.py:22-31 | the section written for a row with a known session and no inner `profile ` qualifies for export and is exported as that row |
| SsoRoundTrip.ExportOfBuild | aws-sso-profiles-set.py:20-31 | building from rows with distinct names, known sessions and no inner `profile `, then exporting, gives the same rows without error |
| SsoRoundTrip.NestedPrefixNotRestored | aws-sso-profiles-get.py:26 | a profile named `profile x` comes back as `x` |
| SsoRoundTrip.SectionNameOfRow | aws-sso-profiles-set.py:23 | a qualifying section `profile <x>` whose `<x>` holds no `profile ` is rebuilt under its own name |
| SsoRoundTrip.BuildOfExport | aws-sso-profiles-get.py:22-31 | exporting a config whose exported names are distinct and hold no inner `profile `, then rebuilding, gives one section per qualifying section, in order, with its name, sso_session and sso_account_id |

## Left out

- boto3 sessions, clients, paginators and the `get_web_acl*`, `describe_tags` and `get_stages` calls. Inventories and answers are inputs. API failures and throttling are not modelled.
- The orchestration over the profiles CSV (`read_profiles_from_csv`, `scan_waf_coverage_for_profiles_from_csv`) and the CSV files written per family. Each scanner is modelled for one profile.
- CSV reading and writing. It is modelled only as the record-to-row maps of `ScanToCoverage`: a bool is written as `True`/`False`, every other field as its text.
- The INI text `configparser` reads and writes. The config is its parsed section list. Key case folding, interpolation and the DEFAULT section's inherited values are not modelled.
- AwsConfig.ConfigParser.Set: configparser sends an empty section name or DEFAULT to its defaults and stores a default value there; the model, which has no DEFAULT section, answers NoSectionError for both. The scripts only ever pass `profile <name>`.
- `argparse` and the path derivation with `splitext` and `expanduser`. The scanner writes `…-for-elb.csv` files while the aggregator reads `…_for_elb.csv`. That is a file-naming matter outside the model.
- `tqdm`, `print`, `tabulate` and the debug and coverage tables.
- The float formatting `"{:.2f}%"`. A coverage is the exact ratio 100 × protected / total.
- Text.Lower: lower-cases ASCII letters only, while Python's `str.lower` also folds other Unicode letters. Every value compared after lowering is matched against an ASCII word.
- CoverageScan.DistributionName: `Aliases.Quantity` is taken to be the number of alias items.
- CoverageScan.RestApiStageInfo: a REST API's endpoint types are reduced to the first one, which is the only one the script reads.
- The region of an API Gateway client is a parameter.

## Findings

| source | as written | input that shows it | evidently intended | confidence | as-written member | corrected member |
|---|---|---|---|---|---|---|
| waf-coverage-calculate.py:89-91 | an API Gateway row is kept out of the protected count only for protocol http, waf_version v1 or associated_waf none | a WebSocket API stage: protocol WEBSOCKET, waf_version N/A, associated_waf N/A, counted as protected | the comment on line 89 says the rule equals waf_version == 'v2', so such a stage is not protected | not executed; high | ScanToCoverage.WebSocketStageCountedAsProtected | CoverageCalc.CountApigwWithWafIntended |
| waf-coverage.py:123 | the second-to-last '/'-piece of a non-empty WebACLId is taken unconditionally | a distribution with any non-empty WAF Classic WebACLId (no '/'), e.g. `a1b2`, raises IndexError and ends the scan | record the WAF Classic WebACL with version v1, as the current scanner does at waf-coverage-get-info.py:170-179 | not executed; medium | LegacyScan.ClassicWebAclIdAbortsScan | CoverageScan.GetCloudFrontInfo |
