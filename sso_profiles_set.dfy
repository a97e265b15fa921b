/** aws-sso-profiles-set.py: builds an AWS CLI config with one SSO profile
    section per row of the profiles CSV. */
module SsoProfilesSet {
  import opened Wrappers
  import opened AwsConfig
  import opened CoverageScan
  import opened SsoProfilesGet

  /** The command-line settings written into every profile. */
  datatype Settings = Settings(ssoRoleName: string, region: string, output: string)

  const DefaultRegion := "us-east-1"
  const DefaultOutput := "json"

  /** The settings when only the (required) role name is given. */
  function DefaultSettings(ssoRoleName: string): (s: Settings)
    ensures s.ssoRoleName == ssoRoleName && s.region == "us-east-1" && s.output == "json"
  {
    Settings(ssoRoleName, DefaultRegion, DefaultOutput)
  }

  /** The section name of a row's profile. */
  function SectionNameOf(row: ProfileInfo): string
  {
    ProfileSectionPrefix + row.profileName
  }

  /** The options of a row's profile section: exactly the five keys the
      script sets. */
  function ProfileOptions(row: ProfileInfo, settings: Settings): (m: map<string, string>)
    ensures m.Keys == {"sso_session", "sso_account_id", "sso_role_name", "region", "output"}
    ensures m["sso_session"] == row.ssoSession && m["sso_account_id"] == row.accountId
    ensures m["sso_role_name"] == settings.ssoRoleName
    ensures m["region"] == settings.region && m["output"] == settings.output
  {
    map[]["sso_session" := row.ssoSession]["sso_account_id" := row.accountId]
      ["sso_role_name" := settings.ssoRoleName]["region" := settings.region]["output" := settings.output]
  }

  /** The sections the script ends up with, or the DuplicateSectionError
      raised by the first row whose profile name was already used (in which
      case no config is written). */
  function BuildConfig(rows: seq<ProfileInfo>, settings: Settings): (r: Result<seq<Section>, ConfigError>)
    ensures r.Success? ==> |r.value| == |rows|
    ensures r.Failure? ==> r.error.DuplicateSectionError? && ProfileSectionPrefix <= r.error.section
  {
    if rows == [] then Success([])
    else
      var last := rows[|rows| - 1];
      match BuildConfig(rows[..|rows| - 1], settings)
      case Failure(e) => Failure(e)
      case Success(sections) =>
        if SectionNameOf(last) in Names(sections) then Failure(DuplicateSectionError(SectionNameOf(last)))
        else Success(sections + [Section(SectionNameOf(last), ProfileOptions(last, settings))])
  }

  /** No two rows share a profile name. */
  ghost predicate DistinctProfiles(rows: seq<ProfileInfo>)
  {
    forall i, j :: 0 <= i < j < |rows| ==> rows[i].profileName != rows[j].profileName
  }

  /** Different profile names give different section names. */
  lemma SectionNameInjective(a: ProfileInfo, b: ProfileInfo)
    ensures SectionNameOf(a) == SectionNameOf(b) ==> a.profileName == b.profileName
  {
    assert SectionNameOf(a)[|ProfileSectionPrefix|..] == a.profileName;
    assert SectionNameOf(b)[|ProfileSectionPrefix|..] == b.profileName;
  }

  /** A built config holds one section per row, in order, named after the
      row's profile and holding the row's session, account and the
      settings. */
  lemma {:induction false} BuildConfigShape(rows: seq<ProfileInfo>, settings: Settings)
    ensures BuildConfig(rows, settings).Success? ==>
      var sections := BuildConfig(rows, settings).value;
      && |sections| == |rows|
      && forall i :: 0 <= i < |rows| ==>
           sections[i] == Section(SectionNameOf(rows[i]), ProfileOptions(rows[i], settings))
  {
    if rows != [] {
      var init := rows[..|rows| - 1];
      BuildConfigShape(init, settings);
      if BuildConfig(rows, settings).Success? {
        var sections := BuildConfig(rows, settings).value;
        forall i | 0 <= i < |rows|
          ensures sections[i] == Section(SectionNameOf(rows[i]), ProfileOptions(rows[i], settings))
        {
          if i < |init| {
            assert rows[i] == init[i];
          }
        }
      }
    }
  }

  /** The config is built iff the profile names are distinct, and then it
      holds one section per row, in order, named after the row's profile and
      holding the row's session, account and the settings. */
  lemma {:induction false} BuildConfigContents(rows: seq<ProfileInfo>, settings: Settings)
    ensures BuildConfig(rows, settings).Success? <==> DistinctProfiles(rows)
    ensures BuildConfig(rows, settings).Success? ==>
      var sections := BuildConfig(rows, settings).value;
      && |sections| == |rows|
      && DistinctNames(sections)
      && forall i :: 0 <= i < |rows| ==>
           sections[i] == Section(SectionNameOf(rows[i]), ProfileOptions(rows[i], settings))
  {
    BuildConfigShape(rows, settings);
    if rows != [] {
      var init := rows[..|rows| - 1];
      var last := rows[|rows| - 1];
      BuildConfigContents(init, settings);
      BuildConfigShape(init, settings);
      assert DistinctProfiles(rows) ==> DistinctProfiles(init) by {
        forall i | 0 <= i < |init| ensures init[i] == rows[i] { }
      }
      if BuildConfig(init, settings).Success? {
        var sections := BuildConfig(init, settings).value;
        if SectionNameOf(last) in Names(sections) {
          var k :| 0 <= k < |sections| && Names(sections)[k] == SectionNameOf(last);
          assert rows[k] == init[k];
          SectionNameInjective(rows[k], last);
        } else {
          forall i, j | 0 <= i < j < |rows|
            ensures rows[i].profileName != rows[j].profileName
          {
            assert rows[i] == init[i];
            if j < |rows| - 1 {
              assert rows[j] == init[j];
            } else {
              assert SectionNameOf(init[i]) == Names(sections)[i];
            }
          }
        }
        if BuildConfig(rows, settings).Success? {
          var built := BuildConfig(rows, settings).value;
          forall i, j | 0 <= i < j < |built| ensures built[i].name != built[j].name {
            SectionNameInjective(rows[i], rows[j]);
          }
        }
      }
    }
  }

  /** Once a duplicate has been met, later rows change nothing. */
  lemma {:induction false} DuplicateSticks(rows: seq<ProfileInfo>, n: nat, settings: Settings)
    requires n <= |rows|
    requires BuildConfig(rows[..n], settings).Failure?
    ensures BuildConfig(rows, settings) == BuildConfig(rows[..n], settings)
    decreases |rows|
  {
    if n < |rows| {
      var init := rows[..|rows| - 1];
      assert init[..n] == rows[..n];
      DuplicateSticks(init, n, settings);
    } else {
      assert rows[..n] == rows;
    }
  }

  /** One step of BuildConfig: the next row adds its section, or fails on
      a name already present. */
  lemma BuildConfigStep(rows: seq<ProfileInfo>, i: nat, settings: Settings, sections: seq<Section>)
    requires i < |rows|
    requires BuildConfig(rows[..i], settings) == Success(sections)
    ensures SectionNameOf(rows[i]) in Names(sections) ==>
      BuildConfig(rows[..i + 1], settings) == Failure(DuplicateSectionError(SectionNameOf(rows[i])))
    ensures SectionNameOf(rows[i]) !in Names(sections) ==>
      BuildConfig(rows[..i + 1], settings)
        == Success(sections + [Section(SectionNameOf(rows[i]), ProfileOptions(rows[i], settings))])
  {
    assert rows[..i + 1][..i] == rows[..i];
  }

  /** The five config.set calls on a freshly added (empty) last section. */
  method SetProfileOptions(config: ConfigParser, row: ProfileInfo, settings: Settings)
    requires config.Valid()
    requires |config.sections| > 0
    requires config.sections[|config.sections| - 1] == Section(SectionNameOf(row), map[])
    modifies config
    ensures config.Valid()
    ensures config.sections
      == old(config.sections)[|old(config.sections)| - 1 := Section(SectionNameOf(row), ProfileOptions(row, settings))]
  {
    var name := ProfileSectionPrefix + row.profileName;
    var last := |config.sections| - 1;
    var err := config.Set(name, "sso_session", row.ssoSession);
    err := config.Set(name, "sso_account_id", row.accountId);
    err := config.Set(name, "sso_role_name", settings.ssoRoleName);
    err := config.Set(name, "region", settings.region);
    err := config.Set(name, "output", settings.output);
  }

  /** The script: for each row, add_section("profile <name>") and set the
      five options on it; a repeated profile name raises
      DuplicateSectionError before anything is written. */
  method SetProfiles(rows: seq<ProfileInfo>, settings: Settings) returns (r: Result<seq<Section>, ConfigError>)
    ensures r == BuildConfig(rows, settings)
  {
    var config := new ConfigParser();
    for i := 0 to |rows|
      invariant config.Valid()
      invariant BuildConfig(rows[..i], settings) == Success(config.sections)
    {
      var row := rows[i];
      BuildConfigStep(rows, i, settings, config.sections);
      var sectionName := ProfileSectionPrefix + row.profileName;
      assert sectionName != DefaultSectionName by {
        assert sectionName[0] == 'p';
      }
      ghost var before := config.sections;
      var err := config.AddSection(sectionName);
      if err.Some? {
        r := Failure(err.value);
        DuplicateSticks(rows, i + 1, settings);
        return;
      }
      SetProfileOptions(config, row, settings);
      assert config.sections == before + [Section(SectionNameOf(row), ProfileOptions(row, settings))];
    }
    assert rows[..|rows|] == rows;
    r := Success(config.sections);
  }
}
