/** aws-sso-profiles-get.py: exports the SSO profiles of an AWS CLI config
    to the profiles CSV (sso_session, profile_name, account_id) that the
    WAF coverage scanners read. */
module SsoProfilesGet {
  import opened Wrappers
  import opened Text
  import opened AwsConfig
  import opened CoverageScan

  /** The header row of the profiles CSV. */
  const ProfilesHeader: seq<string> := ["sso_session", "profile_name", "account_id"]

  /** The AWS CLI names a profile's section "profile <name>". */
  const ProfileSectionPrefix := "profile "

  /** The fallback that marks a profile without an SSO session. */
  const UnknownSession := "Unknown"

  /** A section is exported when its name starts with "profile " and it has
      an sso_session option other than "Unknown". */
  predicate Qualifies(s: Section)
    ensures Qualifies(s) ==> |s.name| >= |ProfileSectionPrefix| && s.name[..|ProfileSectionPrefix|] == "profile "
    ensures Qualifies(s) ==> "sso_session" in s.options && s.options["sso_session"] != UnknownSession
    ensures ProfileSectionPrefix <= s.name && "sso_session" !in s.options ==> !Qualifies(s)
  {
    ProfileSectionPrefix <= s.name && GetOr(s.options, "sso_session", UnknownSession) != UnknownSession
  }

  /** The profile name of a section: its name with every "profile " removed. */
  function ProfileNameOf(sectionName: string): (name: string)
    ensures |name| <= |sectionName|
    ensures !Occurs(ProfileSectionPrefix, sectionName) ==> name == sectionName
    ensures ProfileSectionPrefix <= sectionName && !Occurs(ProfileSectionPrefix, sectionName[|ProfileSectionPrefix|..]) ==>
      name == sectionName[|ProfileSectionPrefix|..]
  {
    var name := ReplaceAll(sectionName, ProfileSectionPrefix, "");
    if !Occurs(ProfileSectionPrefix, sectionName) then
      ReplaceAllAbsent(sectionName, ProfileSectionPrefix, "");
      name
    else if ProfileSectionPrefix <= sectionName && !Occurs(ProfileSectionPrefix, sectionName[|ProfileSectionPrefix|..]) then
      var rest := sectionName[|ProfileSectionPrefix|..];
      assert sectionName == ProfileSectionPrefix + rest;
      ReplaceAllLeading(ProfileSectionPrefix, rest, "");
      ReplaceAllAbsent(rest, ProfileSectionPrefix, "");
      name
    else name
  }

  /** A qualifying section lacks the account id that the export reads
      without a fallback. */
  predicate MissingAccount(s: Section)
  {
    Qualifies(s) && "sso_account_id" !in s.options
  }

  /** Every qualifying section has an account id. */
  ghost predicate Complete(sections: seq<Section>)
  {
    forall i :: 0 <= i < |sections| ==> !MissingAccount(sections[i])
  }

  /** The row of one qualifying section with an account id. */
  function RowOf(s: Section): (row: ProfileInfo)
    requires Qualifies(s) && "sso_account_id" in s.options
    ensures row.ssoSession == s.options["sso_session"] != UnknownSession
    ensures row.accountId == s.options["sso_account_id"]
  {
    ProfileInfo(s.options["sso_session"], ProfileNameOf(s.name), s.options["sso_account_id"])
  }

  /** The reference: the rows of the qualifying sections, in order. */
  function SsoRows(sections: seq<Section>): seq<ProfileInfo>
    requires Complete(sections)
  {
    if sections == [] then []
    else
      var last := sections[|sections| - 1];
      SsoRows(sections[..|sections| - 1]) + (if Qualifies(last) then [RowOf(last)] else [])
  }

  /** The sections the export writes a row for, in order. */
  function QualifyingSections(sections: seq<Section>): (q: seq<Section>)
    ensures forall i :: 0 <= i < |q| ==> Qualifies(q[i]) && q[i] in sections
  {
    if sections == [] then []
    else
      var last := sections[|sections| - 1];
      QualifyingSections(sections[..|sections| - 1]) + (if Qualifies(last) then [last] else [])
  }

  /** Without a missing account id, the exported rows are the rows of the
      qualifying sections, one each, in order. */
  lemma {:induction false} SsoRowsOfQualifying(sections: seq<Section>)
    requires Complete(sections)
    ensures var q := QualifyingSections(sections);
      && |SsoRows(sections)| == |q|
      && forall i :: 0 <= i < |q| ==>
           "sso_account_id" in q[i].options && SsoRows(sections)[i] == RowOf(q[i])
  {
    if sections != [] {
      var init := sections[..|sections| - 1];
      assert Complete(init);
      SsoRowsOfQualifying(init);
      var q := QualifyingSections(sections);
      forall i | 0 <= i < |q|
        ensures "sso_account_id" in q[i].options
      {
        var j :| 0 <= j < |sections| && sections[j] == q[i];
        assert !MissingAccount(sections[j]);
      }
    }
  }

  /** `row` is the row of some qualifying section of `sections`. */
  ghost predicate RowOfSomeSection(sections: seq<Section>, row: ProfileInfo)
  {
    exists j :: 0 <= j < |sections| && Qualifies(sections[j])
      && "sso_account_id" in sections[j].options && row == RowOf(sections[j])
  }

  /** Each exported row is the row of some qualifying section. */
  lemma {:induction false} SsoRowsFromSections(sections: seq<Section>)
    requires Complete(sections)
    ensures forall k :: 0 <= k < |SsoRows(sections)| ==> RowOfSomeSection(sections, SsoRows(sections)[k])
  {
    if sections != [] {
      var init := sections[..|sections| - 1];
      var last := sections[|sections| - 1];
      assert Complete(init);
      SsoRowsFromSections(init);
      assert SsoRows(sections) == SsoRows(init) + (if Qualifies(last) then [RowOf(last)] else []);
      forall k | 0 <= k < |SsoRows(sections)|
        ensures RowOfSomeSection(sections, SsoRows(sections)[k])
      {
        if k < |SsoRows(init)| {
          var j :| 0 <= j < |init| && Qualifies(init[j])
            && "sso_account_id" in init[j].options && SsoRows(init)[k] == RowOf(init[j]);
          assert sections[j] == init[j];
        } else {
          var j := |sections| - 1;
          assert sections[j] == last;
        }
      }
    }
  }

  /** What the export leaves behind: the rows written after the header, and
      the exception that stopped it, if any. */
  datatype Export = Export(rows: seq<ProfileInfo>, error: Option<ConfigError>)

  /** The export of a list of sections: stops at the first qualifying
      section without an account id, raising NoOptionError. */
  function ExportOf(sections: seq<Section>): (e: Export)
    ensures |e.rows| <= |sections|
    ensures e.error.Some? ==>
      && e.error.value == NoOptionError(e.error.value.section, "sso_account_id")
      && ProfileSectionPrefix <= e.error.value.section
  {
    if sections == [] then Export([], None)
    else
      var e := ExportOf(sections[..|sections| - 1]);
      var s := sections[|sections| - 1];
      if e.error.Some? || !Qualifies(s) then e
      else if "sso_account_id" in s.options then Export(e.rows + [RowOf(s)], None)
      else Export(e.rows, Some(NoOptionError(s.name, "sso_account_id")))
  }

  /** Without a missing account id the export writes exactly the rows of the
      qualifying sections and raises nothing. */
  lemma {:induction false} ExportComplete(sections: seq<Section>)
    ensures Complete(sections) <==> ExportOf(sections).error.None?
    ensures Complete(sections) ==> ExportOf(sections).rows == SsoRows(sections)
  {
    if sections != [] {
      var init := sections[..|sections| - 1];
      ExportComplete(init);
      assert Complete(sections) ==> Complete(init);
      if Complete(init) && !MissingAccount(sections[|sections| - 1]) {
        assert Complete(sections);
      }
    }
  }

  /** Once the export has failed, later sections change nothing. */
  lemma {:induction false} ErrorSticks(sections: seq<Section>, n: nat)
    requires n <= |sections|
    requires ExportOf(sections[..n]).error.Some?
    ensures ExportOf(sections) == ExportOf(sections[..n])
    decreases |sections|
  {
    if n < |sections| {
      var init := sections[..|sections| - 1];
      assert init[..n] == sections[..n];
      ErrorSticks(init, n);
    } else {
      assert sections[..n] == sections;
    }
  }

  /** With a missing account id, the export fails at the first qualifying
      section that lacks one, after writing the rows of the sections before
      it. */
  lemma {:induction false} ExportStopsAtFirstMissing(sections: seq<Section>)
    requires !Complete(sections)
    ensures exists j ::
      && 0 <= j < |sections| && MissingAccount(sections[j]) && Complete(sections[..j])
      && ExportOf(sections) == Export(SsoRows(sections[..j]), Some(NoOptionError(sections[j].name, "sso_account_id")))
  {
    var init := sections[..|sections| - 1];
    var last := sections[|sections| - 1];
    if Complete(init) {
      ExportComplete(init);
      assert MissingAccount(last);
      assert sections[..|sections| - 1] == init;
    } else {
      ExportStopsAtFirstMissing(init);
      var j :| 0 <= j < |init| && MissingAccount(init[j]) && Complete(init[..j])
        && ExportOf(init) == Export(SsoRows(init[..j]), Some(NoOptionError(init[j].name, "sso_account_id")));
      assert init[..j] == sections[..j];
      assert sections[j] == init[j];
    }
  }

  /** One step of the export: the next section is skipped, adds its row, or
      raises NoOptionError. */
  lemma ExportOfStep(sections: seq<Section>, i: nat)
    requires i < |sections|
    requires ExportOf(sections[..i]).error.None?
    ensures var s := sections[i];
      var e := ExportOf(sections[..i]);
      ExportOf(sections[..i + 1]) ==
        if !Qualifies(s) then e
        else if "sso_account_id" in s.options then Export(e.rows + [RowOf(s)], None)
        else Export(e.rows, Some(NoOptionError(s.name, "sso_account_id")))
  {
    assert sections[..i + 1][..i] == sections[..i];
  }

  /** The script: writes the header, then walks the sections in order,
      skipping those that are not profiles or have no SSO session, and
      writes one row per remaining section; a missing sso_account_id raises
      NoOptionError and ends the run, the rows written so far staying in the
      file. The config is only read. */
  method ExportProfiles(config: ConfigParser) returns (header: seq<string>, rows: seq<ProfileInfo>, err: Option<ConfigError>)
    requires config.Valid()
    ensures header == ProfilesHeader
    ensures Export(rows, err) == ExportOf(config.sections)
  {
    header := ProfilesHeader;
    rows := [];
    err := None;
    var names := config.SectionNames();
    for i := 0 to |names|
      invariant ExportOf(config.sections[..i]) == Export(rows, None)
    {
      ExportOfStep(config.sections, i);
      var section := names[i];
      if !(ProfileSectionPrefix <= section) {
        continue;
      }
      var profileName := ReplaceAll(section, ProfileSectionPrefix, "");
      var ssoSession := config.GetWithFallback(section, "sso_session", UnknownSession);
      if ssoSession != UnknownSession {
        var accountId := config.Get(section, "sso_account_id");
        if accountId.Failure? {
          err := Some(accountId.error);
          ErrorSticks(config.sections, i + 1);
          return;
        }
        rows := rows + [ProfileInfo(ssoSession, profileName, accountId.value)];
      }
    }
    assert config.sections[..|names|] == config.sections;
  }
}
