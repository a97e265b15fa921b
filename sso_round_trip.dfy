/** The two SSO profile scripts against each other: building a config from
    the profiles CSV and exporting it again gives the same rows back, under
    the conditions in which the export can restore them. */
module SsoRoundTrip {
  import opened Wrappers
  import opened Text
  import opened AwsConfig
  import opened CoverageScan
  import opened SsoProfilesGet
  import opened SsoProfilesSet

  /** Rows the export gives back as they were: their session is not the
      "Unknown" marker and their profile name does not itself contain
      "profile ", which the export would remove. */
  ghost predicate Restorable(rows: seq<ProfileInfo>)
  {
    forall i :: 0 <= i < |rows| ==>
      rows[i].ssoSession != UnknownSession && !Occurs(ProfileSectionPrefix, rows[i].profileName)
  }

  /** The section name of a row gives the row's profile name back. */
  lemma ProfileNameOfSectionName(row: ProfileInfo)
    requires !Occurs(ProfileSectionPrefix, row.profileName)
    ensures ProfileNameOf(SectionNameOf(row)) == row.profileName
  {
    ReplaceAllLeading(ProfileSectionPrefix, row.profileName, "");
    ReplaceAllAbsent(row.profileName, ProfileSectionPrefix, "");
  }

  /** The section built from a restorable row is exported as that row. */
  lemma RowOfBuiltSection(row: ProfileInfo, settings: Settings)
    requires row.ssoSession != UnknownSession && !Occurs(ProfileSectionPrefix, row.profileName)
    ensures var s := Section(SectionNameOf(row), ProfileOptions(row, settings));
      && Qualifies(s) && "sso_account_id" in s.options && RowOf(s) == row
  {
    ProfileNameOfSectionName(row);
  }

  /** Building the config and exporting it restores the rows, in order,
      without an error. */
  lemma {:induction false} ExportOfBuild(rows: seq<ProfileInfo>, settings: Settings)
    requires BuildConfig(rows, settings).Success?
    requires Restorable(rows)
    ensures ExportOf(BuildConfig(rows, settings).value) == Export(rows, None)
  {
    if rows != [] {
      var init := rows[..|rows| - 1];
      var last := rows[|rows| - 1];
      assert Restorable(init) by {
        forall i | 0 <= i < |init| ensures init[i] == rows[i] { }
      }
      ExportOfBuild(init, settings);
      var initSections := BuildConfig(init, settings).value;
      var s := Section(SectionNameOf(last), ProfileOptions(last, settings));
      var sections := initSections + [s];
      assert BuildConfig(rows, settings).value == sections;
      assert sections[..|sections| - 1] == initSections;
      RowOfBuiltSection(last, settings);
      assert ExportOf(sections) == Export(init + [last], None);
      assert init + [last] == rows;
    }
  }

  /** A profile whose name contains "profile " comes back without it. */
  lemma NestedPrefixNotRestored(settings: Settings)
    ensures var rows := [ProfileInfo("sso", "profile x", "1")];
      && BuildConfig(rows, settings).Success?
      && ExportOf(BuildConfig(rows, settings).value) == Export([ProfileInfo("sso", "x", "1")], None)
  {
    var row := ProfileInfo("sso", "profile x", "1");
    var rows := [row];
    assert rows[..0] == [];
    var s := Section(SectionNameOf(row), ProfileOptions(row, settings));
    assert BuildConfig([], settings) == Success([]);
    assert SectionNameOf(row) !in Names([]);
    assert rows[..|rows| - 1] == [];
    assert BuildConfig(rows[..|rows| - 1], settings) == Success([]);
    assert BuildConfig(rows, settings) == Success([] + [s]);
    assert [] + [s] == [s];
    assert [s][..0] == [];
    assert SectionNameOf(row) == ProfileSectionPrefix + (ProfileSectionPrefix + "x");
    ReplaceAllLeading(ProfileSectionPrefix, ProfileSectionPrefix + "x", "");
    ReplaceAllLeading(ProfileSectionPrefix, "x", "");
    ReplaceAllAbsent("x", ProfileSectionPrefix, "");
    assert ProfileNameOf(s.name) == "x";
  }

  /** A qualifying section named "profile <x>", with no inner "profile " in
      <x>, is rebuilt under its own name. */
  lemma SectionNameOfRow(s: Section)
    requires Qualifies(s) && "sso_account_id" in s.options
    requires !Occurs(ProfileSectionPrefix, s.name[|ProfileSectionPrefix|..])
    ensures SectionNameOf(RowOf(s)) == s.name
  {
    var x := s.name[|ProfileSectionPrefix|..];
    assert s.name == ProfileSectionPrefix + x;
    ProfileNameOfSectionName(ProfileInfo(s.options["sso_session"], x, s.options["sso_account_id"]));
  }

  /** Exporting a config and building a new one from the rows gives, when
      the exported names are distinct and no profile name holds an inner
      "profile ", one section per qualifying section, in order, with the
      same name, session and account. */
  lemma BuildOfExport(sections: seq<Section>, settings: Settings)
    requires Complete(sections)
    requires DistinctProfiles(ExportOf(sections).rows)
    requires forall j :: 0 <= j < |sections| && Qualifies(sections[j]) ==>
      !Occurs(ProfileSectionPrefix, sections[j].name[|ProfileSectionPrefix|..])
    ensures BuildConfig(ExportOf(sections).rows, settings).Success?
    ensures var built := BuildConfig(ExportOf(sections).rows, settings).value;
      var q := QualifyingSections(sections);
      && |built| == |q|
      && forall i :: 0 <= i < |q| ==>
        && built[i].name == q[i].name
        && "sso_session" in built[i].options && "sso_account_id" in built[i].options
        && built[i].options["sso_session"] == q[i].options["sso_session"]
        && built[i].options["sso_account_id"] == q[i].options["sso_account_id"]
  {
    ExportComplete(sections);
    SsoRowsOfQualifying(sections);
    var rows := ExportOf(sections).rows;
    assert rows == SsoRows(sections);
    BuildConfigContents(rows, settings);
    var built := BuildConfig(rows, settings).value;
    var q := QualifyingSections(sections);
    forall i | 0 <= i < |q|
      ensures built[i].name == q[i].name
      ensures "sso_session" in built[i].options && "sso_account_id" in built[i].options
      ensures built[i].options["sso_session"] == q[i].options["sso_session"]
      ensures built[i].options["sso_account_id"] == q[i].options["sso_account_id"]
    {
      var row := RowOf(q[i]);
      assert rows[i] == row;
      assert built[i] == Section(SectionNameOf(row), ProfileOptions(row, settings));
      var j :| 0 <= j < |sections| && sections[j] == q[i];
      SectionNameOfRow(q[i]);
    }
  }
}
