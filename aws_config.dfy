/** The part of Python's configparser.ConfigParser that the AWS SSO profile
    scripts use: an ordered list of named sections, each a dictionary of
    options, with add_section, set, get and sections(). Reading and writing
    the INI text is not part of this model. */
module AwsConfig {
  import opened Wrappers

  /** One [name] section and its options. */
  datatype Section = Section(name: string, options: map<string, string>)

  /** The exceptions configparser raises on the paths the scripts take. */
  datatype ConfigError =
    | DuplicateSectionError(section: string)
    | NoSectionError(section: string)
    | NoOptionError(section: string, option: string)
    | ValueError(section: string)

  /** The name configparser reserves for its defaults section. */
  const DefaultSectionName := "DEFAULT"

  /** The names of the sections, in order. */
  function Names(sections: seq<Section>): (names: seq<string>)
    ensures |names| == |sections|
    ensures forall i :: 0 <= i < |sections| ==> names[i] == sections[i].name
  {
    seq(|sections|, i requires 0 <= i < |sections| => sections[i].name)
  }

  /** No two sections share a name. */
  ghost predicate DistinctNames(sections: seq<Section>)
  {
    forall i, j :: 0 <= i < j < |sections| ==> sections[i].name != sections[j].name
  }

  /** The value of an option, or the error get() raises without a fallback. */
  function Lookup(sections: seq<Section>, section: string, option: string): (r: Result<string, ConfigError>)
    ensures section !in Names(sections) ==> r == Failure(NoSectionError(section))
    ensures DistinctNames(sections) ==>
      forall i :: 0 <= i < |sections| && sections[i].name == section ==>
        r == (if option in sections[i].options then Success(sections[i].options[option])
              else Failure(NoOptionError(section, option)))
    ensures r.Success? ==> exists i :: 0 <= i < |sections| && sections[i].name == section
                             && option in sections[i].options && sections[i].options[option] == r.value
  {
    if sections == [] then Failure(NoSectionError(section))
    else
      var last := sections[|sections| - 1];
      if last.name == section then
        (if option in last.options then Success(last.options[option]) else Failure(NoOptionError(section, option)))
      else
        var init := sections[..|sections| - 1];
        var r := Lookup(init, section, option);
        assert Names(sections) == Names(init) + [last.name];
        assert r.Success? ==> exists i :: 0 <= i < |init| && init[i].name == section
                                && option in init[i].options && init[i].options[option] == r.value;
        r
  }

  class ConfigParser {
    var sections: seq<Section>

    ghost predicate Valid()
      reads this
    {
      DistinctNames(sections)
    }

    /** ConfigParser(): no sections. */
    constructor()
      ensures Valid()
      ensures sections == []
    {
      sections := [];
    }

    /** sections(): the names, in the order the sections were added. */
    function SectionNames(): (names: seq<string>)
      reads this
      ensures |names| == |sections|
      ensures forall i :: 0 <= i < |sections| ==> names[i] == sections[i].name
    {
      Names(sections)
    }

    /** get(section, option) without a fallback: the value, or the error. */
    function Get(section: string, option: string): (r: Result<string, ConfigError>)
      reads this
      ensures section !in Names(sections) ==> r == Failure(NoSectionError(section))
      ensures Valid() ==> forall i :: 0 <= i < |sections| && sections[i].name == section ==>
        r == (if option in sections[i].options then Success(sections[i].options[option])
              else Failure(NoOptionError(section, option)))
      ensures r.Success? ==> exists i :: 0 <= i < |sections| && sections[i].name == section
                                && option in sections[i].options && sections[i].options[option] == r.value
    {
      Lookup(sections, section, option)
    }

    /** get(section, option, fallback=...): the value, or the fallback when
        the section or the option is missing. */
    function GetWithFallback(section: string, option: string, fallback: string): (v: string)
      reads this
      ensures Lookup(sections, section, option).Success? ==> v == Lookup(sections, section, option).value
      ensures Lookup(sections, section, option).Failure? ==> v == fallback
    {
      match Lookup(sections, section, option)
      case Success(value) => value
      case Failure(_) => fallback
    }

    /** add_section(name): a new empty section at the end; a name already
        present raises DuplicateSectionError and the name DEFAULT raises
        ValueError, and then nothing changes. */
    method AddSection(name: string) returns (err: Option<ConfigError>)
      requires Valid()
      modifies this
      ensures Valid()
      ensures name == DefaultSectionName ==> err == Some(ValueError(name)) && sections == old(sections)
      ensures name != DefaultSectionName && name in Names(old(sections)) ==>
        err == Some(DuplicateSectionError(name)) && sections == old(sections)
      ensures name != DefaultSectionName && name !in Names(old(sections)) ==>
        err == None && sections == old(sections) + [Section(name, map[])]
    {
      if name == DefaultSectionName {
        return Some(ValueError(name));
      }
      if name in Names(sections) {
        return Some(DuplicateSectionError(name));
      }
      sections := sections + [Section(name, map[])];
      err := None;
    }

    /** set(section, option, value): stores the option in the named section,
        replacing an earlier value; a missing section raises NoSectionError
        and then nothing changes. */
    method Set(section: string, option: string, value: string) returns (err: Option<ConfigError>)
      requires Valid()
      modifies this
      ensures Valid()
      ensures section !in Names(old(sections)) ==>
        err == Some(NoSectionError(section)) && sections == old(sections)
      ensures forall i :: 0 <= i < |old(sections)| && old(sections)[i].name == section ==>
        && err == None
        && sections == old(sections)[i := Section(section, old(sections)[i].options[option := value])]
    {
      var i := 0;
      while i < |sections| && sections[i].name != section
        invariant 0 <= i <= |sections|
        invariant forall k :: 0 <= k < i ==> sections[k].name != section
      {
        i := i + 1;
      }
      if i == |sections| {
        return Some(NoSectionError(section));
      }
      sections := sections[i := Section(section, sections[i].options[option := value])];
      err := None;
    }
  }
}
