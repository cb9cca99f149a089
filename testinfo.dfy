/**
 * Container, folder and test information of the newer revision
 * (src/glotter_core/testinfo.py). A parsed YAML mapping is given as a record whose
 * absent keys are None.
 */
module TestInfos {
  import opened Wrappers
  import Ascii
  import Naming

  /** A parsed `container` or `folder` mapping of scalar values. */
  type StringDict = map<string, string>

  /** A parsed testinfo document: each top-level key, if present. */
  datatype TestInfoDict = TestInfoDict(
    container: Option<StringDict>,
    folder: Option<StringDict>,
    languageDisplayName: Option<string>,
    notes: Option<seq<string>>)

  datatype ContainerInfo = ContainerInfo(image: string, tag: string, cmd: string, build: Option<string>)

  /** `ContainerInfo.from_dict`: image, tag and cmd default to "", build to None. */
  function ContainerFromDict(d: StringDict): ContainerInfo {
    ContainerInfo(
      MapGet(d, "image", ""),
      MapGet(d, "tag", ""),
      MapGet(d, "cmd", ""),
      if "build" in d then Some(d["build"]) else None)
  }

  /** The mapping a ContainerInfo is written as: build only when it has one. */
  function ContainerToDict(c: ContainerInfo): StringDict {
    var base := map["image" := c.image, "tag" := c.tag, "cmd" := c.cmd];
    if c.build.Some? then base["build" := c.build.value] else base
  }

  /** `ContainerInfo.__bool__`. */
  predicate IsTruthy(c: ContainerInfo) {
    c.image != "" && c.tag != "" && c.cmd != ""
  }

  datatype FolderInfo = FolderInfo(extension: string, naming: Naming.NamingScheme)

  /** `FolderInfo(extension, naming)` with `__post_init__`: the naming string is
      resolved, or ValueError. */
  function NewFolderInfo(extension: string, naming: string): (r: Result<FolderInfo>)
    ensures r.Ok? <==> Naming.ParseNamingScheme(naming).Some?
    ensures r.Ok? ==> r.value.extension == extension && Naming.NamingSchemeName(r.value.naming) == naming
    ensures r.Err? ==> r.error == ValueError("Unknown naming scheme: \"" + naming + "\"")
  {
    match Naming.ParseNamingScheme(naming)
    case Some(n) => Ok(FolderInfo(extension, n))
    case None => Err(ValueError("Unknown naming scheme: \"" + naming + "\""))
  }

  /** `FolderInfo.from_dict`: `extension` and then `naming` are required keys. */
  function FolderFromDict(d: StringDict): (r: Result<FolderInfo>)
    ensures "extension" !in d ==> r == Err(KeyError("extension"))
    ensures "extension" in d && "naming" !in d ==> r == Err(KeyError("naming"))
    ensures "extension" in d && "naming" in d ==> r == NewFolderInfo(d["extension"], d["naming"])
  {
    if "extension" !in d then Err(KeyError("extension"))
    else if "naming" !in d then Err(KeyError("naming"))
    else NewFolderInfo(d["extension"], d["naming"])
  }

  /** `get_project_mappings`: project type to expected source name. */
  function GetProjectMappings(f: FolderInfo, projects: map<string, Naming.CoreProject>, includeExtension: bool): (r: map<string, string>)
    requires forall k :: k in projects ==> |projects[k].words| > 0
    ensures r.Keys == projects.Keys
    ensures forall k :: k in r ==>
      r[k] == Naming.GetProjectNameByScheme(projects[k], Naming.Scheme(f.naming)).value + (if includeExtension then f.extension else "")
  {
    var extension := if includeExtension then f.extension else "";
    map k | k in projects :: Naming.Render(projects[k], f.naming) + extension
  }

  datatype TestInfo = TestInfo(containerInfo: ContainerInfo, fileInfo: FolderInfo, languageDisplayName: string, notes: seq<string>)

  /** `TestInfo.from_dict`: folder is required; container defaults to an empty mapping,
      notes to [] and the display name to the one derived from the language. */
  function TestInfoFromDict(d: TestInfoDict, language: string): (r: Result<TestInfo>)
    ensures d.folder.None? ==> r == Err(KeyError("folder"))
    ensures d.folder.Some? ==> (r.Ok? <==> FolderFromDict(d.folder.value).Ok?)
    ensures r.Err? && d.folder.Some? ==> r == Err(FolderFromDict(d.folder.value).error)
  {
    var displayName := GetOr(d.languageDisplayName, LanguageDisplayName(language));
    var container := ContainerFromDict(GetOr(d.container, map[]));
    match d.folder
    case None => Err(KeyError("folder"))
    case Some(folder) =>
      match FolderFromDict(folder)
      case Err(e) => Err(e)
      case Ok(fileInfo) => Ok(TestInfo(container, fileInfo, displayName, GetOr(d.notes, [])))
  }

  /** `TestInfo.is_testable`. */
  predicate IsTestable(t: TestInfo) {
    IsTruthy(t.containerInfo)
  }

  // ---------------------------------------------------------------------------
  // Language display names

  /** `LANGUAGE_TEXT_TO_SYMBOL.get(token, token)`. */
  function ToSymbol(token: string): string {
    if token == "plus" then "+"
    else if token == "sharp" then "#"
    else if token == "star" then "*"
    else token
  }

  predicate IsSymbol(token: string) {
    token == "+" || token == "#" || token == "*"
  }

  function LanguageTokens(language: string): seq<string> {
    var parts := Ascii.Split(language, '-');
    seq(|parts|, i requires 0 <= i < |parts| => ToSymbol(parts[i]))
  }

  /** `_get_language_display_name`. */
  function LanguageDisplayName(language: string): string {
    var tokens := LanguageTokens(language);
    var separator := if exists i :: 0 <= i < |tokens| && IsSymbol(tokens[i]) then "" else " ";
    Ascii.Title(Ascii.Join(separator, tokens))
  }

  /** With a hyphen replaced by a space. */
  function HyphensToSpaces(s: string): string {
    seq(|s|, i requires 0 <= i < |s| => if s[i] == '-' then ' ' else s[i])
  }

  // ---------------------------------------------------------------------------
  // ContainerInfo

  /** Writing a ContainerInfo as a mapping and reading it back gives it again. */
  lemma ContainerRoundTrip(c: ContainerInfo)
    ensures ContainerFromDict(ContainerToDict(c)) == c
  {
  }

  /** A missing container mapping gives the default, untestable ContainerInfo. */
  lemma EmptyContainerDefaults()
    ensures ContainerFromDict(map[]) == ContainerInfo("", "", "", None)
    ensures !IsTruthy(ContainerFromDict(map[]))
  {
  }

  /** A ContainerInfo read from a mapping is truthy exactly when image, tag and cmd are
      all present and non-empty; build never affects this. */
  lemma ContainerTruthiness(d: StringDict, build: string)
    ensures IsTruthy(ContainerFromDict(d)) <==>
      ("image" in d && d["image"] != "") && ("tag" in d && d["tag"] != "") && ("cmd" in d && d["cmd"] != "")
    ensures IsTruthy(ContainerFromDict(d)) == IsTruthy(ContainerFromDict(d["build" := build]))
    ensures IsTruthy(ContainerFromDict(d)) == IsTruthy(ContainerFromDict(d - {"build"}))
  {
  }

  // ---------------------------------------------------------------------------
  // FolderInfo

  /** A folder mapping whose naming is a scheme name gives that scheme; an unknown
      naming is refused with a ValueError that says "Unknown naming scheme". */
  lemma FolderNaming(extension: string, naming: string)
    ensures var r := FolderFromDict(map["extension" := extension, "naming" := naming]);
      (forall n: Naming.NamingScheme :: Naming.NamingSchemeName(n) == naming ==> r == Ok(FolderInfo(extension, n))) &&
      (r.Err? ==> r.error.ValueError? && r.error.message[..22] == "Unknown naming scheme:")
    ensures FolderFromDict(map["extension" := extension, "naming" := naming]).Ok? <==>
      exists n: Naming.NamingScheme :: Naming.NamingSchemeName(n) == naming
  {
    var d := map["extension" := extension, "naming" := naming];
    assert "extension" in d && d["extension"] == extension;
    assert "naming" in d && d["naming"] == naming;
    var r := FolderFromDict(d);
    if r.Ok? {
      assert Naming.NamingSchemeName(r.value.naming) == naming;
    }
  }

  /** The mapping with extensions is the mapping without them, each name followed by
      the folder's extension. */
  lemma MappingsWithExtension(f: FolderInfo, projects: map<string, Naming.CoreProject>)
    requires forall k :: k in projects ==> |projects[k].words| > 0
    ensures var with := GetProjectMappings(f, projects, true);
      var without := GetProjectMappings(f, projects, false);
      with.Keys == without.Keys && forall k :: k in with ==> with[k] == without[k] + f.extension
  {
    var with := GetProjectMappings(f, projects, true);
    var without := GetProjectMappings(f, projects, false);
    forall k | k in with ensures with[k] == without[k] + f.extension {
      var name := Naming.Render(projects[k], f.naming);
      assert with[k] == name + f.extension;
      assert without[k] == name + "";
    }
  }

  // ---------------------------------------------------------------------------
  // TestInfo

  /** An explicit language_display_name wins over the derived one; notes default to [];
      the container is read from the given mapping, or from the empty one when it is
      missing, which gives an untestable TestInfo. */
  lemma TestInfoDefaults(d: TestInfoDict, language: string)
    requires TestInfoFromDict(d, language).Ok?
    ensures var t := TestInfoFromDict(d, language).value;
      t.languageDisplayName == (if d.languageDisplayName.Some? then d.languageDisplayName.value else LanguageDisplayName(language)) &&
      t.notes == (if d.notes.Some? then d.notes.value else []) &&
      t.containerInfo == ContainerFromDict(GetOr(d.container, map[])) &&
      (d.container.None? ==> t.containerInfo == ContainerInfo("", "", "", None) && !IsTestable(t)) &&
      t.fileInfo == FolderFromDict(d.folder.value).value
  {
  }

  /** A TestInfo is testable exactly when its container mapping names a non-empty image,
      tag and cmd. */
  lemma TestableIffContainer(d: TestInfoDict, language: string)
    requires TestInfoFromDict(d, language).Ok?
    ensures var c := GetOr(d.container, map[]);
      IsTestable(TestInfoFromDict(d, language).value) <==>
      ("image" in c && c["image"] != "") && ("tag" in c && c["tag"] != "") && ("cmd" in c && c["cmd"] != "")
  {
    ContainerTruthiness(GetOr(d.container, map[]), "");
  }

  // ---------------------------------------------------------------------------
  // Display-name derivation

  lemma {:induction false} JoinSpaceIsHyphensToSpaces(s: string)
    ensures Ascii.Join(" ", Ascii.Split(s, '-')) == HyphensToSpaces(s)
  {
    if |s| > 0 {
      JoinSpaceIsHyphensToSpaces(s[1..]);
      var rest := Ascii.Split(s[1..], '-');
      var r := Ascii.Split(s, '-');
      assert HyphensToSpaces(s) == [if s[0] == '-' then ' ' else s[0]] + HyphensToSpaces(s[1..]);
      if s[0] == '-' {
        assert r == [""] + rest && r[1..] == rest;
      } else {
        assert r == [[s[0]] + rest[0]] + rest[1..];
        if |rest| > 1 {
          assert r[1..] == rest[1..];
        }
      }
    }
  }

  /** A language without symbol tokens is title-cased with its hyphens as spaces
      ("objective-c" gives "Objective C"). */
  lemma PlainLanguageDisplayName(language: string)
    requires forall i :: 0 <= i < |Ascii.Split(language, '-')| ==>
      var t := Ascii.Split(language, '-')[i]; t !in {"plus", "sharp", "star", "+", "#", "*"}
    ensures LanguageDisplayName(language) == Ascii.Title(HyphensToSpaces(language))
  {
    var parts := Ascii.Split(language, '-');
    assert LanguageTokens(language) == parts;
    JoinSpaceIsHyphensToSpaces(language);
  }

  /** A language with a symbol token is joined without spaces before title-casing. */
  lemma SymbolLanguageDisplayName(language: string)
    requires exists i :: 0 <= i < |LanguageTokens(language)| && IsSymbol(LanguageTokens(language)[i])
    ensures LanguageDisplayName(language) == Ascii.Title(Ascii.Join("", LanguageTokens(language)))
  {
  }

  /** "c-plus-plus" gives "C++". */
  lemma CPlusPlusDisplayName(language: string)
    requires language == "c-plus-plus"
    ensures LanguageDisplayName(language) == "C++"
  {
    assert language == "c" + ['-'] + "plus" + ['-'] + "plus";
    Ascii.SplitThree("c", "plus", "plus", '-');
    var tokens := LanguageTokens(language);
    assert tokens == ["c", "+", "+"];
    assert IsSymbol(tokens[1]);
    SymbolLanguageDisplayName(language);
    assert Ascii.Join("", ["c", "+", "+"]) == "c" + "" + Ascii.Join("", ["+", "+"]);
    assert Ascii.Join("", tokens) == "c++";
  }

  /** "c-sharp" gives "C#". */
  lemma CSharpDisplayName(language: string)
    requires language == "c-sharp"
    ensures LanguageDisplayName(language) == "C#"
  {
    assert language == "c" + ['-'] + "sharp";
    Ascii.SplitTwo("c", "sharp", '-');
    var tokens := LanguageTokens(language);
    assert tokens == ["c", "#"];
    assert IsSymbol(tokens[1]);
    SymbolLanguageDisplayName(language);
    assert Ascii.Join("", tokens) == "c#";
  }

  /** "c-star" gives "C*". */
  lemma CStarDisplayName(language: string)
    requires language == "c-star"
    ensures LanguageDisplayName(language) == "C*"
  {
    assert language == "c" + ['-'] + "star";
    Ascii.SplitTwo("c", "star", '-');
    var tokens := LanguageTokens(language);
    assert tokens == ["c", "*"];
    assert IsSymbol(tokens[1]);
    SymbolLanguageDisplayName(language);
    assert Ascii.Join("", tokens) == "c*";
  }

  /** "objective-c" gives "Objective C". */
  lemma ObjectiveCDisplayName(language: string)
    requires language == "objective-c"
    ensures LanguageDisplayName(language) == "Objective C"
  {
    assert language == "objective" + ['-'] + "c";
    Ascii.SplitTwo("objective", "c", '-');
    PlainLanguageDisplayName(language);
    ObjectiveCTitle(language);
  }

  lemma ObjectiveCTitle(language: string)
    requires language == "objective-c"
    ensures Ascii.Title(HyphensToSpaces(language)) == "Objective C"
  {
    var spaced := HyphensToSpaces(language);
    assert spaced == "objective c";
  }

  /** "python" gives "Python". */
  lemma PythonDisplayName(language: string)
    requires language == "python"
    ensures LanguageDisplayName(language) == "Python"
  {
    Ascii.SplitNoSeparator(language, '-');
    PlainLanguageDisplayName(language);
    assert HyphensToSpaces(language) == "python";
  }
}
