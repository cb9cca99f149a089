/**
 * `CoreSource`, shared by both revisions (src/glotter_core/source.py and
 * src/glotter/core/source.py): a filename, the language, the directory's path as
 * segments, and the test information built from the directory's testinfo text.
 *
 * Building that test information renders the text as a Jinja2 template and parses the
 * result as YAML; here that step is the parameter `render`, which receives the raw
 * text and the source as it is at that moment (its test information still the text).
 */
module SourceFiles {
  import opened Wrappers
  import Ascii
  import TestInfos
  import LegacyTestInfos

  /** `s.lstrip(".")`. */
  function StripLeadingDots(s: string): (r: string)
    ensures |r| <= |s| && s[|s| - |r|..] == r
    ensures r == "" || r[0] != '.'
    ensures forall i :: 0 <= i < |s| - |r| ==> s[i] == '.'
  {
    if |s| > 0 && s[0] == '.' then StripLeadingDots(s[1..]) else s
  }

  /** `Path(name).suffixes`: none when the name ends with '.'; otherwise, with leading
      dots stripped, every '.'-field after the first, each with its '.' in front. */
  function Suffixes(name: string): seq<string> {
    if |name| > 0 && name[|name| - 1] == '.' then []
    else DottedTail(Ascii.Split(StripLeadingDots(name), '.'))
  }

  /** Every field after the first, each with a '.' in front. */
  function DottedTail(fields: seq<string>): seq<string>
    requires |fields| > 0
  {
    seq(|fields| - 1, i requires 0 <= i < |fields| - 1 => "." + fields[i + 1])
  }

  /** A source file; T is the form its test information has (the raw text while it is
      being built, then a TestInfo or an older LegacyTestInfo). */
  datatype CoreSource<T> = CoreSource(filename: string, language: string, path: seq<string>, testInfo: T)
  {
    /** `full_path`: the path followed by the filename. */
    function FullPath(): seq<string> {
      path + [filename]
    }

    /** `name`: `filename.split(".")[0]`. */
    function Name(): string {
      Ascii.Split(filename, '.')[0]
    }

    /** `extension`: `"".join(Path(filename).suffixes)`. */
    function Extension(): string {
      Ascii.Join("", Suffixes(filename))
    }
  }

  /** A path written out with '/' between its segments. */
  function PathText(segments: seq<string>): string {
    Ascii.Join("/", segments)
  }

  /** `Template(raw).render(source=...)` followed by `yaml.safe_load`. */
  type Renderer = (string, CoreSource<string>) -> TestInfos.TestInfoDict

  /** `CoreSource(filename, language, path, raw)` of the newer revision: `__post_init__`
      replaces the text by `TestInfo.from_string(raw, self)`, whose language is the
      source's own; any error it raises is raised by the construction. */
  function NewSource(filename: string, language: string, path: seq<string>, raw: string, render: Renderer): (r: Result<CoreSource<TestInfos.TestInfo>>)
    ensures var info := TestInfos.TestInfoFromDict(render(raw, CoreSource(filename, language, path, raw)), language);
      (r.Ok? <==> info.Ok?) &&
      (r.Ok? ==> r.value == CoreSource(filename, language, path, info.value)) &&
      (r.Err? ==> r.error == info.error)
  {
    match TestInfos.TestInfoFromDict(render(raw, CoreSource(filename, language, path, raw)), language)
    case Ok(info) => Ok(CoreSource(filename, language, path, info))
    case Err(e) => Err(e)
  }

  /** `CoreSource(filename, language, path, raw)` of the older revision, whose
      `TestInfo.from_dict` takes no language. */
  function NewLegacySource(filename: string, language: string, path: seq<string>, raw: string, render: Renderer): (r: Result<CoreSource<LegacyTestInfos.LegacyTestInfo>>)
    ensures var info := LegacyTestInfos.LegacyTestInfoFromDict(render(raw, CoreSource(filename, language, path, raw)));
      (r.Ok? <==> info.Ok?) &&
      (r.Ok? ==> r.value == CoreSource(filename, language, path, info.value)) &&
      (r.Err? ==> r.error == info.error)
  {
    match LegacyTestInfos.LegacyTestInfoFromDict(render(raw, CoreSource(filename, language, path, raw)))
    case Ok(info) => Ok(CoreSource(filename, language, path, info))
    case Err(e) => Err(e)
  }

  // ---------------------------------------------------------------------------
  // Name and extension

  /** The name is the longest prefix of the filename without a '.'. */
  lemma NameIsPrefixBeforeFirstDot<T>(s: CoreSource<T>)
    ensures var n := s.Name();
      '.' !in n && |n| <= |s.filename| && s.filename[..|n|] == n &&
      (|n| < |s.filename| ==> s.filename[|n|] == '.')
  {
    Ascii.SplitFirstField(s.filename, '.');
  }

  /** With leading dots stripped, a name that does not end with '.' is its first field
      followed by the joined suffixes. */
  lemma StrippedIsFirstFieldThenSuffixes(name: string)
    requires |name| == 0 || name[|name| - 1] != '.'
    ensures StripLeadingDots(name) == Ascii.Split(StripLeadingDots(name), '.')[0] + Ascii.Join("", Suffixes(name))
  {
    var stripped := StripLeadingDots(name);
    var fields := Ascii.Split(stripped, '.');
    Ascii.JoinSplit(stripped, '.');
    Ascii.JoinAsPrefixed(".", fields);
  }

  /** Without a '.' there is no extension and the name is the whole filename. */
  lemma NoDotNoExtension<T>(s: CoreSource<T>)
    requires '.' !in s.filename
    ensures s.Extension() == "" && s.Name() == s.filename
  {
    var f := s.filename;
    var stripped := StripLeadingDots(f);
    assert '.' !in stripped by {
      forall i | 0 <= i < |stripped| ensures stripped[i] != '.' {
        assert stripped[i] == f[|f| - |stripped| + i];
      }
    }
    Ascii.SplitNoSeparator(stripped, '.');
    Ascii.SplitNoSeparator(f, '.');
  }

  /** Joined suffixes that are not empty start with '.'. */
  lemma JoinedSuffixesStartWithDot(name: string)
    requires Ascii.Join("", Suffixes(name)) != ""
    ensures Ascii.Join("", Suffixes(name))[0] == '.'
  {
    var tail := Suffixes(name);
    assert |tail| > 0;
    var fields := Ascii.Split(StripLeadingDots(name), '.');
    assert tail[0] == "." + fields[1];
    Ascii.ConcatCons(tail);
  }

  /** Joined suffixes end the name. */
  lemma JoinedSuffixesEndName(name: string)
    ensures var e := Ascii.Join("", Suffixes(name));
      |e| <= |name| && name[|name| - |e|..] == e
  {
    var e := Ascii.Join("", Suffixes(name));
    if |name| > 0 && name[|name| - 1] == '.' {
      assert e == "";
    } else {
      var stripped := StripLeadingDots(name);
      StrippedIsFirstFieldThenSuffixes(name);
      var first := Ascii.Split(stripped, '.')[0];
      assert stripped == first + e;
      assert stripped[|stripped| - |e|..] == e;
      SuffixOfSuffix(name, stripped, e);
    }
  }

  /** An extension that is not empty starts with '.' and ends the filename. */
  lemma ExtensionEndsFilename<T>(s: CoreSource<T>)
    ensures var e := s.Extension();
      e != "" ==> e[0] == '.' && |e| <= |s.filename| && s.filename[|s.filename| - |e|..] == e
  {
    if s.Extension() != "" {
      JoinedSuffixesStartWithDot(s.filename);
    }
    JoinedSuffixesEndName(s.filename);
  }

  lemma SuffixOfSuffix(f: string, m: string, e: string)
    requires |m| <= |f| && f[|f| - |m|..] == m
    requires |e| <= |m| && m[|m| - |e|..] == e
    ensures |e| <= |f| && f[|f| - |e|..] == e
  {
    assert f[|f| - |e|..] == f[|f| - |m|..][|m| - |e|..];
  }

  /** For a filename that neither starts nor ends with '.', name followed by extension
      is the filename. */
  lemma NameExtensionRoundTrip<T>(s: CoreSource<T>)
    requires |s.filename| > 0 && s.filename[0] != '.' && s.filename[|s.filename| - 1] != '.'
    ensures s.Name() + s.Extension() == s.filename
  {
    assert StripLeadingDots(s.filename) == s.filename;
    StrippedIsFirstFieldThenSuffixes(s.filename);
  }

  /** A filename ending with '.' has no extension: the name alone does not give it back. */
  lemma TrailingDotHasNoExtension<T>(s: CoreSource<T>)
    requires |s.filename| > 0 && s.filename[|s.filename| - 1] == '.'
    ensures s.Extension() == ""
    ensures s.Name() + s.Extension() != s.filename
  {
    NameIsPrefixBeforeFirstDot(s);
  }

  /** A filename with only a leading dot (".bashrc") has an empty name and no extension. */
  lemma LeadingDotOnly<T>(s: CoreSource<T>)
    requires |s.filename| > 1 && s.filename[0] == '.' && '.' !in s.filename[1..]
    ensures s.Name() == "" && s.Extension() == ""
  {
    var f := s.filename;
    assert f == ['.'] + f[1..];
    Ascii.SplitAround("", f[1..], '.');
    assert StripLeadingDots(f) == f[1..];
    Ascii.SplitNoSeparator(f[1..], '.');
  }

  lemma NoSuffixExample<T>(s: CoreSource<T>)
    requires s.filename == "name"
    ensures s.Name() == "name" && s.Extension() == ""
  {
    NoDotNoExtension(s);
  }

  /** A filename of two dot-free fields, neither empty: the name is the first field,
      the extension the second with its dot. */
  lemma TwoFieldNameAndExtension<T>(s: CoreSource<T>, a: string, b: string)
    requires '.' !in a && '.' !in b && |a| > 0 && |b| > 0
    requires s.filename == a + ['.'] + b
    ensures s.Name() == a
    ensures s.Extension() == "." + b
  {
    var f := s.filename;
    assert f[0] == a[0] && f[|f| - 1] == b[|b| - 1];
    assert StripLeadingDots(f) == f;
    Ascii.SplitTwo(a, b, '.');
    assert Suffixes(f) == ["." + b];
  }

  lemma OneSuffixExample<T>(s: CoreSource<T>)
    requires s.filename == "name.ext"
    ensures s.Name() == "name" && s.Extension() == ".ext"
  {
    assert "name" + ['.'] + "ext" == "name.ext";
    TwoFieldNameAndExtension(s, "name", "ext");
  }

  /** A filename of three dot-free fields, the first and last not empty: the name is
      the first field, the extension the other two with their dots. */
  lemma ThreeFieldNameAndExtension<T>(s: CoreSource<T>, a: string, b: string, c: string)
    requires '.' !in a && '.' !in b && '.' !in c && |a| > 0 && |c| > 0
    requires s.filename == a + ['.'] + b + ['.'] + c
    ensures s.Name() == a
    ensures s.Extension() == "." + b + "." + c
  {
    var f := s.filename;
    assert f[0] == a[0] && f[|f| - 1] == c[|c| - 1];
    assert StripLeadingDots(f) == f;
    Ascii.SplitThree(a, b, c, '.');
    assert Suffixes(f) == ["." + b, "." + c];
    assert Ascii.Join("", ["." + b, "." + c]) == "." + b + "" + ("." + c);
  }

  lemma TwoSuffixExample<T>(s: CoreSource<T>)
    requires s.filename == "name.ext1.ext2"
    ensures s.Name() == "name" && s.Extension() == ".ext1.ext2"
  {
    assert "name" + ['.'] + "ext1" + ['.'] + "ext2" == "name.ext1.ext2";
    ThreeFieldNameAndExtension(s, "name", "ext1", "ext2");
    assert "." + "ext1" + "." + "ext2" == ".ext1.ext2";
  }

  // ---------------------------------------------------------------------------
  // Full path

  /** The full path is the source's path followed by its filename; written out with
      '/', it splits back into those segments when none of them holds a '/'. */
  lemma FullPathEndsWithFilename<T>(s: CoreSource<T>)
    requires forall k :: 0 <= k < |s.path| ==> '/' !in s.path[k]
    requires '/' !in s.filename
    ensures |s.FullPath()| == |s.path| + 1
    ensures s.FullPath()[|s.path|] == s.filename && s.FullPath()[..|s.path|] == s.path
    ensures Ascii.Split(PathText(s.FullPath()), '/') == s.FullPath()
    ensures PathText(s.FullPath()) == if s.path == [] then s.filename else PathText(s.path) + "/" + s.filename
  {
    Ascii.SplitJoin(s.FullPath(), '/');
    if s.path != [] {
      JoinAppend("/", s.path, s.filename);
    }
  }

  lemma {:induction false} JoinAppend(sep: string, parts: seq<string>, last: string)
    requires |parts| > 0
    ensures Ascii.Join(sep, parts + [last]) == Ascii.Join(sep, parts) + sep + last
  {
    if |parts| > 1 {
      JoinAppend(sep, parts[1..], last);
      assert (parts + [last])[1..] == parts[1..] + [last];
    }
  }

  // ---------------------------------------------------------------------------
  // Construction

  /** The two revisions build a source with the same name, extension and full path;
      an older source that builds has the newer one's container and folder. */
  lemma RevisionsAgreeOnSources(filename: string, language: string, path: seq<string>, raw: string, render: Renderer)
    requires NewLegacySource(filename, language, path, raw, render).Ok?
    ensures var older := NewLegacySource(filename, language, path, raw, render).value;
      var newer := NewSource(filename, language, path, raw, render);
      newer.Ok? &&
      newer.value.Name() == older.Name() && newer.value.Extension() == older.Extension() &&
      newer.value.FullPath() == older.FullPath() &&
      newer.value.testInfo.containerInfo == older.testInfo.containerInfo &&
      newer.value.testInfo.fileInfo == older.testInfo.fileInfo
  {
    LegacyTestInfos.TestInfoAgreesWithNewerRevision(render(raw, CoreSource(filename, language, path, raw)), language);
  }

  /** The rendered document names no folder: the construction fails with KeyError. */
  lemma MissingFolderFailsConstruction(filename: string, language: string, path: seq<string>, raw: string, render: Renderer)
    requires render(raw, CoreSource(filename, language, path, raw)).folder.None?
    ensures NewSource(filename, language, path, raw, render) == Err(KeyError("folder"))
  {
  }
}
