/**
 * `CoreSourceCategories` and `categorize_sources` (src/glotter_core/source.py).
 *
 * The directory walk is given as its sequence of directory records, in walk order.
 * A record has the directory's path relative to the walk's root (as segments), its
 * set of filenames, and the text of its testinfo.yml. Parsing that text as YAML is
 * the parameter `parse`; building a source from it is `render` (see SourceFiles).
 *
 * The specification is a fold of `Step` over the directories; `CategorizeSources`
 * builds the same categories in place, directory by directory, as the original loop
 * does. The order of the projects' dictionary is the sequence `order`.
 */
module Sources {
  import opened Wrappers
  import Naming
  import TestInfos
  import SourceFiles

  type Source = SourceFiles.CoreSource<TestInfos.TestInfo>

  const TestInfoFilename := "testinfo.yml"

  /** Files that are never reported as bad. */
  const IgnoredFilenames: set<string> := {"untestable.yml", "testinfo.yml", "README.md"}

  /** One directory of the walk. */
  datatype Directory = Directory(relPath: seq<string>, files: set<string>, testInfoText: string)

  /** The arguments of `categorize_sources`: the resolved root, the projects with
      their dictionary order, and the two foreign steps. */
  datatype Context = Context(
    root: seq<string>,
    projects: map<string, Naming.CoreProject>,
    order: seq<string>,
    parse: string -> TestInfos.TestInfoDict,
    render: SourceFiles.Renderer)

  /** Every project has words, and `order` lists each project key exactly once. */
  predicate ValidContext(ctx: Context) {
    (forall k :: k in ctx.projects ==> |ctx.projects[k].words| > 0) &&
    (forall i :: 0 <= i < |ctx.order| ==> ctx.order[i] in ctx.projects) &&
    (forall k :: k in ctx.projects ==> k in ctx.order) &&
    (forall i, j :: 0 <= i < j < |ctx.order| ==> ctx.order[i] != ctx.order[j])
  }

  /** The categories as values; bad sources are a multiset because the original
      collects them from a set, whose order is not defined. */
  datatype Categories = Categories(
    testableByProject: map<string, seq<Source>>,
    byLanguage: map<string, seq<Source>>,
    testInfo: map<string, TestInfos.TestInfo>,
    badSources: multiset<seq<string>>)

  /** `Path.name`: the last segment, or "" for the empty path. */
  function DirName(path: seq<string>): string {
    if |path| == 0 then "" else path[|path| - 1]
  }

  /** The directory's language: the name of its resolved path. */
  function Language(ctx: Context, d: Directory): string {
    DirName(ctx.root + d.relPath)
  }

  /** The directory's un-templated test information. */
  function DirectoryInfo(ctx: Context, d: Directory): Result<TestInfos.TestInfo> {
    TestInfos.TestInfoFromDict(ctx.parse(d.testInfoText), Language(ctx, d))
  }

  function SourceFor(ctx: Context, d: Directory, name: string): Result<Source> {
    SourceFiles.NewSource(name, Language(ctx, d), ctx.root + d.relPath, d.testInfoText, ctx.render)
  }

  /** Filenames that are neither expected nor ignored. */
  function InvalidFilenames(files: set<string>, names: map<string, string>): set<string> {
    files - (names.Values + IgnoredFilenames)
  }

  /** The bad-source paths of some filenames, relative to the root. */
  function BadPaths(relPath: seq<string>, invalid: set<string>): multiset<seq<string>> {
    multiset(set f | f in invalid :: relPath + [f])
  }

  /** The starting categories: every project with no testable source. */
  function Initial(ctx: Context): (r: Categories)
    ensures r.testableByProject.Keys == ctx.projects.Keys
    ensures forall k :: k in r.testableByProject ==> r.testableByProject[k] == []
    ensures r.byLanguage == map[] && r.testInfo == map[] && r.badSources == multiset{}
  {
    Categories(map k | k in ctx.projects :: [], map[], map[], multiset{})
  }

  /** The body of the inner loop for one project type. */
  function AddMatch(ctx: Context, d: Directory, names: map<string, string>, c: Categories, projectType: string): Result<Categories>
    requires projectType in c.testableByProject && projectType in names
  {
    if names[projectType] !in d.files then Ok(c)
    else
      match SourceFor(ctx, d, names[projectType])
      case Err(e) => Err(e)
      case Ok(src) =>
        var lang := Language(ctx, d);
        Ok(Categories(
          if TestInfos.IsTestable(src.testInfo)
          then c.testableByProject[projectType := c.testableByProject[projectType] + [src]]
          else c.testableByProject,
          c.byLanguage[lang := MapGet(c.byLanguage, lang, []) + [src]],
          c.testInfo,
          c.badSources))
  }

  /** The inner loop over a prefix of the project types; the first error stops it. */
  function AddMatches(ctx: Context, d: Directory, names: map<string, string>, c: Categories, types: seq<string>): (r: Result<Categories>)
    requires forall i :: 0 <= i < |types| ==> types[i] in c.testableByProject && types[i] in names
    ensures r.Ok? ==> r.value.testableByProject.Keys == c.testableByProject.Keys
    ensures r.Ok? ==> r.value.testInfo == c.testInfo && r.value.badSources == c.badSources
    decreases |types|
  {
    if |types| == 0 then Ok(c)
    else
      match AddMatches(ctx, d, names, c, types[..|types| - 1])
      case Err(e) => Err(e)
      case Ok(c') => AddMatch(ctx, d, names, c', types[|types| - 1])
  }

  /** The expected filenames of a directory, by project type. */
  function ExpectedNames(ctx: Context, info: TestInfos.TestInfo): (r: map<string, string>)
    requires ValidContext(ctx)
    ensures r.Keys == ctx.projects.Keys
  {
    TestInfos.GetProjectMappings(info.fileInfo, ctx.projects, true)
  }

  /** One iteration of the walk. */
  function Step(ctx: Context, c: Categories, d: Directory): (r: Result<Categories>)
    requires ValidContext(ctx) && c.testableByProject.Keys == ctx.projects.Keys
    ensures r.Ok? ==> r.value.testableByProject.Keys == ctx.projects.Keys
  {
    if TestInfoFilename !in d.files then Ok(c)
    else
      match DirectoryInfo(ctx, d)
      case Err(e) => Err(e)
      case Ok(info) =>
        var names := ExpectedNames(ctx, info);
        var withInfo := c.(testInfo := c.testInfo[Language(ctx, d) := info]);
        match AddMatches(ctx, d, names, withInfo, ctx.order)
        case Err(e) => Err(e)
        case Ok(c') => Ok(c'.(badSources := c'.badSources + BadPaths(d.relPath, InvalidFilenames(d.files, names))))
  }

  /** The walk over a prefix of the directories; the first error stops it. */
  function Fold(ctx: Context, c: Categories, dirs: seq<Directory>): (r: Result<Categories>)
    requires ValidContext(ctx) && c.testableByProject.Keys == ctx.projects.Keys
    ensures r.Ok? ==> r.value.testableByProject.Keys == ctx.projects.Keys
    decreases |dirs|
  {
    if |dirs| == 0 then Ok(c)
    else
      match Fold(ctx, c, dirs[..|dirs| - 1])
      case Err(e) => Err(e)
      case Ok(c') => Step(ctx, c', dirs[|dirs| - 1])
  }

  /** What `categorize_sources` returns, or the error it raises. */
  function Categorize(ctx: Context, dirs: seq<Directory>): Result<Categories>
    requires ValidContext(ctx)
  {
    Fold(ctx, Initial(ctx), dirs)
  }

  // ---------------------------------------------------------------------------
  // The imperative categorisation

  /** `CoreSourceCategories`. */
  class CoreSourceCategories {
    var testableByProject: map<string, seq<Source>>
    var byLanguage: map<string, seq<Source>>
    var testInfo: map<string, TestInfos.TestInfo>
    var badSources: seq<seq<string>>

    /** Every category empty, as the dataclass's default factories give. */
    constructor()
      ensures testableByProject == map[] && byLanguage == map[] && testInfo == map[] && badSources == []
    {
      testableByProject := map[];
      byLanguage := map[];
      testInfo := map[];
      badSources := [];
    }

    /** The categories as values. */
    function Snapshot(): Categories
      reads this
    {
      Categories(testableByProject, byLanguage, testInfo, multiset(badSources))
    }
  }

  /** `categorize_sources(path, projects, CoreSource)` over the walk's directories. */
  method CategorizeSources(ctx: Context, dirs: seq<Directory>) returns (r: Result<CoreSourceCategories>)
    requires ValidContext(ctx)
    ensures r.Ok? <==> Categorize(ctx, dirs).Ok?
    ensures r.Ok? ==> fresh(r.value) && r.value.Snapshot() == Categorize(ctx, dirs).value
    ensures r.Err? ==> r.error == Categorize(ctx, dirs).error
  {
    var categories := new CoreSourceCategories();
    categories.testableByProject := map k | k in ctx.projects :: [];
    assert categories.Snapshot() == Initial(ctx);
    var i := 0;
    while i < |dirs|
      invariant 0 <= i <= |dirs|
      invariant Fold(ctx, Initial(ctx), dirs[..i]) == Ok(categories.Snapshot())
    {
      assert dirs[..i + 1][..i] == dirs[..i];
      var failure := AddDirectory(categories, ctx, dirs[i]);
      if failure.Some? {
        FoldErrorSticks(ctx, Initial(ctx), dirs, i + 1);
        return Err(failure.value);
      }
      i := i + 1;
    }
    assert dirs[..|dirs|] == dirs;
    return Ok(categories);
  }

  /** One iteration of the walk, in place: the categories become `Step`'s, or the
      error it raises is returned. */
  method AddDirectory(categories: CoreSourceCategories, ctx: Context, d: Directory) returns (failure: Option<Error>)
    requires ValidContext(ctx) && categories.testableByProject.Keys == ctx.projects.Keys
    modifies categories
    ensures var step := Step(ctx, old(categories.Snapshot()), d);
      (failure.None? <==> step.Ok?) &&
      (failure.None? ==> categories.Snapshot() == step.value) &&
      (failure.Some? ==> failure.value == step.error)
  {
    if TestInfoFilename !in d.files {
      return None;
    }
    var info := DirectoryInfo(ctx, d);
    if info.Err? {
      return Some(info.error);
    }
    var names := ExpectedNames(ctx, info.value);
    categories.testInfo := categories.testInfo[Language(ctx, d) := info.value];
    failure := AddSources(categories, ctx, d, names);
    if failure.None? {
      AddBadSources(categories, d.relPath, InvalidFilenames(d.files, names));
    }
  }

  /** The inner loop over the project types, in place. */
  method AddSources(categories: CoreSourceCategories, ctx: Context, d: Directory, names: map<string, string>) returns (failure: Option<Error>)
    requires forall i :: 0 <= i < |ctx.order| ==> ctx.order[i] in categories.testableByProject && ctx.order[i] in names
    modifies categories
    ensures var added := AddMatches(ctx, d, names, old(categories.Snapshot()), ctx.order);
      (failure.None? <==> added.Ok?) &&
      (failure.None? ==> categories.Snapshot() == added.value) &&
      (failure.Some? ==> failure.value == added.error)
  {
    ghost var start := categories.Snapshot();
    var j := 0;
    while j < |ctx.order|
      invariant 0 <= j <= |ctx.order|
      invariant AddMatches(ctx, d, names, start, ctx.order[..j]) == Ok(categories.Snapshot())
    {
      assert ctx.order[..j + 1][..j] == ctx.order[..j];
      failure := AddSource(categories, ctx, d, names, ctx.order[j]);
      if failure.Some? {
        AddMatchesErrorSticks(ctx, d, names, start, ctx.order, j + 1);
        return;
      }
      j := j + 1;
    }
    assert ctx.order[..|ctx.order|] == ctx.order;
    return None;
  }

  /** The inner loop's body for one project type, in place. */
  method AddSource(categories: CoreSourceCategories, ctx: Context, d: Directory, names: map<string, string>, projectType: string) returns (failure: Option<Error>)
    requires projectType in categories.testableByProject && projectType in names
    modifies categories
    ensures var added := AddMatch(ctx, d, names, old(categories.Snapshot()), projectType);
      (failure.None? <==> added.Ok?) &&
      (failure.None? ==> categories.Snapshot() == added.value) &&
      (failure.Some? ==> failure.value == added.error)
  {
    var name := names[projectType];
    if name !in d.files {
      return None;
    }
    var src := SourceFor(ctx, d, name);
    if src.Err? {
      return Some(src.error);
    }
    var lang := Language(ctx, d);
    categories.byLanguage := categories.byLanguage[lang := MapGet(categories.byLanguage, lang, []) + [src.value]];
    if TestInfos.IsTestable(src.value.testInfo) {
      categories.testableByProject := categories.testableByProject[projectType := categories.testableByProject[projectType] + [src.value]];
    }
    return None;
  }

  /** `bad_sources += [...]` for one directory's invalid filenames, in any order. */
  method AddBadSources(categories: CoreSourceCategories, relPath: seq<string>, invalid: set<string>)
    modifies categories
    ensures categories.Snapshot() == old(categories.Snapshot()).(badSources := old(categories.Snapshot()).badSources + BadPaths(relPath, invalid))
  {
    ghost var start := categories.badSources;
    var remaining := invalid;
    while remaining != {}
      invariant remaining <= invalid
      invariant unchanged(categories`testableByProject, categories`byLanguage, categories`testInfo)
      invariant multiset(categories.badSources) == multiset(start) + BadPaths(relPath, invalid - remaining)
      decreases |remaining|
    {
      var f :| f in remaining;
      BadPathsAddOne(relPath, invalid - remaining, f);
      assert (invalid - remaining) + {f} == invalid - (remaining - {f});
      categories.badSources := categories.badSources + [relPath + [f]];
      remaining := remaining - {f};
    }
    assert invalid - remaining == invalid;
  }

  // ---------------------------------------------------------------------------
  // Early exits

  /** An error on a prefix of the walk is the error of the whole walk. */
  lemma {:induction false} FoldErrorSticks(ctx: Context, c: Categories, dirs: seq<Directory>, k: nat)
    requires ValidContext(ctx) && c.testableByProject.Keys == ctx.projects.Keys
    requires k <= |dirs| && Fold(ctx, c, dirs[..k]).Err?
    ensures Fold(ctx, c, dirs) == Fold(ctx, c, dirs[..k])
    decreases |dirs|
  {
    if k < |dirs| {
      assert dirs[..|dirs| - 1][..k] == dirs[..k];
      FoldErrorSticks(ctx, c, dirs[..|dirs| - 1], k);
    } else {
      assert dirs[..k] == dirs;
    }
  }

  /** An error on a prefix of the project types is the error of the inner loop. */
  lemma {:induction false} AddMatchesErrorSticks(ctx: Context, d: Directory, names: map<string, string>, c: Categories, types: seq<string>, k: nat)
    requires forall i :: 0 <= i < |types| ==> types[i] in c.testableByProject && types[i] in names
    requires k <= |types| && AddMatches(ctx, d, names, c, types[..k]).Err?
    ensures AddMatches(ctx, d, names, c, types) == AddMatches(ctx, d, names, c, types[..k])
    decreases |types|
  {
    if k < |types| {
      assert types[..|types| - 1][..k] == types[..k];
      AddMatchesErrorSticks(ctx, d, names, c, types[..|types| - 1], k);
    } else {
      assert types[..k] == types;
    }
  }

  lemma BadPathsAddOne(relPath: seq<string>, done: set<string>, f: string)
    requires f !in done
    ensures BadPaths(relPath, done + {f}) == BadPaths(relPath, done) + multiset{relPath + [f]}
  {
    var before := set g | g in done :: relPath + [g];
    var after := set g | g in done + {f} :: relPath + [g];
    assert after == before + {relPath + [f]};
    forall g | g in done
      ensures relPath + [g] != relPath + [f]
    {
      assert (relPath + [g])[|relPath|] == g;
    }
  }
}
