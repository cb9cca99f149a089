/**
 * What `categorize_sources` promises, proved about its specification `Categorize`
 * (which `Sources.CategorizeSources` computes in place).
 */
module SourcesProperties {
  import opened Wrappers
  import TestInfos
  import SourceFiles
  import opened Sources

  // ---------------------------------------------------------------------------
  // Consistency of the categories

  /** Every testable source is testable and listed under its language; every language
      key holds at least one source, all of that language. */
  predicate Consistent(c: Categories) {
    (forall pt, k :: pt in c.testableByProject && 0 <= k < |c.testableByProject[pt]| ==>
       TestInfos.IsTestable(c.testableByProject[pt][k].testInfo) &&
       c.testableByProject[pt][k].language in c.byLanguage &&
       c.testableByProject[pt][k] in c.byLanguage[c.testableByProject[pt][k].language]) &&
    (forall lang :: lang in c.byLanguage ==>
       |c.byLanguage[lang]| > 0 &&
       forall k :: 0 <= k < |c.byLanguage[lang]| ==> c.byLanguage[lang][k].language == lang)
  }

  lemma AddMatchConsistent(ctx: Context, d: Directory, names: map<string, string>, c: Categories, projectType: string)
    requires projectType in c.testableByProject && projectType in names
    requires Consistent(c) && AddMatch(ctx, d, names, c, projectType).Ok?
    ensures Consistent(AddMatch(ctx, d, names, c, projectType).value)
  {
    if names[projectType] in d.files {
      var src := SourceFor(ctx, d, names[projectType]).value;
      var lang := Language(ctx, d);
      var r := AddMatch(ctx, d, names, c, projectType).value;
      assert src.language == lang;
      var listed := MapGet(c.byLanguage, lang, []) + [src];
      assert r.byLanguage == c.byLanguage[lang := listed];
      forall l | l in c.byLanguage
        ensures l in r.byLanguage && forall s :: s in c.byLanguage[l] ==> s in r.byLanguage[l]
      {
        if l == lang {
          assert listed[..|c.byLanguage[l]|] == c.byLanguage[l];
        }
      }
      assert src in r.byLanguage[lang];
    }
  }

  lemma {:induction false} AddMatchesConsistent(ctx: Context, d: Directory, names: map<string, string>, c: Categories, types: seq<string>)
    requires forall i :: 0 <= i < |types| ==> types[i] in c.testableByProject && types[i] in names
    requires Consistent(c) && AddMatches(ctx, d, names, c, types).Ok?
    ensures Consistent(AddMatches(ctx, d, names, c, types).value)
    decreases |types|
  {
    if |types| > 0 {
      var prefix := types[..|types| - 1];
      AddMatchesConsistent(ctx, d, names, c, prefix);
      AddMatchConsistent(ctx, d, names, AddMatches(ctx, d, names, c, prefix).value, types[|types| - 1]);
    }
  }

  lemma StepConsistent(ctx: Context, c: Categories, d: Directory)
    requires ValidContext(ctx) && c.testableByProject.Keys == ctx.projects.Keys
    requires Consistent(c) && Step(ctx, c, d).Ok?
    ensures Consistent(Step(ctx, c, d).value)
  {
    if TestInfoFilename in d.files {
      var info := DirectoryInfo(ctx, d).value;
      var names := ExpectedNames(ctx, info);
      var withInfo := c.(testInfo := c.testInfo[Language(ctx, d) := info]);
      AddMatchesConsistent(ctx, d, names, withInfo, ctx.order);
    }
  }

  lemma {:induction false} FoldConsistent(ctx: Context, c: Categories, dirs: seq<Directory>)
    requires ValidContext(ctx) && c.testableByProject.Keys == ctx.projects.Keys
    requires Consistent(c) && Fold(ctx, c, dirs).Ok?
    ensures Consistent(Fold(ctx, c, dirs).value)
    decreases |dirs|
  {
    if |dirs| > 0 {
      var prefix := dirs[..|dirs| - 1];
      FoldConsistent(ctx, c, prefix);
      StepConsistent(ctx, Fold(ctx, c, prefix).value, dirs[|dirs| - 1]);
    }
  }

  /** The categories `categorize_sources` returns: `testable_by_project` has exactly
      the project keys; each testable source is testable and is among its language's
      sources; a language key exists only with at least one source of that language. */
  lemma CategoriesAreConsistent(ctx: Context, dirs: seq<Directory>)
    requires ValidContext(ctx) && Categorize(ctx, dirs).Ok?
    ensures Categorize(ctx, dirs).value.testableByProject.Keys == ctx.projects.Keys
    ensures Consistent(Categorize(ctx, dirs).value)
  {
    FoldConsistent(ctx, Initial(ctx), dirs);
  }

  // ---------------------------------------------------------------------------
  // When categorisation raises

  /** A directory the walk gets through: without testinfo.yml it is skipped; with it,
      its test information reads, and so does each source built for a matched file. */
  predicate DirectoryReads(ctx: Context, d: Directory)
    requires ValidContext(ctx)
  {
    TestInfoFilename in d.files ==>
      DirectoryInfo(ctx, d).Ok? &&
      var names := ExpectedNames(ctx, DirectoryInfo(ctx, d).value);
      forall pt :: pt in ctx.projects && names[pt] in d.files ==> SourceFor(ctx, d, names[pt]).Ok?
  }

  /** Every source built for a matched file among these project types reads. */
  predicate SourcesRead(ctx: Context, d: Directory, names: map<string, string>, types: seq<string>)
    requires forall i :: 0 <= i < |types| ==> types[i] in names
  {
    forall i :: 0 <= i < |types| && names[types[i]] in d.files ==> SourceFor(ctx, d, names[types[i]]).Ok?
  }

  lemma SourcesReadSplit(ctx: Context, d: Directory, names: map<string, string>, types: seq<string>)
    requires forall i :: 0 <= i < |types| ==> types[i] in names
    requires |types| > 0
    ensures var last := types[|types| - 1];
      SourcesRead(ctx, d, names, types) <==>
      SourcesRead(ctx, d, names, types[..|types| - 1]) && (names[last] in d.files ==> SourceFor(ctx, d, names[last]).Ok?)
  {
    var prefix := types[..|types| - 1];
    assert forall i :: 0 <= i < |prefix| ==> prefix[i] == types[i];
  }

  lemma {:induction false} AddMatchesOkIff(ctx: Context, d: Directory, names: map<string, string>, c: Categories, types: seq<string>)
    requires forall i :: 0 <= i < |types| ==> types[i] in c.testableByProject && types[i] in names
    ensures AddMatches(ctx, d, names, c, types).Ok? <==> SourcesRead(ctx, d, names, types)
    decreases |types|
  {
    if |types| > 0 {
      AddMatchesOkIff(ctx, d, names, c, types[..|types| - 1]);
      SourcesReadSplit(ctx, d, names, types);
    }
  }

  lemma StepOkIff(ctx: Context, c: Categories, d: Directory)
    requires ValidContext(ctx) && c.testableByProject.Keys == ctx.projects.Keys
    ensures Step(ctx, c, d).Ok? <==> DirectoryReads(ctx, d)
  {
    if TestInfoFilename in d.files && DirectoryInfo(ctx, d).Ok? {
      var info := DirectoryInfo(ctx, d).value;
      var names := ExpectedNames(ctx, info);
      var withInfo := c.(testInfo := c.testInfo[Language(ctx, d) := info]);
      AddMatchesOkIff(ctx, d, names, withInfo, ctx.order);
      if !DirectoryReads(ctx, d) {
        var pt :| pt in ctx.projects && names[pt] in d.files && SourceFor(ctx, d, names[pt]).Err?;
        var i :| 0 <= i < |ctx.order| && ctx.order[i] == pt;
      }
    }
  }

  /** Every directory of the walk gets through. */
  predicate AllRead(ctx: Context, dirs: seq<Directory>)
    requires ValidContext(ctx)
  {
    forall i :: 0 <= i < |dirs| ==> DirectoryReads(ctx, dirs[i])
  }

  lemma AllReadSplit(ctx: Context, dirs: seq<Directory>)
    requires ValidContext(ctx) && |dirs| > 0
    ensures AllRead(ctx, dirs) <==> AllRead(ctx, dirs[..|dirs| - 1]) && DirectoryReads(ctx, dirs[|dirs| - 1])
  {
    var prefix := dirs[..|dirs| - 1];
    assert forall i :: 0 <= i < |prefix| ==> prefix[i] == dirs[i];
  }

  lemma {:induction false} FoldOkIff(ctx: Context, c: Categories, dirs: seq<Directory>)
    requires ValidContext(ctx) && c.testableByProject.Keys == ctx.projects.Keys
    ensures Fold(ctx, c, dirs).Ok? <==> AllRead(ctx, dirs)
    decreases |dirs|
  {
    if |dirs| > 0 {
      var prefix := dirs[..|dirs| - 1];
      FoldOkIff(ctx, c, prefix);
      AllReadSplit(ctx, dirs);
      if Fold(ctx, c, prefix).Ok? {
        StepOkIff(ctx, Fold(ctx, c, prefix).value, dirs[|dirs| - 1]);
      }
    }
  }

  /** `categorize_sources` returns exactly when every directory with testinfo.yml
      has test information that reads and every source built in it reads; otherwise
      it raises. */
  lemma CategorizeOkIff(ctx: Context, dirs: seq<Directory>)
    requires ValidContext(ctx)
    ensures Categorize(ctx, dirs).Ok? <==> forall i :: 0 <= i < |dirs| ==> DirectoryReads(ctx, dirs[i])
  {
    FoldOkIff(ctx, Initial(ctx), dirs);
    assert AllRead(ctx, dirs) <==> forall i :: 0 <= i < |dirs| ==> DirectoryReads(ctx, dirs[i]);
  }

  // ---------------------------------------------------------------------------
  // One directory

  /** The expected filenames that are among a directory's files, in project order. */
  function MatchedNames(names: map<string, string>, files: set<string>, types: seq<string>): (r: seq<string>)
    requires forall i :: 0 <= i < |types| ==> types[i] in names
    ensures forall k :: 0 <= k < |r| ==> r[k] in files && r[k] in names.Values
    decreases |types|
  {
    if |types| == 0 then []
    else
      var last := types[|types| - 1];
      MatchedNames(names, files, types[..|types| - 1]) + (if names[last] in files then [names[last]] else [])
  }

  /** The inner loop leaves the languages other than the directory's alone. */
  lemma {:induction false} AddMatchesOtherLanguages(ctx: Context, d: Directory, names: map<string, string>, c: Categories, types: seq<string>, l: string)
    requires forall i :: 0 <= i < |types| ==> types[i] in c.testableByProject && types[i] in names
    requires AddMatches(ctx, d, names, c, types).Ok? && l != Language(ctx, d)
    ensures var r := AddMatches(ctx, d, names, c, types).value;
      (l in r.byLanguage <==> l in c.byLanguage) && (l in c.byLanguage ==> r.byLanguage[l] == c.byLanguage[l])
    decreases |types|
  {
    if |types| > 0 {
      AddMatchesOtherLanguages(ctx, d, names, c, types[..|types| - 1], l);
    }
  }

  /** The directory's language is a key afterwards exactly when it was one before or
      some file matched. */
  lemma {:induction false} AddMatchesLanguageKey(ctx: Context, d: Directory, names: map<string, string>, c: Categories, types: seq<string>)
    requires forall i :: 0 <= i < |types| ==> types[i] in c.testableByProject && types[i] in names
    requires AddMatches(ctx, d, names, c, types).Ok?
    ensures Language(ctx, d) in AddMatches(ctx, d, names, c, types).value.byLanguage <==>
      Language(ctx, d) in c.byLanguage || |MatchedNames(names, d.files, types)| > 0
    decreases |types|
  {
    if |types| > 0 {
      AddMatchesLanguageKey(ctx, d, names, c, types[..|types| - 1]);
    }
  }

  /** The inner loop appends the sources of the matched files to the directory's
      language, in project order. */
  lemma {:induction false} AddMatchesLanguageSources(ctx: Context, d: Directory, names: map<string, string>, c: Categories, types: seq<string>)
    requires forall i :: 0 <= i < |types| ==> types[i] in c.testableByProject && types[i] in names
    requires AddMatches(ctx, d, names, c, types).Ok?
    ensures var lang := Language(ctx, d);
      var before := MapGet(c.byLanguage, lang, []);
      var after := MapGet(AddMatches(ctx, d, names, c, types).value.byLanguage, lang, []);
      var m := MatchedNames(names, d.files, types);
      Appends(ctx, d, before, after, m)
    decreases |types|
  {
    if |types| > 0 {
      var prefix := types[..|types| - 1];
      AddMatchesLanguageSources(ctx, d, names, c, prefix);
      var mid := AddMatches(ctx, d, names, c, prefix).value;
      var last := types[|types| - 1];
      if names[last] in d.files {
        var lang := Language(ctx, d);
        var before := MapGet(c.byLanguage, lang, []);
        var between := MapGet(mid.byLanguage, lang, []);
        var src := SourceFor(ctx, d, names[last]).value;
        AppendedSources(ctx, d, before, between, src, MatchedNames(names, d.files, prefix), names[last]);
      }
    }
  }

  /** `after` is `before` followed by the sources built for the filenames `m`. */
  predicate Appends(ctx: Context, d: Directory, before: seq<Source>, after: seq<Source>, m: seq<string>) {
    |after| == |before| + |m| && after[..|before|] == before &&
    forall k :: 0 <= k < |m| ==> SourceFor(ctx, d, m[k]) == Ok(after[|before| + k])
  }

  lemma AppendedSources(ctx: Context, d: Directory, before: seq<Source>, between: seq<Source>, src: Source, m: seq<string>, name: string)
    requires Appends(ctx, d, before, between, m)
    requires SourceFor(ctx, d, name) == Ok(src)
    ensures Appends(ctx, d, before, between + [src], m + [name])
  {
    var after := between + [src];
    assert after[..|before|] == between[..|before|];
  }

  /** Sequence membership of a value that occurs exactly at one index. */
  predicate Occurs(types: seq<string>, t: string) {
    exists i :: 0 <= i < |types| && types[i] == t
  }

  /** The testable source a project type gains from its expected file: one when the
      file is present and the source built for it is testable, none otherwise. */
  function Gained(ctx: Context, d: Directory, name: string): seq<Source> {
    if name in d.files && SourceFor(ctx, d, name).Ok? && TestInfos.IsTestable(SourceFor(ctx, d, name).value.testInfo)
    then [SourceFor(ctx, d, name).value] else []
  }

  /** For distinct project types, each type's testable list gains its own source when
      its expected file is present and the source is testable, and nothing else. */
  lemma {:induction false} AddMatchesTestable(ctx: Context, d: Directory, names: map<string, string>, c: Categories, types: seq<string>, pt: string)
    requires forall i :: 0 <= i < |types| ==> types[i] in c.testableByProject && types[i] in names
    requires forall i, j :: 0 <= i < j < |types| ==> types[i] != types[j]
    requires AddMatches(ctx, d, names, c, types).Ok? && pt in c.testableByProject
    ensures AddMatches(ctx, d, names, c, types).value.testableByProject[pt] ==
      c.testableByProject[pt] + (if Occurs(types, pt) then Gained(ctx, d, names[pt]) else [])
    decreases |types|
  {
    if |types| > 0 {
      var prefix := types[..|types| - 1];
      var last := types[|types| - 1];
      AddMatchesTestable(ctx, d, names, c, prefix, pt);
      assert Occurs(types, pt) <==> Occurs(prefix, pt) || pt == last by {
        if Occurs(types, pt) && pt != last {
          var i :| 0 <= i < |types| && types[i] == pt;
          assert prefix[i] == pt;
        }
        if Occurs(prefix, pt) {
          var i :| 0 <= i < |prefix| && prefix[i] == pt;
          assert types[i] == pt;
        }
      }
    }
  }

  /** One directory without testinfo.yml changes nothing. */
  lemma StepSkips(ctx: Context, c: Categories, d: Directory)
    requires ValidContext(ctx) && c.testableByProject.Keys == ctx.projects.Keys
    requires TestInfoFilename !in d.files
    ensures Step(ctx, c, d) == Ok(c)
  {
  }

  /** A directory with testinfo.yml records its test information under its language
      and adds its invalid filenames as bad sources. */
  lemma StepRecords(ctx: Context, c: Categories, d: Directory)
    requires ValidContext(ctx) && c.testableByProject.Keys == ctx.projects.Keys
    requires Step(ctx, c, d).Ok? && TestInfoFilename in d.files
    ensures var info := DirectoryInfo(ctx, d).value;
      var r := Step(ctx, c, d).value;
      r.testInfo == c.testInfo[Language(ctx, d) := info] &&
      r.badSources == c.badSources + BadPaths(d.relPath, InvalidFilenames(d.files, ExpectedNames(ctx, info)))
  {
  }

  /** A directory with testinfo.yml appends the sources of its matched files to its
      language, in project order. */
  lemma StepLanguageSources(ctx: Context, c: Categories, d: Directory)
    requires ValidContext(ctx) && c.testableByProject.Keys == ctx.projects.Keys
    requires Step(ctx, c, d).Ok? && TestInfoFilename in d.files
    ensures var names := ExpectedNames(ctx, DirectoryInfo(ctx, d).value);
      var lang := Language(ctx, d);
      var m := MatchedNames(names, d.files, ctx.order);
      var before := MapGet(c.byLanguage, lang, []);
      var after := MapGet(Step(ctx, c, d).value.byLanguage, lang, []);
      Appends(ctx, d, before, after, m)
  {
    var info := DirectoryInfo(ctx, d).value;
    var names := ExpectedNames(ctx, info);
    var withInfo := c.(testInfo := c.testInfo[Language(ctx, d) := info]);
    var added := AddMatches(ctx, d, names, withInfo, ctx.order);
    assert added.Ok? && Step(ctx, c, d).value.byLanguage == added.value.byLanguage;
    assert withInfo.byLanguage == c.byLanguage;
    AddMatchesLanguageSources(ctx, d, names, withInfo, ctx.order);
  }

  /** After a directory with testinfo.yml its language is a key exactly when it was
      one or some project's expected file is among the directory's files. */
  lemma StepLanguageKey(ctx: Context, c: Categories, d: Directory)
    requires ValidContext(ctx) && c.testableByProject.Keys == ctx.projects.Keys
    requires Step(ctx, c, d).Ok? && TestInfoFilename in d.files
    ensures var names := ExpectedNames(ctx, DirectoryInfo(ctx, d).value);
      Language(ctx, d) in Step(ctx, c, d).value.byLanguage <==>
      Language(ctx, d) in c.byLanguage || exists pt :: pt in ctx.projects && names[pt] in d.files
  {
    var info := DirectoryInfo(ctx, d).value;
    var names := ExpectedNames(ctx, info);
    var withInfo := c.(testInfo := c.testInfo[Language(ctx, d) := info]);
    AddMatchesLanguageKey(ctx, d, names, withInfo, ctx.order);
    MatchedNamesNonEmpty(names, d.files, ctx.order);
    if exists pt :: pt in ctx.projects && names[pt] in d.files {
      var pt :| pt in ctx.projects && names[pt] in d.files;
      var i :| 0 <= i < |ctx.order| && ctx.order[i] == pt;
    }
  }

  /** A directory leaves the other languages' sources alone. */
  lemma StepOtherLanguages(ctx: Context, c: Categories, d: Directory, l: string)
    requires ValidContext(ctx) && c.testableByProject.Keys == ctx.projects.Keys
    requires Step(ctx, c, d).Ok? && l != Language(ctx, d)
    ensures var r := Step(ctx, c, d).value;
      (l in r.byLanguage <==> l in c.byLanguage) && (l in c.byLanguage ==> r.byLanguage[l] == c.byLanguage[l])
  {
    if TestInfoFilename in d.files {
      var info := DirectoryInfo(ctx, d).value;
      var withInfo := c.(testInfo := c.testInfo[Language(ctx, d) := info]);
      AddMatchesOtherLanguages(ctx, d, ExpectedNames(ctx, info), withInfo, ctx.order, l);
    }
  }

  /** A directory with testinfo.yml adds to each project type's testable list its own
      source exactly when the file is present and the source is testable. */
  lemma StepTestable(ctx: Context, c: Categories, d: Directory, pt: string)
    requires ValidContext(ctx) && c.testableByProject.Keys == ctx.projects.Keys
    requires Step(ctx, c, d).Ok? && TestInfoFilename in d.files && pt in ctx.projects
    ensures var names := ExpectedNames(ctx, DirectoryInfo(ctx, d).value);
      Step(ctx, c, d).value.testableByProject[pt] == c.testableByProject[pt] + Gained(ctx, d, names[pt])
  {
    var info := DirectoryInfo(ctx, d).value;
    var names := ExpectedNames(ctx, info);
    var withInfo := c.(testInfo := c.testInfo[Language(ctx, d) := info]);
    AddMatchesTestable(ctx, d, names, withInfo, ctx.order, pt);
    var i :| 0 <= i < |ctx.order| && ctx.order[i] == pt;
    assert Occurs(ctx.order, pt);
  }

  /** Some file matched exactly when some project's expected filename is present. */
  lemma {:induction false} MatchedNamesNonEmpty(names: map<string, string>, files: set<string>, types: seq<string>)
    requires forall i :: 0 <= i < |types| ==> types[i] in names
    ensures |MatchedNames(names, files, types)| > 0 <==> exists i :: 0 <= i < |types| && names[types[i]] in files
    decreases |types|
  {
    if |types| > 0 {
      var prefix := types[..|types| - 1];
      MatchedNamesNonEmpty(names, files, prefix);
      if exists i :: 0 <= i < |prefix| && names[prefix[i]] in files {
        var i :| 0 <= i < |prefix| && names[prefix[i]] in files;
        assert types[i] == prefix[i];
      }
      if exists i :: 0 <= i < |types| && names[types[i]] in files {
        var i :| 0 <= i < |types| && names[types[i]] in files;
        if i < |prefix| {
          assert prefix[i] == types[i];
        }
      }
    }
  }

  // ---------------------------------------------------------------------------
  // Bad sources

  /** A directory's bad sources are the paths of exactly those of its files that are
      neither expected nor ignored, each once; so no matched source's file is among them. */
  lemma BadSourcesOfDirectory(relPath: seq<string>, files: set<string>, names: map<string, string>)
    ensures var bad := BadPaths(relPath, InvalidFilenames(files, names));
      (forall f :: f in files ==>
        (relPath + [f] in bad <==> f !in names.Values && f !in IgnoredFilenames)) &&
      (forall p :: p in bad ==> bad[p] == 1 && |p| == |relPath| + 1 && p[..|relPath|] == relPath && p[|relPath|] in files)
  {
    var invalid := InvalidFilenames(files, names);
    var paths := set f | f in invalid :: relPath + [f];
    forall f | f in files
      ensures relPath + [f] in paths <==> f in invalid
    {
      if relPath + [f] in paths {
        var g :| g in invalid && relPath + [g] == relPath + [f];
        assert (relPath + [g])[|relPath|] == g;
      }
    }
    forall p | p in paths
      ensures |p| == |relPath| + 1 && p[..|relPath|] == relPath && p[|relPath|] in files
    {
      var g :| g in invalid && p == relPath + [g];
      assert p[..|relPath|] == relPath;
    }
  }

  /** No file that matched a project is a bad source. */
  lemma MatchedFilesAreNotBad(relPath: seq<string>, files: set<string>, names: map<string, string>, projectType: string)
    requires projectType in names && names[projectType] in files
    ensures relPath + [names[projectType]] !in BadPaths(relPath, InvalidFilenames(files, names))
  {
    BadSourcesOfDirectory(relPath, files, names);
  }

  // ---------------------------------------------------------------------------
  // Test information over the walk

  /** The languages of the directories that hold testinfo.yml. */
  function InfoLanguages(ctx: Context, dirs: seq<Directory>): set<string> {
    set i | 0 <= i < |dirs| && TestInfoFilename in dirs[i].files :: Language(ctx, dirs[i])
  }

  lemma InfoLanguagesSplit(ctx: Context, dirs: seq<Directory>)
    requires |dirs| > 0
    ensures var last := dirs[|dirs| - 1];
      InfoLanguages(ctx, dirs) ==
      InfoLanguages(ctx, dirs[..|dirs| - 1]) + (if TestInfoFilename in last.files then {Language(ctx, last)} else {})
  {
    var prefix := dirs[..|dirs| - 1];
    assert forall i :: 0 <= i < |prefix| ==> prefix[i] == dirs[i];
  }

  /** The languages with recorded test information are those of the directories that
      hold testinfo.yml. */
  lemma {:induction false} FoldTestInfoKeys(ctx: Context, c: Categories, dirs: seq<Directory>)
    requires ValidContext(ctx) && c.testableByProject.Keys == ctx.projects.Keys
    requires Fold(ctx, c, dirs).Ok?
    ensures Fold(ctx, c, dirs).value.testInfo.Keys == c.testInfo.Keys + InfoLanguages(ctx, dirs)
    decreases |dirs|
  {
    if |dirs| > 0 {
      var prefix := dirs[..|dirs| - 1];
      FoldTestInfoKeys(ctx, c, prefix);
      InfoLanguagesSplit(ctx, dirs);
      if TestInfoFilename in dirs[|dirs| - 1].files {
        StepRecords(ctx, Fold(ctx, c, prefix).value, dirs[|dirs| - 1]);
      }
    }
  }

  /** The walk's recorded languages: those of its directories with testinfo.yml. */
  lemma TestInfoLanguages(ctx: Context, dirs: seq<Directory>)
    requires ValidContext(ctx) && Categorize(ctx, dirs).Ok?
    ensures Categorize(ctx, dirs).value.testInfo.Keys == InfoLanguages(ctx, dirs)
  {
    FoldTestInfoKeys(ctx, Initial(ctx), dirs);
  }
}
