# glotter2-core in Dafny

A Dafny model of the core of glotter2-core, the library behind Glotter. Glotter tests
sample programs of many languages, stored one directory per language. The model covers
two revisions of the same three modules:

- the newer package `src/glotter_core/`;
- the older package `src/glotter/core/`.

What is modelled:

- **Project naming** (`project.py`). A project is a list of words, optional acronyms and
  an acronym scheme (lower, upper, two_letter_limit). It is rendered as a filename under
  one of five naming schemes (hyphen, underscore, camel, pascal, lower), and as a
  display name. Modules `Naming` (newer) and `LegacyNaming` (older).
- **Test information** (`testinfo.py`). A directory's `testinfo.yml` describes:
  - a container (image, tag, cmd, optional build);
  - a folder (the source extension and the naming scheme);
  - in the newer revision, a language display name and notes.

  The folder maps each project type to the filename expected in that directory. A
  language is testable when its container names an image, a tag and a command. Modules
  `TestInfos` and `LegacyTestInfos`.
- **Sources** (`source.py`). A source file knows:
  - its name (the text before the first dot);
  - its extension (`pathlib` suffixes, joined);
  - its full path.

  `categorize_sources` walks the language directories and collects four things:
  - the sources of each language;
  - the testable sources of each project type;
  - each language's test information;
  - the files that match no project ("bad sources").

  Module `SourceFiles` covers both revisions' `CoreSource`; module `Sources` covers the
  newer `CoreSourceCategories` and `categorize_sources`.

Python exceptions become `Err` values of `Wrappers.Result`: `ValueError(message)` or
`KeyError(key)`. Strings are ASCII; `Ascii` models `str.upper`, `str.lower`,
`str.title`, `str.join` and `str.split`.

`categorize_sources` is modelled twice:

- as a function, `Sources.Categorize`, a fold of `Step` over the walked directories;
- as imperative code, the class `Sources.CoreSourceCategories` and the method
  `Sources.CategorizeSources`.

The method fills a fresh object directory by directory and project by project, as the
original loops do. It is proved to produce exactly the categories of the function, or
the same error. `SourcesProperties` proves what those categories are.

## Model

| member | source | states |
|---|---|---|
| Naming.ParseNamingScheme | src/glotter_core/project.py:9-29 | `NamingScheme[s]`: a result names s; no result means no member has that name |
| Naming.ParseAcronymScheme | src/glotter_core/project.py:32-46 | `AcronymScheme[s]`: a result names s; no result means no member has that name |
| Naming.NewProject | src/glotter_core/project.py:137-165 | words are kept; acronyms are uppercased, none means []; no scheme means two_letter_limit; a member is kept; a string resolves to the member of that name, or fails with ValueError `Unknown acronym scheme: "s"` |
| Naming.GetProjectNameByScheme | src/glotter_core/project.py:60-82 | a member gives exactly its rendering (`Render`, the dispatch of lines 74-80); an unknown scheme name fails with ValueError `Unknown naming scheme "s"` |
| Naming.SchemeNameAgreesWithMember | src/glotter_core/project.py:70-82 | a string succeeds iff it names a member, and then equals rendering with that member; any failure is a ValueError |
| Naming.NonAcronymUnchanged | src/glotter_core/project.py:122-134 | a word that is not an acronym is returned unchanged |
| Naming.AcronymOverrideOnlyRecases | src/glotter_core/project.py:122-134 | the acronym override keeps the word's length and letters, changing only case |
| Naming.AcronymSchemeRules | src/glotter_core/project.py:122-134 | upper gives an all-uppercase word; lower an all-lowercase one; two_letter_limit uppercases exactly the words of at most two characters under camel or pascal and leaves the rest |
| Naming.CamelPascalEligibilityAgree | src/glotter_core/project.py:128-133 | camel and pascal share acronym eligibility, as do hyphen and underscore |
| Naming.AcronymMatchIgnoresCase | src/glotter_core/project.py:119-120 | a constructed project treats a word as an acronym iff some given acronym equals it up to case |
| Naming.SeparatedTwoLetterLimitPassThrough | src/glotter_core/project.py:95-99 | under two_letter_limit, hyphen and underscore are the words joined by the separator |
| Naming.SeparatedWithoutAcronyms | src/glotter_core/project.py:95-99 | without acronym words, hyphen and underscore are the words joined by the separator, under every acronym scheme |
| Naming.CamelIsLoweredHeadThenPascal | src/glotter_core/project.py:101-109 | camel is the lowercased first word followed by the pascal rendering of the other words |
| Naming.CamelHeadIgnoresAcronyms | src/glotter_core/project.py:101-104 | camel's first word is the lowercased first word, whatever the acronyms and acronym scheme |
| Naming.LowerIsLoweredConcatenation | src/glotter_core/project.py:111-112 | lower is the lowercased concatenation of the words |
| Naming.LowerIgnoresAcronyms | src/glotter_core/project.py:111-112 | lower does not depend on the acronyms or the acronym scheme |
| Naming.RenderingsSpellTheWords | src/glotter_core/project.py:95-117 | every rendering and the display name equal, up to case, the words joined by the scheme's separator (none dropped or reordered) |
| Naming.DisplayNameTwoLetterLimit | src/glotter_core/project.py:114-117 | under two_letter_limit the display name is the title-cased words joined by spaces |
| Naming.IsAcronym | src/glotter_core/project.py:119-120 | definition; specified by AcronymMatchIgnoresCase |
| Naming.TryAsAcronym | src/glotter_core/project.py:122-134 | definition; specified by NonAcronymUnchanged, AcronymOverrideOnlyRecases, AcronymSchemeRules, CamelPascalEligibilityAgree |
| Naming.AsHyphen | src/glotter_core/project.py:95-96 | definition; specified by SeparatedTwoLetterLimitPassThrough, SeparatedWithoutAcronyms, RenderingsSpellTheWords |
| Naming.AsUnderscore | src/glotter_core/project.py:98-99 | definition; specified by SeparatedTwoLetterLimitPassThrough, SeparatedWithoutAcronyms, RenderingsSpellTheWords |
| Naming.AsCamel | src/glotter_core/project.py:101-104 | definition; specified by CamelIsLoweredHeadThenPascal, CamelHeadIgnoresAcronyms, RenderingsSpellTheWords |
| Naming.AsPascal | src/glotter_core/project.py:106-109 | definition; specified by CamelIsLoweredHeadThenPascal, RenderingsSpellTheWords |
| Naming.AsLower | src/glotter_core/project.py:111-112 | definition; specified by LowerIsLoweredConcatenation, LowerIgnoresAcronyms, RenderingsSpellTheWords |
| Naming.DisplayName | src/glotter_core/project.py:114-117 | definition; specified by DisplayNameTwoLetterLimit, RenderingsSpellTheWords |
| Naming.Render | src/glotter_core/project.py:74-80 | definition (the dispatch table); specified by GetProjectNameByScheme, RenderingsSpellTheWords |
| NamingExamples.AcronymInMiddleDefault | test/test_project.py:79-88 | ["words","io","multiple"] with acronym io: hyphen `words-io-multiple`, camel `wordsIOMultiple` |
| NamingExamples.AcronymInMiddleLower | test/test_project.py:79-93 | the same words under lower: camel `wordsioMultiple`, pascal `WordsioMultiple` |
| NamingExamples.AcronymAtFront | test/test_project.py:61-77 | ["io","word"] under upper: camel `ioWord`, pascal `IOWord` |
| NamingExamples.DisplayNameUpper | test/test_project.py:213-221 | display name `File IO STUFF` |
| NamingExamples.DisplayNameLower | test/test_project.py:222-230 | display name `File io stuff` |
| NamingExamples.DisplayNameTwoLetterLimitExample | test/test_project.py:231-235 | display name `Some Xyz` |
| NamingExamples.JunkSchemeRefused | src/glotter_core/project.py:81-82 | "junk" is refused with ValueError `Unknown naming scheme "junk"` |
| NamingExamples.JunkAcronymSchemeRefused | src/glotter_core/project.py:159-165 | an unknown acronym-scheme name is refused at construction with ValueError |
| LegacyNaming.NewLegacyProject | src/glotter/core/project.py:58-63 | words kept; the acronyms are exactly the given ones uppercased, in order; no scheme means two_letter_limit; a given scheme, member or string, is stored as is, unvalidated |
| LegacyNaming.GetProjectNameByScheme | src/glotter/core/project.py:65-84 | a member gives exactly the rendering of the project the older methods behave as; any string, even a valid scheme name, fails with KeyError `Unknown naming scheme "s"` |
| LegacyNaming.OtherSchemesAreTwoLetterLimit | src/glotter/core/project.py:124-136 | an acronym scheme other than the members upper and lower renders and displays as two_letter_limit |
| LegacyNaming.UpperStringIsNotUpper | src/glotter/core/project.py:124-128 | the string "upper" is not the member and falls to the two-letter rule |
| LegacyNaming.AgreesWithNewerRevision | src/glotter/core/project.py:97-136 | with member arguments, the older revision renders and displays exactly as the newer one |
| LegacyNaming.SchemeNamesDiffer | src/glotter/core/project.py:75-84 | a valid scheme name renders in the newer revision and is a KeyError in the older |
| LegacyNaming.LegacyAcronymMatchIgnoresCase | src/glotter/core/project.py:121-122 | acronym matching ignores case in the older revision too |
| LegacyNaming.EffectiveScheme | src/glotter/core/project.py:124-136 | definition; specified by OtherSchemesAreTwoLetterLimit, UpperStringIsNotUpper |
| LegacyNaming.Effective | src/glotter/core/project.py:97-136 | definition; specified by AgreesWithNewerRevision, OtherSchemesAreTwoLetterLimit |
| LegacyNaming.DisplayName | src/glotter/core/project.py:86-95 | definition; specified by AgreesWithNewerRevision, OtherSchemesAreTwoLetterLimit |
| TestInfos.ContainerRoundTrip | src/glotter_core/testinfo.py:29-41 | reading back the mapping a ContainerInfo is written as gives it again |
| TestInfos.EmptyContainerDefaults | src/glotter_core/testinfo.py:24-41 | an empty mapping gives image, tag, cmd "" and no build, which is not truthy |
| TestInfos.ContainerTruthiness | src/glotter_core/testinfo.py:43-44 | truthy iff image, tag and cmd are present and non-empty; build never matters |
| TestInfos.NewFolderInfo | src/glotter_core/testinfo.py:62-66 | succeeds iff the naming string names a scheme, keeping the extension; otherwise ValueError `Unknown naming scheme: "s"` |
| TestInfos.FolderFromDict | src/glotter_core/testinfo.py:86-94 | KeyError for a missing extension, then for a missing naming; otherwise the folder constructor's result |
| TestInfos.FolderNaming | src/glotter_core/testinfo.py:62-66 | a folder mapping reads iff its naming names a scheme, and its scheme then has that name |
| TestInfos.GetProjectMappings | src/glotter_core/testinfo.py:68-84 | one entry per project: the project's name under the folder's naming scheme, with the extension appended only when asked |
| TestInfos.MappingsWithExtension | src/glotter_core/testinfo.py:80-84 | the mapping with extensions is the one without, each name followed by the extension |
| TestInfos.TestInfoFromDict | src/glotter_core/testinfo.py:121-138 | a missing folder is KeyError("folder"); otherwise succeeds iff the folder reads, failing with the folder's error |
| TestInfos.TestInfoDefaults | src/glotter_core/testinfo.py:130-137 | an explicit display name wins over the derived one; notes default to []; the container is the one read from the given mapping, and a missing container reads as the empty mapping, giving empty image, tag and cmd and no build; the folder is the one read from its mapping |
| TestInfos.TestableIffContainer | src/glotter_core/testinfo.py:156-164 | testable iff the container mapping has non-empty image, tag and cmd |
| TestInfos.JoinSpaceIsHyphensToSpaces | src/glotter_core/testinfo.py:170-176 | joining the hyphen-split fields with spaces replaces each hyphen by a space |
| TestInfos.PlainLanguageDisplayName | src/glotter_core/testinfo.py:170-176 | without symbol words the display name is the title-cased language with hyphens as spaces |
| TestInfos.SymbolLanguageDisplayName | src/glotter_core/testinfo.py:167-176 | with a plus, sharp or star word the tokens are joined without spaces, then title-cased |
| TestInfos.CPlusPlusDisplayName | test/test_testinfo.py:96-101 | "c-plus-plus" displays as `C++` |
| TestInfos.CSharpDisplayName | test/test_testinfo.py:104-109 | "c-sharp" displays as `C#` |
| TestInfos.CStarDisplayName | test/test_testinfo.py:112-117 | "c-star" displays as `C*` |
| TestInfos.ObjectiveCDisplayName | test/test_testinfo.py:144-149 | "objective-c" displays as `Objective C` |
| TestInfos.ObjectiveCTitle | test/test_testinfo.py:144-149 | title-casing "objective c" gives `Objective C` |
| TestInfos.PythonDisplayName | test/test_testinfo.py:78-81 | "python" displays as `Python` |
| TestInfos.ContainerFromDict | src/glotter_core/testinfo.py:29-41 | definition; specified by ContainerRoundTrip, EmptyContainerDefaults, ContainerTruthiness |
| TestInfos.IsTruthy | src/glotter_core/testinfo.py:43-44 | definition; specified by ContainerTruthiness, EmptyContainerDefaults |
| TestInfos.IsTestable | src/glotter_core/testinfo.py:156-164 | definition; specified by TestableIffContainer |
| TestInfos.LanguageDisplayName | src/glotter_core/testinfo.py:167-176 | definition; specified by PlainLanguageDisplayName, SymbolLanguageDisplayName and the display-name examples |
| LegacyTestInfos.LegacyContainerFromDict | src/glotter/core/testinfo.py:29-41 | KeyError for image, tag, cmd in that order; succeeds iff all three are present, with their values and build only when given |
| LegacyTestInfos.LegacyProjectMappings | src/glotter/core/testinfo.py:65-81 | one entry per project: its older-revision name under the folder's scheme, plus the extension when asked |
| LegacyTestInfos.LegacyTestInfoFromDict | src/glotter/core/testinfo.py:107-118 | KeyError("container") first, then the container's error, then KeyError("folder"), then the folder's own error; succeeds iff all read, with both values |
| LegacyTestInfos.ContainerAgreesWithNewerRevision | src/glotter/core/testinfo.py:29-41 | an older container that reads equals the newer reading; every container the newer revision finds truthy the older one reads |
| LegacyTestInfos.MissingContainerKeysDiffer | src/glotter/core/testinfo.py:37-39 | an empty mapping is KeyError("image") in the older revision and the empty container in the newer |
| LegacyTestInfos.MappingsAgreeWithNewerRevision | src/glotter/core/testinfo.py:65-81 | the older mappings are the newer mappings of the projects the older ones behave as |
| LegacyTestInfos.TestInfoAgreesWithNewerRevision | src/glotter/core/testinfo.py:107-118 | an older testinfo that reads is read by the newer revision with the same container and folder |
| LegacyTestInfos.MissingContainerDiffers | src/glotter/core/testinfo.py:115-117 | a document without container is KeyError in the older revision and an untestable TestInfo in the newer |
| SourceFiles.StripLeadingDots | src/glotter_core/source.py:46-49 | the result is a suffix of the input not starting with '.', and what was removed is all dots |
| SourceFiles.NewSource | src/glotter_core/source.py:33-34 | construction renders the raw testinfo against the source and reads it; succeeds iff that reads, keeping filename, language and path with the read TestInfo |
| SourceFiles.NewLegacySource | src/glotter/core/source.py:29-30 | the same, with the older revision's reading |
| SourceFiles.NameIsPrefixBeforeFirstDot | src/glotter_core/source.py:41-44 | the name is a prefix of the filename without a dot, followed by a dot or the end |
| SourceFiles.StrippedIsFirstFieldThenSuffixes | src/glotter_core/source.py:46-49 | without a trailing dot, the leading-dot-stripped name is its first field followed by the joined suffixes |
| SourceFiles.NoDotNoExtension | src/glotter_core/source.py:41-49 | a filename without a dot has no extension and is its own name |
| SourceFiles.JoinedSuffixesStartWithDot | src/glotter_core/source.py:46-49 | a non-empty extension starts with '.' |
| SourceFiles.JoinedSuffixesEndName | src/glotter_core/source.py:46-49 | the joined suffixes are a suffix of the name |
| SourceFiles.ExtensionEndsFilename | src/glotter_core/source.py:46-49 | the extension is a suffix of the filename |
| SourceFiles.NameExtensionRoundTrip | src/glotter_core/source.py:41-49 | without a leading or trailing dot, name followed by extension is the filename |
| SourceFiles.TrailingDotHasNoExtension | src/glotter_core/source.py:46-49 | a filename ending in '.' has no extension, so name and extension lose the filename |
| SourceFiles.LeadingDotOnly | src/glotter_core/source.py:41-49 | a dot-file with no further dot has empty name and no extension |
| SourceFiles.NoSuffixExample | test/test_source.py:89-101 | "name" gives name `name`, extension "" |
| SourceFiles.TwoFieldNameAndExtension | src/glotter_core/source.py:41-49 | a.b gives name a and extension .b |
| SourceFiles.OneSuffixExample | test/test_source.py:89-101 | "name.ext" gives `name` and `.ext` |
| SourceFiles.ThreeFieldNameAndExtension | src/glotter_core/source.py:41-49 | a.b.c gives name a and extension .b.c |
| SourceFiles.TwoSuffixExample | test/test_source.py:89-101 | "name.ext1.ext2" gives `name` and `.ext1.ext2` |
| SourceFiles.FullPathEndsWithFilename | src/glotter_core/source.py:36-39 | the full path is the path followed by the filename; its text splits back into those segments and is the path's text, a slash and the filename |
| SourceFiles.RevisionsAgreeOnSources | src/glotter/core/source.py:9-45 | a source the older revision builds, the newer builds too, with the same fields, container and folder |
| SourceFiles.MissingFolderFailsConstruction | src/glotter_core/source.py:33-34 | a rendered testinfo without folder makes construction fail with KeyError("folder") |
| SourceFiles.Suffixes | src/glotter_core/source.py:46-49 | definition (`Path.suffixes`); specified by StrippedIsFirstFieldThenSuffixes, JoinedSuffixesStartWithDot, JoinedSuffixesEndName |
| SourceFiles.CoreSource.FullPath | src/glotter_core/source.py:36-39 | definition; specified by FullPathEndsWithFilename |
| SourceFiles.CoreSource.Name | src/glotter_core/source.py:41-44 | definition; specified by NameIsPrefixBeforeFirstDot, NameExtensionRoundTrip and the name examples |
| SourceFiles.CoreSource.Extension | src/glotter_core/source.py:46-49 | definition; specified by ExtensionEndsFilename, NameExtensionRoundTrip, TrailingDotHasNoExtension, LeadingDotOnly and the extension examples |
| Sources.Initial | src/glotter_core/source.py:89-90 | categories start with an empty testable list for exactly each project type, and with no languages, no test information and no bad sources |
| Sources.AddMatches | src/glotter_core/source.py:103-108 | the matching loop keeps the project keys, test information and bad sources |
| Sources.ExpectedNames | src/glotter_core/source.py:99-102 | the expected filename mapping has exactly the project types as keys |
| Sources.Step | src/glotter_core/source.py:93-116 | one directory keeps the project keys |
| Sources.Fold | src/glotter_core/source.py:92-116 | the walk keeps the project keys |
| Sources.CoreSourceCategories.constructor | src/glotter_core/source.py:52-69 | all four categories start empty |
| Sources.CategorizeSources | src/glotter_core/source.py:75-118 | the in-place walk succeeds iff the fold does, building a fresh object with exactly the fold's categories, or failing with the fold's error |
| Sources.AddDirectory | src/glotter_core/source.py:93-116 | one directory updates the object to exactly the fold step's result, or reports the step's error |
| Sources.AddSources | src/glotter_core/source.py:103-108 | the matching loop over the projects in dictionary order updates the object as the functional loop does |
| Sources.AddSource | src/glotter_core/source.py:104-108 | one present expected file is built and appended to its language, and to its project when testable, or its error is reported |
| Sources.AddBadSources | src/glotter_core/source.py:110-116 | appends the directory's invalid files' relative paths and changes nothing else |
| Sources.FoldErrorSticks | src/glotter_core/source.py:92-116 | an error raised in a directory ends the walk with that error |
| Sources.AddMatchesErrorSticks | src/glotter_core/source.py:103-108 | an error building a source ends the matching loop with that error |
| Sources.BadPathsAddOne | src/glotter_core/source.py:113-116 | one more invalid file adds exactly its path once |
| Sources.Language | src/glotter_core/source.py:93-96 | definition (the name of the resolved directory); used by StepRecords, StepLanguageSources, TestInfoLanguages |
| Sources.InvalidFilenames | src/glotter_core/source.py:110-112 | definition; specified by BadSourcesOfDirectory, MatchedFilesAreNotBad |
| Sources.BadPaths | src/glotter_core/source.py:113-116 | definition; specified by BadPathsAddOne, BadSourcesOfDirectory |
| Sources.AddMatch | src/glotter_core/source.py:104-108 | definition of one project's match; specified by AddMatchConsistent and the AddMatches lemmas |
| Sources.Categorize | src/glotter_core/source.py:75-118 | definition (the walk from the initial categories); specified by CategoriesAreConsistent, CategorizeOkIff, TestInfoLanguages, and implemented by CategorizeSources |
| SourcesProperties.AddMatchConsistent | src/glotter_core/source.py:104-108 | one match keeps every testable source testable and listed under its language |
| SourcesProperties.AddMatchesConsistent | src/glotter_core/source.py:103-108 | the matching loop keeps that consistency |
| SourcesProperties.StepConsistent | src/glotter_core/source.py:93-116 | one directory keeps that consistency |
| SourcesProperties.FoldConsistent | src/glotter_core/source.py:92-116 | the walk keeps that consistency |
| SourcesProperties.CategoriesAreConsistent | src/glotter_core/source.py:75-118 | the result has exactly the project types as testable keys, and every testable source is testable and listed under its language |
| SourcesProperties.AddMatchesOkIff | src/glotter_core/source.py:103-108 | the matching loop succeeds iff every present expected file's source can be built |
| SourcesProperties.StepOkIff | src/glotter_core/source.py:94-108 | a directory succeeds iff it has no testinfo.yml, or its testinfo and its matched sources read |
| SourcesProperties.AllReadSplit | src/glotter_core/source.py:92-93 | every directory reads iff all earlier ones and the last one do |
| SourcesProperties.FoldOkIff | src/glotter_core/source.py:92-116 | the walk succeeds iff every directory reads |
| SourcesProperties.CategorizeOkIff | src/glotter_core/source.py:75-118 | `categorize_sources` returns iff every walked directory reads |
| SourcesProperties.SourcesReadSplit | src/glotter_core/source.py:103-108 | the sources of a prefix of project types and the last one read iff all do |
| SourcesProperties.MatchedNames | src/glotter_core/source.py:103-104 | the matched filenames are among the files and the expected names |
| SourcesProperties.MatchedNamesNonEmpty | src/glotter_core/source.py:103-104 | some file matched iff some project's expected filename is present |
| SourcesProperties.AddMatchesOtherLanguages | src/glotter_core/source.py:106 | the matching loop leaves the other languages alone |
| SourcesProperties.AddMatchesLanguageKey | src/glotter_core/source.py:106 | the language becomes a key iff it was one or some file matched |
| SourcesProperties.AddMatchesLanguageSources | src/glotter_core/source.py:106 | the language's list gains the sources of the matched files, in project order |
| SourcesProperties.AppendedSources | src/glotter_core/source.py:106 | appending one more built source extends the appended list by its filename |
| SourcesProperties.AddMatchesTestable | src/glotter_core/source.py:107-108 | each project type's testable list gains its own file's source exactly when that file is present and testable |
| SourcesProperties.StepSkips | src/glotter_core/source.py:94 | a directory without testinfo.yml changes nothing |
| SourcesProperties.StepRecords | src/glotter_core/source.py:97-98 | a directory with testinfo.yml records its test information under its language and adds its invalid files to the bad sources |
| SourcesProperties.StepLanguageSources | src/glotter_core/source.py:103-106 | a directory with testinfo.yml appends its matched files' sources to its language's list |
| SourcesProperties.StepLanguageKey | src/glotter_core/source.py:106 | after such a directory its language is a key iff it was one or some file matched |
| SourcesProperties.StepOtherLanguages | src/glotter_core/source.py:93-116 | a directory leaves the other languages' sources alone |
| SourcesProperties.StepTestable | src/glotter_core/source.py:107-108 | a directory adds to each project type's testable list its own file's source when present and testable |
| SourcesProperties.BadSourcesOfDirectory | src/glotter_core/source.py:110-116 | a directory's bad sources are the paths of exactly its files that are neither expected nor ignored, each once, each its relative path plus the filename |
| SourcesProperties.MatchedFilesAreNotBad | src/glotter_core/source.py:110-112 | no file that matched a project is a bad source |
| SourcesProperties.InfoLanguagesSplit | src/glotter_core/source.py:94-98 | languages with testinfo of a prefix plus the last directory |
| SourcesProperties.FoldTestInfoKeys | src/glotter_core/source.py:94-98 | the walk adds test information for exactly the languages of directories with testinfo.yml |
| SourcesProperties.TestInfoLanguages | src/glotter_core/source.py:94-98 | the recorded languages are those of the walked directories that hold testinfo.yml |

## Left out

- YAML parsing and Jinja2 rendering are parameters of the model. `Context.parse` is the parse of testinfo.yml text; `SourceFiles.Renderer` is the render-then-parse of a template against its source. Neither is interpreted. Both are total: a YAML or template error, or a document that is not a mapping, cannot make the walk fail, although the original raises there (src/glotter_core/source.py:97-99).
- YAML null values and non-string scalars are not modelled. A parsed mapping is a record of the top-level keys; each key is absent (None) or holds strings.
- `os.walk`, `Path.resolve`, `relative_to` and `read_text` are not modelled. The walk is given as its sequence of directory records, holding the relative path as segments, the set of filenames and the testinfo text. Symbolic links and file-system order are not modelled.
- `full_path` is a sequence of path segments. `PathText` gives its text with '/' separators; filenames containing '/' and `Path` normalisation are not modelled.
- Case mapping, title-casing and `split` are modelled on ASCII only; Unicode case rules are not modelled.
- Naming.AsCamel: requires at least one project word. The source indexes `words[0]` and would raise IndexError on an empty list. The same requirement carries to `Render`, `GetProjectNameByScheme`, the mappings and `ValidContext`.
- SourceFiles.Suffixes follows `pathlib` as in CPython 3.4 through 3.13: a name ending in '.' has no suffixes. Later versions (3.14 and on) differ for such names.
- The older `src/glotter/core/testinfo.py` imports `CoreProjectMixin`, which the older `project.py` does not define (line 11). The model reads it as if the import resolved to the older `CoreProject`.
- Sources.Categories: the bad sources are a multiset, not a list. The original collects them from a set, whose iteration order Python does not define. `CoreSourceCategories.badSources` is still a list, appended to in one such order.
- Sources.CategorizeSources: `source_cls` is fixed to the newer `CoreSource`. Other classes are not modelled.
- `CoreSourceCategories` annotates `testable_by_project` and `by_language` as dictionaries of single sources, but the code stores lists. The model follows the code.
- The settings modules, `constants.py`, `base.py`, `doc/conf.py` and the test fixtures are not part of this model.
- The full example tree of `test/test_source.py` is not restated. Its per-directory behaviour is what the `Step*` and `BadSourcesOfDirectory` lemmas state.
- The older `categorize_sources` is not part of this model; the older `source.py` defines only `CoreSource`.
