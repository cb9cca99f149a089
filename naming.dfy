/**
 * The project-naming engine of the newer revision (src/glotter_core/project.py):
 * a project's words become a filename under one of five naming schemes, with the
 * case of acronym words overridden by one of three acronym schemes, and a
 * space-separated display name.
 */
module Naming {
  import opened Wrappers
  import Ascii

  datatype NamingScheme = Hyphen | Underscore | Camel | Pascal | Lower

  datatype AcronymScheme = AcronymLower | AcronymUpper | TwoLetterLimit

  /** A naming-scheme argument: a `NamingScheme` member or a string naming one. */
  datatype SchemeArg = Scheme(scheme: NamingScheme) | SchemeName(name: string)

  /** An acronym-scheme argument: an `AcronymScheme` member or a string naming one. */
  datatype AcronymArg = Acronyms(scheme: AcronymScheme) | AcronymName(name: string)

  /** The member name of each naming scheme, as `NamingScheme[name]` looks it up. */
  function NamingSchemeName(n: NamingScheme): string {
    match n
    case Hyphen => "hyphen"
    case Underscore => "underscore"
    case Camel => "camel"
    case Pascal => "pascal"
    case Lower => "lower"
  }

  function AcronymSchemeName(a: AcronymScheme): string {
    match a
    case AcronymLower => "lower"
    case AcronymUpper => "upper"
    case TwoLetterLimit => "two_letter_limit"
  }

  /** `NamingScheme[s]`: the member whose name is s, if any. */
  function ParseNamingScheme(s: string): (r: Option<NamingScheme>)
    ensures r.Some? ==> NamingSchemeName(r.value) == s
    ensures r.None? ==> forall n: NamingScheme :: NamingSchemeName(n) != s
  {
    if s == "hyphen" then Some(Hyphen)
    else if s == "underscore" then Some(Underscore)
    else if s == "camel" then Some(Camel)
    else if s == "pascal" then Some(Pascal)
    else if s == "lower" then Some(Lower)
    else None
  }

  /** `AcronymScheme[s]`: the member whose name is s, if any. */
  function ParseAcronymScheme(s: string): (r: Option<AcronymScheme>)
    ensures r.Some? ==> AcronymSchemeName(r.value) == s
    ensures r.None? ==> forall a: AcronymScheme :: AcronymSchemeName(a) != s
  {
    if s == "lower" then Some(AcronymLower)
    else if s == "upper" then Some(AcronymUpper)
    else if s == "two_letter_limit" then Some(TwoLetterLimit)
    else None
  }

  /** A constructed `CoreProject`: acronyms are stored uppercased and the acronym
      scheme is resolved to a member. */
  datatype CoreProject = CoreProject(words: seq<string>, acronyms: seq<string>, acronymScheme: AcronymScheme)

  const DefaultAcronymScheme: AcronymScheme := TwoLetterLimit

  function UpperAll(ws: seq<string>): seq<string> {
    seq(|ws|, i requires 0 <= i < |ws| => Ascii.Upper(ws[i]))
  }

  /** `CoreProject(words, acronyms=..., acronym_scheme=...)` with `__post_init__`; a
      keyword left out is None. An unknown acronym-scheme name raises ValueError. */
  function NewProject(words: seq<string>, acronyms: Option<seq<string>>, scheme: Option<AcronymArg>): (r: Result<CoreProject>)
    ensures r.Ok? ==> r.value.words == words && r.value.acronyms == UpperAll(GetOr(acronyms, []))
    ensures scheme.None? ==> r.Ok? && r.value.acronymScheme == TwoLetterLimit
    ensures scheme.Some? && scheme.value.Acronyms? ==> r.Ok? && r.value.acronymScheme == scheme.value.scheme
    ensures scheme.Some? && scheme.value.AcronymName? ==>
      match ParseAcronymScheme(scheme.value.name)
      case Some(a) => r.Ok? && AcronymSchemeName(r.value.acronymScheme) == scheme.value.name
      case None => r == Err(ValueError("Unknown acronym scheme: \"" + scheme.value.name + "\""))
  {
    var upper := UpperAll(GetOr(acronyms, []));
    match GetOr(scheme, Acronyms(DefaultAcronymScheme))
    case Acronyms(a) => Ok(CoreProject(words, upper, a))
    case AcronymName(s) =>
      match ParseAcronymScheme(s)
      case Some(a) => Ok(CoreProject(words, upper, a))
      case None => Err(ValueError("Unknown acronym scheme: \"" + s + "\""))
  }

  /** `_is_acronym`: the uppercased word is one of the (uppercased) acronyms. */
  predicate IsAcronym(p: CoreProject, word: string) {
    Ascii.Upper(word) in p.acronyms
  }

  /** `_try_as_acronym`: the case override for an acronym word. */
  function TryAsAcronym(p: CoreProject, word: string, naming: NamingScheme): string {
    if IsAcronym(p, word) then
      match p.acronymScheme
      case AcronymUpper => Ascii.Upper(word)
      case AcronymLower => Ascii.Lower(word)
      case TwoLetterLimit =>
        if |word| <= 2 && (naming == Camel || naming == Pascal) then Ascii.Upper(word) else word
    else word
  }

  /** Each word, acronym-resolved as it is. */
  function ResolvedWords(p: CoreProject, ws: seq<string>, naming: NamingScheme): seq<string> {
    seq(|ws|, i requires 0 <= i < |ws| => TryAsAcronym(p, ws[i], naming))
  }

  /** Each word title-cased, then acronym-resolved. */
  function TitledWords(p: CoreProject, ws: seq<string>, naming: NamingScheme): seq<string> {
    seq(|ws|, i requires 0 <= i < |ws| => TryAsAcronym(p, Ascii.Title(ws[i]), naming))
  }

  function LoweredWords(ws: seq<string>): seq<string> {
    seq(|ws|, i requires 0 <= i < |ws| => Ascii.Lower(ws[i]))
  }

  function AsHyphen(p: CoreProject): string {
    Ascii.Join("-", ResolvedWords(p, p.words, Hyphen))
  }

  function AsUnderscore(p: CoreProject): string {
    Ascii.Join("_", ResolvedWords(p, p.words, Underscore))
  }

  function AsCamel(p: CoreProject): string
    requires |p.words| > 0
  {
    Ascii.Lower(p.words[0]) + Ascii.Join("", TitledWords(p, p.words[1..], Camel))
  }

  function AsPascal(p: CoreProject): string {
    Ascii.Join("", TitledWords(p, p.words, Pascal))
  }

  function AsLower(p: CoreProject): string {
    Ascii.Join("", LoweredWords(p.words))
  }

  /** `display_name`: title-cased words, acronym-resolved with the underscore scheme's
      eligibility, joined by single spaces. */
  function DisplayName(p: CoreProject): string {
    Ascii.Join(" ", TitledWords(p, p.words, Underscore))
  }

  /** The dispatch table of `get_project_name_by_scheme`, on a resolved scheme. */
  function Render(p: CoreProject, n: NamingScheme): string
    requires |p.words| > 0
  {
    match n
    case Hyphen => AsHyphen(p)
    case Underscore => AsUnderscore(p)
    case Camel => AsCamel(p)
    case Pascal => AsPascal(p)
    case Lower => AsLower(p)
  }

  /** `get_project_name_by_scheme`: a string is first resolved with `NamingScheme[...]`;
      an unknown name raises ValueError before any name is produced. */
  function GetProjectNameByScheme(p: CoreProject, naming: SchemeArg): (r: Result<string>)
    requires |p.words| > 0
    ensures naming.Scheme? ==> r == Ok(Render(p, naming.scheme))
    ensures naming.SchemeName? && ParseNamingScheme(naming.name).None? ==>
      r == Err(ValueError("Unknown naming scheme \"" + naming.name + "\""))
  {
    match naming
    case Scheme(n) => Ok(Render(p, n))
    case SchemeName(s) =>
      match ParseNamingScheme(s)
      case Some(n) => Ok(Render(p, n))
      case None => Err(ValueError("Unknown naming scheme \"" + s + "\""))
  }

  // ---------------------------------------------------------------------------
  // Acronym resolution

  /** A word that is not an acronym is returned unchanged, whatever the schemes. */
  lemma NonAcronymUnchanged(p: CoreProject, word: string, naming: NamingScheme)
    requires !IsAcronym(p, word)
    ensures TryAsAcronym(p, word, naming) == word
  {
  }

  /** The override only re-cases: it keeps the word's length and letters. */
  lemma AcronymOverrideOnlyRecases(p: CoreProject, word: string, naming: NamingScheme)
    ensures |TryAsAcronym(p, word, naming)| == |word|
    ensures Ascii.SameUpToCase(TryAsAcronym(p, word, naming), word)
  {
    Ascii.CaseMapsKeepLetters(word);
  }

  /** upper: an acronym has no lowercase letter; lower: no uppercase letter;
      two_letter_limit: the word changes only when it has at most two characters and
      the scheme is camel or pascal, and then it becomes uppercase. */
  lemma AcronymSchemeRules(p: CoreProject, word: string, naming: NamingScheme)
    requires IsAcronym(p, word)
    ensures p.acronymScheme == AcronymUpper ==> Ascii.IsUpperCase(TryAsAcronym(p, word, naming))
    ensures p.acronymScheme == AcronymLower ==> Ascii.IsLowerCase(TryAsAcronym(p, word, naming))
    ensures p.acronymScheme == TwoLetterLimit ==>
      if |word| <= 2 && (naming == Camel || naming == Pascal)
      then Ascii.IsUpperCase(TryAsAcronym(p, word, naming))
      else TryAsAcronym(p, word, naming) == word
  {
    Ascii.CaseMapsKeepLetters(word);
  }

  /** Camel and pascal share acronym eligibility; hyphen and underscore share theirs. */
  lemma CamelPascalEligibilityAgree(p: CoreProject, word: string)
    ensures TryAsAcronym(p, word, Camel) == TryAsAcronym(p, word, Pascal)
    ensures TryAsAcronym(p, word, Hyphen) == TryAsAcronym(p, word, Underscore)
  {
  }

  /** Acronym matching ignores case: a constructed project recognises a word exactly
      when some given acronym equals it up to case. */
  lemma AcronymMatchIgnoresCase(words: seq<string>, acronyms: Option<seq<string>>,
                                scheme: Option<AcronymArg>, word: string)
    requires NewProject(words, acronyms, scheme).Ok?
    ensures var given := GetOr(acronyms, []);
      IsAcronym(NewProject(words, acronyms, scheme).value, word) <==>
      exists i :: 0 <= i < |given| && Ascii.SameUpToCase(given[i], word)
  {
    var given := GetOr(acronyms, []);
    var p := NewProject(words, acronyms, scheme).value;
    forall i | 0 <= i < |given|
      ensures p.acronyms[i] == Ascii.Upper(given[i])
    {
    }
    Ascii.CaseMapsKeepLetters(word);
    if IsAcronym(p, word) {
      var i :| 0 <= i < |p.acronyms| && p.acronyms[i] == Ascii.Upper(word);
      assert Ascii.SameUpToCase(given[i], word);
    }
    if i :| 0 <= i < |given| && Ascii.SameUpToCase(given[i], word) {
      assert p.acronyms[i] == Ascii.Upper(word);
    }
  }

  // ---------------------------------------------------------------------------
  // Naming schemes

  /** Under two_letter_limit, hyphen and underscore pass every word through unchanged. */
  lemma SeparatedTwoLetterLimitPassThrough(p: CoreProject)
    requires p.acronymScheme == TwoLetterLimit
    ensures AsHyphen(p) == Ascii.Join("-", p.words)
    ensures AsUnderscore(p) == Ascii.Join("_", p.words)
  {
    assert ResolvedWords(p, p.words, Hyphen) == p.words;
    assert ResolvedWords(p, p.words, Underscore) == p.words;
  }

  /** Without acronym words, hyphen and underscore are the words joined by the separator,
      under every acronym scheme. */
  lemma SeparatedWithoutAcronyms(p: CoreProject)
    requires forall i :: 0 <= i < |p.words| ==> !IsAcronym(p, p.words[i])
    ensures AsHyphen(p) == Ascii.Join("-", p.words)
    ensures AsUnderscore(p) == Ascii.Join("_", p.words)
  {
    assert ResolvedWords(p, p.words, Hyphen) == p.words;
    assert ResolvedWords(p, p.words, Underscore) == p.words;
  }

  /** Camel is the first word lowercased, with no acronym override under any acronym
      scheme, followed by the pascal rendering of the remaining words. */
  lemma CamelIsLoweredHeadThenPascal(p: CoreProject)
    requires |p.words| > 0
    ensures AsCamel(p) == Ascii.Lower(p.words[0]) + AsPascal(p.(words := p.words[1..]))
  {
    var rest := p.(words := p.words[1..]);
    forall i | 0 <= i < |p.words| - 1
      ensures TitledWords(p, p.words[1..], Camel)[i] == TitledWords(rest, rest.words, Pascal)[i]
    {
      CamelPascalEligibilityAgree(p, Ascii.Title(p.words[1..][i]));
    }
    assert TitledWords(p, p.words[1..], Camel) == TitledWords(rest, rest.words, Pascal);
  }

  /** The first camel word does not depend on the acronyms or the acronym scheme. */
  lemma CamelHeadIgnoresAcronyms(p: CoreProject, acronyms: seq<string>, scheme: AcronymScheme)
    requires |p.words| > 0
    ensures var q := p.(acronyms := acronyms, acronymScheme := scheme);
      AsCamel(p)[..|p.words[0]|] == Ascii.Lower(p.words[0]) &&
      AsCamel(q)[..|p.words[0]|] == Ascii.Lower(p.words[0])
  {
    Ascii.CaseMapsKeepLetters(p.words[0]);
  }

  /** Lower is the lowercased concatenation of the words, whatever the acronyms. */
  lemma LowerIsLoweredConcatenation(p: CoreProject)
    ensures AsLower(p) == Ascii.Lower(Ascii.Join("", p.words))
  {
    Ascii.LowerJoin("", p.words);
  }

  /** Lower does not depend on the acronyms or the acronym scheme. */
  lemma LowerIgnoresAcronyms(p: CoreProject, acronyms: seq<string>, scheme: AcronymScheme)
    ensures AsLower(p) == AsLower(p.(acronyms := acronyms, acronymScheme := scheme))
  {
  }

  lemma ResolvedSameUpToCase(p: CoreProject, ws: seq<string>, naming: NamingScheme)
    ensures |ResolvedWords(p, ws, naming)| == |ws| && |TitledWords(p, ws, naming)| == |ws|
    ensures forall i :: 0 <= i < |ws| ==> Ascii.SameUpToCase(ResolvedWords(p, ws, naming)[i], ws[i])
    ensures forall i :: 0 <= i < |ws| ==> Ascii.SameUpToCase(TitledWords(p, ws, naming)[i], ws[i])
  {
    forall i | 0 <= i < |ws|
      ensures Ascii.SameUpToCase(ResolvedWords(p, ws, naming)[i], ws[i])
      ensures Ascii.SameUpToCase(TitledWords(p, ws, naming)[i], ws[i])
    {
      AcronymOverrideOnlyRecases(p, ws[i], naming);
      AcronymOverrideOnlyRecases(p, Ascii.Title(ws[i]), naming);
      Ascii.CaseMapsKeepLetters(ws[i]);
    }
  }

  /** Every rendering spells the words in order, with only their case changed and the
      scheme's separator between them: acronym rendering never reorders or drops words. */
  lemma RenderingsSpellTheWords(p: CoreProject)
    requires |p.words| > 0
    ensures Ascii.SameUpToCase(Render(p, Hyphen), Ascii.Join("-", p.words))
    ensures Ascii.SameUpToCase(Render(p, Underscore), Ascii.Join("_", p.words))
    ensures Ascii.SameUpToCase(Render(p, Camel), Ascii.Join("", p.words))
    ensures Ascii.SameUpToCase(Render(p, Pascal), Ascii.Join("", p.words))
    ensures Ascii.SameUpToCase(Render(p, Lower), Ascii.Join("", p.words))
    ensures Ascii.SameUpToCase(DisplayName(p), Ascii.Join(" ", p.words))
  {
    var ws := p.words;
    ResolvedSameUpToCase(p, ws, Hyphen);
    ResolvedSameUpToCase(p, ws, Underscore);
    ResolvedSameUpToCase(p, ws, Pascal);
    Ascii.JoinSameUpToCase("-", ResolvedWords(p, ws, Hyphen), ws);
    Ascii.JoinSameUpToCase("_", ResolvedWords(p, ws, Underscore), ws);
    Ascii.JoinSameUpToCase("", TitledWords(p, ws, Pascal), ws);
    Ascii.JoinSameUpToCase(" ", TitledWords(p, ws, Underscore), ws);
    // lower
    forall i | 0 <= i < |ws| ensures Ascii.SameUpToCase(LoweredWords(ws)[i], ws[i]) {
      Ascii.CaseMapsKeepLetters(ws[i]);
    }
    Ascii.JoinSameUpToCase("", LoweredWords(ws), ws);
    // camel: the lowered head, then the titled tail
    var tail := TitledWords(p, ws[1..], Camel);
    ResolvedSameUpToCase(p, ws[1..], Camel);
    Ascii.JoinSameUpToCase("", tail, ws[1..]);
    Ascii.CaseMapsKeepLetters(ws[0]);
    Ascii.UpperConcat(Ascii.Lower(ws[0]), Ascii.Join("", tail));
    Ascii.UpperConcat(ws[0], Ascii.Join("", ws[1..]));
    Ascii.ConcatCons(ws);
  }

  /** Under two_letter_limit the display name never forces uppercase: it is the
      title-cased words joined by single spaces. */
  lemma DisplayNameTwoLetterLimit(p: CoreProject)
    requires p.acronymScheme == TwoLetterLimit
    ensures DisplayName(p) == Ascii.Join(" ", seq(|p.words|, i requires 0 <= i < |p.words| => Ascii.Title(p.words[i])))
  {
    assert TitledWords(p, p.words, Underscore) == seq(|p.words|, i requires 0 <= i < |p.words| => Ascii.Title(p.words[i]));
  }

  /** A valid scheme name gives the same result as the member; any other string is
      refused with ValueError. */
  lemma SchemeNameAgreesWithMember(p: CoreProject, s: string)
    requires |p.words| > 0
    ensures GetProjectNameByScheme(p, SchemeName(s)).Ok? <==> exists n: NamingScheme :: NamingSchemeName(n) == s
    ensures forall n: NamingScheme :: NamingSchemeName(n) == s ==>
      GetProjectNameByScheme(p, SchemeName(s)) == GetProjectNameByScheme(p, Scheme(n))
    ensures GetProjectNameByScheme(p, SchemeName(s)).Err? ==> GetProjectNameByScheme(p, SchemeName(s)).error.ValueError?
  {
    if exists n: NamingScheme :: NamingSchemeName(n) == s {
      var n: NamingScheme :| NamingSchemeName(n) == s;
      assert ParseNamingScheme(s) == Some(n);
    }
  }
}
