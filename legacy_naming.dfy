/**
 * The older revision of the naming engine (src/glotter/core/project.py). Its
 * rendering rules are the newer revision's; it differs in three ways:
 *  - the acronym scheme is not validated at construction, and any value other than
 *    the members upper and lower (a string, say) falls to the two-letter rule;
 *  - the naming-scheme table is keyed by member only, so any string, even a valid
 *    scheme name, raises KeyError;
 *  - it has no ValueError path.
 */
module LegacyNaming {
  import opened Wrappers
  import Ascii
  import Naming

  /** An older `CoreProject`: the acronym-scheme field holds whatever was passed. */
  datatype LegacyProject = LegacyProject(words: seq<string>, acronyms: seq<string>, acronymScheme: Naming.AcronymArg)

  /** `CoreProject(words, acronyms=..., acronym_scheme=...)`; `__post_init__` only
      uppercases the acronyms. */
  function NewLegacyProject(words: seq<string>, acronyms: Option<seq<string>>, scheme: Option<Naming.AcronymArg>): (r: LegacyProject)
    ensures r.words == words
    ensures |r.acronyms| == |GetOr(acronyms, [])|
    ensures forall i :: 0 <= i < |r.acronyms| ==> Ascii.IsUpperCase(r.acronyms[i])
    ensures r.acronyms == Naming.UpperAll(GetOr(acronyms, []))
    ensures scheme.None? ==> r.acronymScheme == Naming.Acronyms(Naming.TwoLetterLimit)
    ensures scheme.Some? ==> r.acronymScheme == scheme.value
  {
    var given := GetOr(acronyms, []);
    forall i | 0 <= i < |given| ensures Ascii.IsUpperCase(Ascii.Upper(given[i])) {
      Ascii.CaseMapsKeepLetters(given[i]);
    }
    LegacyProject(words, Naming.UpperAll(given), GetOr(scheme, Naming.Acronyms(Naming.TwoLetterLimit)))
  }

  /** The branch `_try_as_acronym` takes: equality with the member upper, else with
      the member lower, else the two-letter rule. */
  function EffectiveScheme(a: Naming.AcronymArg): Naming.AcronymScheme {
    if a == Naming.Acronyms(Naming.AcronymUpper) then Naming.AcronymUpper
    else if a == Naming.Acronyms(Naming.AcronymLower) then Naming.AcronymLower
    else Naming.TwoLetterLimit
  }

  /** The project the older `_as_*` methods behave as. */
  function Effective(p: LegacyProject): Naming.CoreProject {
    Naming.CoreProject(p.words, p.acronyms, EffectiveScheme(p.acronymScheme))
  }

  /** `get_project_name_by_scheme`: a member renders; anything else raises KeyError. */
  function GetProjectNameByScheme(p: LegacyProject, naming: Naming.SchemeArg): (r: Result<string>)
    requires |p.words| > 0
    ensures naming.SchemeName? ==> r == Err(KeyError("Unknown naming scheme \"" + naming.name + "\""))
    ensures naming.Scheme? ==> r == Ok(Naming.Render(Effective(p), naming.scheme))
  {
    match naming
    case Scheme(n) => Ok(Naming.Render(Effective(p), n))
    case SchemeName(s) => Err(KeyError("Unknown naming scheme \"" + s + "\""))
  }

  function DisplayName(p: LegacyProject): string {
    Naming.DisplayName(Effective(p))
  }

  // ---------------------------------------------------------------------------

  /** Any acronym scheme other than the members upper and lower behaves as two_letter_limit. */
  lemma OtherSchemesAreTwoLetterLimit(p: LegacyProject, n: Naming.NamingScheme)
    requires |p.words| > 0
    requires p.acronymScheme != Naming.Acronyms(Naming.AcronymUpper) && p.acronymScheme != Naming.Acronyms(Naming.AcronymLower)
    ensures GetProjectNameByScheme(p, Naming.Scheme(n))
      == Ok(Naming.Render(Naming.CoreProject(p.words, p.acronyms, Naming.TwoLetterLimit), n))
    ensures DisplayName(p) == Naming.DisplayName(Naming.CoreProject(p.words, p.acronyms, Naming.TwoLetterLimit))
  {
  }

  /** Even the string "upper" is not the member upper: the string falls to the two-letter rule. */
  lemma UpperStringIsNotUpper(words: seq<string>, acronyms: seq<string>)
    ensures EffectiveScheme(NewLegacyProject(words, Some(acronyms), Some(Naming.AcronymName("upper"))).acronymScheme)
      == Naming.TwoLetterLimit
  {
  }

  /** With member arguments, the older revision renders exactly as the newer one, for
      every naming scheme, and gives the same display name. */
  lemma AgreesWithNewerRevision(words: seq<string>, acronyms: Option<seq<string>>, a: Naming.AcronymScheme, n: Naming.NamingScheme)
    requires |words| > 0
    ensures var newer := Naming.NewProject(words, acronyms, Some(Naming.Acronyms(a)));
      var older := NewLegacyProject(words, acronyms, Some(Naming.Acronyms(a)));
      newer.Ok? &&
      GetProjectNameByScheme(older, Naming.Scheme(n)) == Naming.GetProjectNameByScheme(newer.value, Naming.Scheme(n)) &&
      DisplayName(older) == Naming.DisplayName(newer.value)
  {
  }

  /** Where the revisions part: a valid scheme name is resolved by the newer revision
      and refused with KeyError by the older one. */
  lemma SchemeNamesDiffer(words: seq<string>, acronyms: Option<seq<string>>, a: Naming.AcronymScheme, n: Naming.NamingScheme)
    requires |words| > 0
    ensures var s := Naming.NamingSchemeName(n);
      Naming.GetProjectNameByScheme(Naming.NewProject(words, acronyms, Some(Naming.Acronyms(a))).value, Naming.SchemeName(s)).Ok? &&
      GetProjectNameByScheme(NewLegacyProject(words, acronyms, Some(Naming.Acronyms(a))), Naming.SchemeName(s)).error.KeyError?
  {
    Naming.SchemeNameAgreesWithMember(Naming.NewProject(words, acronyms, Some(Naming.Acronyms(a))).value, Naming.NamingSchemeName(n));
  }

  /** Acronym matching ignores case in the older revision too. */
  lemma LegacyAcronymMatchIgnoresCase(words: seq<string>, acronyms: Option<seq<string>>, scheme: Option<Naming.AcronymArg>, word: string)
    ensures var given := GetOr(acronyms, []);
      Naming.IsAcronym(Effective(NewLegacyProject(words, acronyms, scheme)), word) <==>
      exists i :: 0 <= i < |given| && Ascii.SameUpToCase(given[i], word)
  {
    Naming.AcronymMatchIgnoresCase(words, acronyms, None, word);
  }
}
