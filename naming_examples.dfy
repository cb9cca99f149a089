/** Rows of the project tests' permutation table and display-name cases, checked
    against the model of the newer revision. */
module NamingExamples {
  import opened Wrappers
  import Ascii
  import opened Naming

  /** The case mappings of the words used below. */
  lemma CaseFacts()
    ensures Ascii.Upper("io") == "IO" && Ascii.Upper("Io") == "IO" && Ascii.Lower("Io") == "io"
    ensures Ascii.Lower("io") == "io" && Ascii.Title("io") == "Io"
    ensures Ascii.Title("word") == "Word" && Ascii.Upper("Word") == "WORD"
    ensures Ascii.Title("words") == "Words" && Ascii.Upper("Words") == "WORDS" && Ascii.Lower("words") == "words"
    ensures Ascii.Upper("words") == "WORDS"
    ensures Ascii.Title("multiple") == "Multiple" && Ascii.Upper("Multiple") == "MULTIPLE" && Ascii.Upper("multiple") == "MULTIPLE"
  {
  }

  lemma DisplayCaseFacts()
    ensures Ascii.Upper("io") == "IO" && Ascii.Upper("stuff") == "STUFF" && Ascii.Upper("xyz") == "XYZ"
    ensures Ascii.Title("file") == "File" && Ascii.Title("io") == "Io" && Ascii.Title("stuff") == "Stuff"
    ensures Ascii.Title("some") == "Some" && Ascii.Title("xyz") == "Xyz"
    ensures Ascii.Upper("File") == "FILE" && Ascii.Upper("Io") == "IO" && Ascii.Upper("Stuff") == "STUFF"
    ensures Ascii.Upper("Some") == "SOME" && Ascii.Upper("Xyz") == "XYZ"
    ensures Ascii.Lower("Io") == "io" && Ascii.Lower("Stuff") == "stuff"
  {
  }

  /** ["words", "io", "multiple"] with acronym "io" under the default scheme: hyphen
      passes the words through, camel uppercases the two-letter acronym. */
  lemma AcronymInMiddleDefault()
    ensures var p := NewProject(["words", "io", "multiple"], Some(["io"]), None);
      p.Ok? && AsHyphen(p.value) == "words-io-multiple" && AsCamel(p.value) == "wordsIOMultiple"
  {
    CaseFacts();
    var p := NewProject(["words", "io", "multiple"], Some(["io"]), None).value;
    assert p.acronyms == ["IO"];
    assert ResolvedWords(p, p.words, Hyphen) == ["words", "io", "multiple"];
    assert Ascii.Join("-", ["io", "multiple"]) == "io-multiple";
    assert TitledWords(p, p.words[1..], Camel) == ["IO", "Multiple"];
  }

  /** The same words under the lower acronym scheme: the acronym is lowercased. */
  lemma AcronymInMiddleLower()
    ensures var p := NewProject(["words", "io", "multiple"], Some(["io"]), Some(AcronymName("lower")));
      p.Ok? && AsCamel(p.value) == "wordsioMultiple" && AsPascal(p.value) == "WordsioMultiple"
  {
    CaseFacts();
    var q := NewProject(["words", "io", "multiple"], Some(["io"]), Some(AcronymName("lower"))).value;
    assert q.acronyms == ["IO"];
    assert TitledWords(q, q.words[1..], Camel) == ["io", "Multiple"];
    assert TitledWords(q, q.words, Pascal) == ["Words", "io", "Multiple"];
  }

  /** ["io", "word"] with acronym "io": the first camel word is lowercased even under upper. */
  lemma AcronymAtFront()
    ensures var p := NewProject(["io", "word"], Some(["io"]), Some(Acronyms(AcronymUpper)));
      p.Ok? && AsCamel(p.value) == "ioWord" && AsPascal(p.value) == "IOWord"
  {
    CaseFacts();
    var p := NewProject(["io", "word"], Some(["io"]), Some(Acronyms(AcronymUpper))).value;
    assert p.acronyms == ["IO"];
    assert TitledWords(p, p.words[1..], Camel) == ["Word"];
    assert TitledWords(p, p.words, Pascal) == ["IO", "Word"];
  }

  lemma DisplayNameUpper()
    ensures var p := NewProject(["file", "io", "stuff"], Some(["io", "stuff"]), Some(Acronyms(AcronymUpper)));
      p.Ok? && DisplayName(p.value) == "File IO STUFF"
  {
    DisplayCaseFacts();
    var a := NewProject(["file", "io", "stuff"], Some(["io", "stuff"]), Some(Acronyms(AcronymUpper))).value;
    assert a.acronyms == ["IO", "STUFF"];
    assert TitledWords(a, a.words, Underscore) == ["File", "IO", "STUFF"];
  }

  lemma DisplayNameLower()
    ensures var p := NewProject(["file", "io", "stuff"], Some(["io", "stuff"]), Some(Acronyms(AcronymLower)));
      p.Ok? && DisplayName(p.value) == "File io stuff"
  {
    DisplayCaseFacts();
    var b := NewProject(["file", "io", "stuff"], Some(["io", "stuff"]), Some(Acronyms(AcronymLower))).value;
    assert b.acronyms == ["IO", "STUFF"];
    assert TitledWords(b, b.words, Underscore) == ["File", "io", "stuff"];
  }

  lemma DisplayNameTwoLetterLimitExample()
    ensures var p := NewProject(["some", "xyz"], Some(["xyz"]), None);
      p.Ok? && DisplayName(p.value) == "Some Xyz"
  {
    DisplayCaseFacts();
    var c := NewProject(["some", "xyz"], Some(["xyz"]), None).value;
    assert c.acronyms == ["XYZ"];
    assert TitledWords(c, c.words, Underscore) == ["Some", "Xyz"];
  }

  /** `"junk"` is not a naming scheme: ValueError before any name is produced. */
  lemma JunkSchemeRefused()
    ensures GetProjectNameByScheme(CoreProject(["blah"], [], TwoLetterLimit), SchemeName("junk"))
      == Err(ValueError("Unknown naming scheme \"junk\""))
  {
    assert "junk"[0] == 'j';
    assert ParseNamingScheme("junk") == None;
    assert "Unknown naming scheme \"" + "junk" + "\"" == "Unknown naming scheme \"junk\"";
  }

  /** An unknown acronym-scheme name is refused at construction. */
  lemma JunkAcronymSchemeRefused()
    ensures NewProject(["blah"], None, Some(AcronymName("junk"))).Err?
    ensures NewProject(["blah"], None, Some(AcronymName("junk"))).error.ValueError?
  {
    assert "junk"[0] == 'j';
    assert ParseAcronymScheme("junk") == None;
  }
}
