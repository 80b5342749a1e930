/** The profile header (src/App/Pages/Profile/ProfileScreen.tsx): the avatar
    initials and the short display name, both built by splitting the user's
    name on single spaces. */
module Profile {
  import opened Wrappers
  import opened Sequences
  import opened Text

  const DefaultInitials := "SK"
  const DefaultDisplayName := "Soufyane Kh"

  /** `` `${part[0]}` ``: the first character, or the text "undefined" that an
      out-of-range index turns into inside a template string. */
  function FirstCharText(part: string): (r: string)
    ensures part != "" ==> r == [part[0]]
    ensures part == "" ==> r == "undefined"
  {
    if part == "" then "undefined" else [part[0]]
  }

  /** `name.substring(0, 2)` */
  function FirstTwo(name: string): (r: string)
    ensures r <= name && |r| == if |name| < 2 then |name| else 2
  {
    Take(name, 2)
  }

  // ---------------------------------------------------------------------------
  // As written

  /** `getUserInitials` as written. */
  function InitialsAsWritten(name: Option<string>): string {
    if name.None? || name.value == "" then DefaultInitials
    else
      var names := Split(name.value, ' ');
      if |names| >= 2 then Upper(FirstCharText(names[0]) + FirstCharText(names[1]))
      else Upper(FirstTwo(name.value))
  }

  /** `getDisplayName` as written. */
  function DisplayNameAsWritten(name: Option<string>): string {
    if name.None? || name.value == "" then DefaultDisplayName
    else
      var names := Split(name.value, ' ');
      if |names| >= 2 then names[0] + " " + FirstCharText(names[1]) + "."
      else name.value
  }

  /** What the code promises for well-spaced names: no user or an empty name
      gives the defaults; two parts give both first letters upper-cased and
      "first L."; a single part gives its first two letters and itself. */
  lemma AsWrittenOnWellSpacedNames(name: Option<string>)
    ensures name.None? || name == Some("") ==>
      InitialsAsWritten(name) == DefaultInitials && DisplayNameAsWritten(name) == DefaultDisplayName
    ensures name.Some? && name.value != "" && |Split(name.value, ' ')| == 1 ==>
      InitialsAsWritten(name) == Upper(FirstTwo(name.value)) && DisplayNameAsWritten(name) == name.value
    ensures name.Some? && name.value != "" && |Split(name.value, ' ')| >= 2
            && Split(name.value, ' ')[0] != "" && Split(name.value, ' ')[1] != "" ==>
      var names := Split(name.value, ' ');
      && InitialsAsWritten(name) == [UpperChar(names[0][0]), UpperChar(names[1][0])]
      && DisplayNameAsWritten(name) == names[0] + " " + [names[1][0]] + "."
  {
  }

  /** A name ending in a space splits into an empty second part, whose
      missing first letter shows up as "undefined": the avatar reads
      "AUNDEFINED", far longer than two letters. */
  lemma TrailingSpaceInitials()
    ensures InitialsAsWritten(Some("Ann ")) == "AUNDEFINED"
    ensures |InitialsAsWritten(Some("Ann "))| > 2
  {
    SplitAnn();
    assert FirstCharText("Ann") + FirstCharText("") == "Aundefined";
    UpperAundefined();
  }

  lemma UpperAundefined()
    ensures Upper("Aundefined") == "AUNDEFINED"
  {
    var r := Upper("Aundefined");
    assert r[0] == 'A' && r[1] == 'U' && r[2] == 'N' && r[3] == 'D' && r[4] == 'E';
    assert r[5] == 'F' && r[6] == 'I' && r[7] == 'N' && r[8] == 'E' && r[9] == 'D';
  }

  /** The same name is displayed as "Ann undefined.". */
  lemma TrailingSpaceDisplayName()
    ensures DisplayNameAsWritten(Some("Ann ")) == "Ann undefined."
  {
    SplitAnn();
  }

  /** "Ann " splits into "Ann" and an empty part. */
  lemma SplitAnn()
    ensures Split("Ann ", ' ') == ["Ann", ""]
  {
    assert Split("", ' ') == [""];
    assert ["", ""][1..] == [""];
    assert Split(" ", ' ') == ["", ""] by {
      assert " "[1..] == "";
    }
    assert Split("n ", ' ') == ["n", ""] by {
      assert "n "[1..] == " " && ['n'] + "" == "n";
    }
    assert Split("nn ", ' ') == ["nn", ""] by {
      assert "nn "[1..] == "n " && ['n'] + "n" == "nn";
    }
    assert Split("Ann ", ' ') == ["Ann", ""] by {
      assert "Ann "[1..] == "nn " && ['A'] + "nn" == "Ann";
    }
  }

  // ---------------------------------------------------------------------------
  // Corrected: empty parts skipped

  /** The words of a name: the parts between spaces that are not empty. */
  function Words(name: string): (words: seq<string>)
    ensures forall w :: w in words ==> w != "" && ' ' !in w
  {
    Filter(Split(name, ' '), (w: string) => w != "")
  }

  /** The initials built from the first two words; a one-word name gives its
      first two letters; a blank name gives the default. */
  function Initials(name: Option<string>): (initials: string)
    ensures 1 <= |initials| <= 2
    ensures name.Some? && |Words(name.value)| >= 2 ==>
      initials == [UpperChar(Words(name.value)[0][0]), UpperChar(Words(name.value)[1][0])]
  {
    if name.None? then DefaultInitials
    else
      var words := Words(name.value);
      if |words| >= 2 then Upper([words[0][0], words[1][0]])
      else if |words| == 1 then Upper(FirstTwo(words[0]))
      else DefaultInitials
  }

  /** "first L." from the first two words; a one-word name as it is; a blank
      name gives the default. */
  function DisplayName(name: Option<string>): (shown: string)
    ensures shown != ""
    ensures name.Some? && |Words(name.value)| >= 2 ==>
      && |shown| == |Words(name.value)[0]| + 3
      && shown[..|Words(name.value)[0]| + 1] == Words(name.value)[0] + " "
      && shown[|shown| - 2..] == [Words(name.value)[1][0], '.']
  {
    if name.None? then DefaultDisplayName
    else
      var words := Words(name.value);
      if |words| >= 2 then words[0] + " " + [words[1][0]] + "."
      else if |words| == 1 then name.value
      else DefaultDisplayName
  }

  /** On every non-empty name without leading, trailing or doubled spaces the
      corrected functions agree with the code as written. */
  lemma CorrectedAgreesOnWellSpacedNames(name: string)
    requires name != ""
    requires forall k :: 0 <= k < |Split(name, ' ')| ==> Split(name, ' ')[k] != ""
    ensures Initials(Some(name)) == InitialsAsWritten(Some(name))
    ensures DisplayName(Some(name)) == DisplayNameAsWritten(Some(name))
  {
    FilterAll(Split(name, ' '), (w: string) => w != "");
    assert Words(name) == Split(name, ' ');
    if |Split(name, ' ')| == 1 {
      SplitJoin(name, ' ');
      assert Join(Split(name, ' '), ' ') == Split(name, ' ')[0];
    }
  }

  /** The corrected initials for the name that broke the code as written. */
  lemma TrailingSpaceCorrected()
    ensures Initials(Some("Ann ")) == "AN"
    ensures DisplayName(Some("Ann ")) == "Ann "
  {
    SplitAnn();
    assert ["Ann", ""][1..] == [""];
    assert Words("Ann ") == ["Ann"];
  }
}
