/** The greeting in the marketing header: the signed-in user's first name,
    taken from the account metadata. */
module MarketingNav {
  import opened Wrappers
  import opened JsStrings
  import opened JsArrays

  /** The name fields of the account metadata; `None` is a missing field. */
  datatype UserMetadata = UserMetadata(fullName: Option<string>, name: Option<string>, firstName: Option<string>)

  /** JavaScript truthiness of an optional string. */
  predicate Truthy(s: Option<string>) {
    s.Some? && s.value != ""
  }

  /** `full_name || name || ''`. */
  function MetadataName(m: UserMetadata): (r: string)
    ensures Truthy(m.fullName) ==> r == m.fullName.value
    ensures !Truthy(m.fullName) && Truthy(m.name) ==> r == m.name.value
    ensures !Truthy(m.fullName) && !Truthy(m.name) ==> r == ""
  {
    if Truthy(m.fullName) then m.fullName.value else if Truthy(m.name) then m.name.value else ""
  }

  /** `.filter(Boolean)` on strings: keeps the non-empty ones. */
  function NonEmpty(s: string): bool {
    s != ""
  }

  /** The non-empty space-separated words of the trimmed metadata name. */
  function Words(m: UserMetadata): (ws: seq<string>)
    ensures forall w :: w in ws ==> w != "" && ' ' !in w
    ensures forall w :: w in ws <==> w in Split(Trim(MetadataName(m)), ' ') && w != ""
    ensures Trim(MetadataName(m)) != "" ==> ws != [] && ws[0] == Split(Trim(MetadataName(m)), ' ')[0]
  {
    var t := Trim(MetadataName(m));
    var parts := Split(t, ' ');
    WordsHead(t, parts);
    Filter(parts, NonEmpty)
  }

  /** The greeting name: the first word of the metadata name, else the
      trimmed `first_name` when not blank, else `friend`. */
  function FirstName(m: UserMetadata): (r: string)
    ensures r != ""
    ensures Words(m) != [] ==> r == Words(m)[0] && ' ' !in r
    ensures Words(m) == [] && m.firstName.Some? && Trim(m.firstName.value) != "" ==> r == Trim(m.firstName.value)
    ensures Words(m) == [] && (m.firstName.None? || Trim(m.firstName.value) == "") ==> r == "friend"
  {
    var ws := Words(m);
    if ws != [] then
      assert ws[0] in ws;
      ws[0]
    else if m.firstName.Some? && Trim(m.firstName.value) != "" then Trim(m.firstName.value)
    else "friend"
  }

  /** A split piece is never empty when the string starts with a non-separator. */
  lemma SplitHead(s: string, sep: char)
    requires s != [] && s[0] != sep
    ensures Split(s, sep)[0] != "" && Split(s, sep)[0][0] == s[0]
  {
  }

  /** When the metadata name is not blank, the greeting is the text of the
      trimmed name up to its first space. */
  lemma FirstNameIsFirstPiece(m: UserMetadata)
    requires Trim(MetadataName(m)) != ""
    ensures FirstName(m) == Split(Trim(MetadataName(m)), ' ')[0]
    ensures exists i :: OccursAt(MetadataName(m), FirstName(m), i)
  {
    var name := MetadataName(m);
    var t := Trim(name);
    var parts := Split(t, ' ');
    SplitHead(t, ' ');
    FilterKeepsHead(parts);
    SplitFirstOccurs(t, ' ');
    var i :| OccursAt(name, t, i);
    PrefixOccurs(name, t, parts[0], i);
  }

  /** A non-blank trimmed name has a non-empty first piece, which
      `.filter(Boolean)` keeps in front. */
  lemma WordsHead(t: string, parts: seq<string>)
    requires parts == Split(t, ' ') && (t == [] || !IsJsSpace(t[0]))
    ensures t != "" ==> Filter(parts, NonEmpty) != [] && Filter(parts, NonEmpty)[0] == parts[0]
  {
    if t != "" {
      SplitHead(t, ' ');
      FilterKeepsHead(parts);
    }
  }

  /** `.filter(Boolean)` keeps a non-empty first element in front. */
  lemma FilterKeepsHead(parts: seq<string>)
    requires parts != [] && parts[0] != ""
    ensures Filter(parts, NonEmpty) != [] && Filter(parts, NonEmpty)[0] == parts[0]
  {
    assert parts == [parts[0]] + parts[1..];
  }

  /** A prefix of a text occurring at `i` occurs at `i` too. */
  lemma PrefixOccurs(s: string, t: string, p: string, i: int)
    requires OccursAt(s, t, i) && |p| <= |t| && t[..|p|] == p
    ensures OccursAt(s, p, i)
  {
    assert s[i..i + |p|] == s[i..i + |t|][..|p|];
  }

  /** The first split piece is a prefix of the string. */
  lemma {:induction false} SplitFirstOccurs(s: string, sep: char)
    ensures |Split(s, sep)[0]| <= |s| && s[..|Split(s, sep)[0]|] == Split(s, sep)[0]
    decreases |s|
  {
    if s != [] && s[0] != sep {
      SplitFirstOccurs(s[1..], sep);
    }
  }

  /** A blank string trims to the empty string. */
  lemma TrimBlank()
    ensures Trim("   ") == ""
  {
    assert TrimStart("   ") == TrimStart("  ") == TrimStart(" ") == TrimStart("");
  }

  /** Trimming drops the spaces around a word. */
  lemma TrimAroundWord()
    ensures Trim(" Cy ") == "Cy"
  {
    assert " Cy "[1..] == "Cy ";
    LeadingWord("Cy ");
    assert "Cy "[..2] == "Cy";
    assert TrimEnd("Cy") == "Cy";
  }

  /** A string starting with a letter has nothing to trim at its start. */
  lemma LeadingWord(s: string)
    requires s != [] && 'A' <= s[0] <= 'Z'
    ensures TrimStart(s) == s
  {
  }

  /** A blank `full_name` is still truthy, so `name` is never consulted and
      the greeting falls through to `first_name`. */
  lemma BlankFullNameHidesName()
    ensures FirstName(UserMetadata(Some("   "), Some("Bob"), Some(" Cy "))) == "Cy"
  {
    TrimBlank();
    TrimAroundWord();
    var m := UserMetadata(Some("   "), Some("Bob"), Some(" Cy "));
    assert MetadataName(m) == "   ";
    assert Split("", ' ') == [""];
    assert Words(m) == [];
  }

  /** Without any name the greeting is `friend`. */
  lemma NoNameIsFriend()
    ensures FirstName(UserMetadata(None, None, None)) == "friend"
  {
    assert Split("", ' ') == [""];
  }
}
