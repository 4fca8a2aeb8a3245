/** The site header's avatar initials and the role gate on its Write link. */
module Header {
  import opened Wrappers
  import opened JsStrings
  import opened JsValues
  import Rbac

  /** `p[0]?.toUpperCase()` as `join` sees it: nothing for an empty word. */
  function InitialOf(word: string): (r: string)
    ensures |r| <= 1
    ensures word != [] ==> r == [UpperChar(word[0])]
  {
    if word == [] then "" else Upper([word[0]])
  }

  /** The words `name.trim().split(/\s+/)` yields. */
  function Words(name: string): seq<string> {
    SplitWs(Trim(name))
  }

  /** The initials of the first two words, joined. */
  function FirstTwoInitials(words: seq<string>): (r: string)
    ensures |r| <= 2
  {
    var parts := if |words| <= 2 then words else words[..2];
    if parts == [] then ""
    else if |parts| == 1 then InitialOf(parts[0])
    else InitialOf(parts[0]) + InitialOf(parts[1])
  }

  /**
   * `getInitials`: `U` for a missing, empty or blank name; otherwise the upper-cased
   * first letters of the first two words, so one or two characters.
   */
  function GetInitials(name: Option<string>): (r: string)
    ensures 1 <= |r| <= 2
    ensures name.None? || name.value == "" ==> r == "U"
  {
    if name.None? || name.value == "" then "U"
    else
      var joined := FirstTwoInitials(Words(name.value));
      if joined == "" then "U" else joined
  }

  /** A name that is whitespace only has no initials and falls back to `U`. */
  lemma BlankNameIsU(name: string)
    requires AllWs(name)
    ensures GetInitials(Some(name)) == "U"
  {
    TrimEmptyIffAllWs(name);
    assert Words(name) == [""];
  }

  /** With non-empty words, the joined initials are the first letters of the first two words. */
  lemma FirstTwoInitialsOfWords(words: seq<string>)
    requires |words| >= 1 && words[0] != [] && (|words| >= 2 ==> words[1] != [])
    ensures FirstTwoInitials(words) ==
      [UpperChar(words[0][0])] + (if |words| >= 2 then [UpperChar(words[1][0])] else [])
  {
  }

  /**
   * A name with text: the first initial is the upper-cased first non-blank character,
   * and a second one appears exactly when there is a second word.
   */
  lemma {:induction false} InitialsOfText(name: string)
    requires !AllWs(name)
    ensures var t := Trim(name);
      t != [] &&
      GetInitials(Some(name)) ==
        [UpperChar(t[0])] + (if |Words(name)| >= 2 then InitialOf(Words(name)[1]) else []) &&
      |GetInitials(Some(name))| == (if |Words(name)| >= 2 then 2 else 1)
  {
    TrimEmptyIffAllWs(name);
    TrimIsTrimmed(name);
    var t := Trim(name);
    LeadingWords(t);
    FirstTwoInitialsOfWords(Words(name));
  }

  /** The first word of a trimmed text starts with its first character; the second word is not empty. */
  lemma LeadingWords(t: string)
    requires IsTrimmed(t) && t != []
    ensures var w := SplitWs(t);
      w[0] != [] && w[0][0] == t[0] && (|w| >= 2 ==> w[1] != [])
  {
    SplitTrimmedWords(t);
    var w := SplitWs(t);
    assert w[0] == t[..FirstWs(t)];
  }

  /** The desktop and mobile menus show the Write link to these roles only. */
  predicate ShowsWriteLink(role: Option<string>) {
    role == Some("admin") || role == Some("super-admin") || role == Some("editor")
  }

  /** The header's gate is the role check with the three writing roles. */
  lemma WriteLinkIsRoleCheck(role: Option<string>)
    ensures ShowsWriteLink(role) <==> Rbac.HasRole(role, Rbac.AnyOf(["admin", "super-admin", "editor"]))
  {
  }
}
