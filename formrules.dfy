/**
 * The pure rules of the feedback form (src/app/feedback/page.tsx): blank
 * detection through `trim()`, the email shape check and the required-field
 * rules that `validateForm` applies.
 */
module FormRules {
  import opened Wrappers

  const NameRequired := "Name is required"
  const EmailRequired := "Email is required"
  const EmailInvalid := "Please enter a valid email address"
  const FeedbackRequired := "Feedback is required"

  /**
   * The characters of JavaScript's `\s` class, which are also the characters
   * `String.prototype.trim` removes: the ASCII blanks, no-break space, the
   * Unicode space separators, the line and paragraph separators and the byte
   * order mark.
   */
  predicate IsWhitespace(c: char): (ws: bool)
    ensures c == '@' || c == '.' ==> !ws
  {
    || c == ' ' || c == '\t' || c == '\n' || c == '\r'
    || c == '\U{000B}' || c == '\U{000C}' || c == '\U{00A0}' || c == '\U{1680}'
    || ('\U{2000}' <= c <= '\U{200A}')
    || c == '\U{2028}' || c == '\U{2029}' || c == '\U{202F}' || c == '\U{205F}'
    || c == '\U{3000}' || c == '\U{FEFF}'
  }

  /** On ASCII, whitespace is exactly space, tab, line feed, carriage return, vertical tab and form feed. */
  lemma AsciiWhitespace(c: char)
    requires c < '\U{0080}'
    ensures IsWhitespace(c) <==> c in " \t\n\r\U{000B}\U{000C}"
  {
  }

  /** Every character of `s` is whitespace. */
  predicate AllWhitespace(s: string) {
    forall i :: 0 <= i < |s| ==> IsWhitespace(s[i])
  }

  /** How many whitespace characters `s` starts with. */
  function LeadingWhitespace(s: string): (k: nat)
    ensures k <= |s|
    ensures forall j :: 0 <= j < k ==> IsWhitespace(s[j])
    ensures k < |s| ==> !IsWhitespace(s[k])
  {
    if |s| > 0 && IsWhitespace(s[0]) then
      var k := LeadingWhitespace(s[1..]);
      assert forall j :: 0 < j <= k ==> s[j] == s[1..][j - 1];
      k + 1
    else 0
  }

  /** `s` with its leading whitespace removed. */
  function TrimStart(s: string): (r: string)
    ensures |r| <= |s| && r == s[|s| - |r|..]
    ensures r == [] || !IsWhitespace(r[0])
    ensures AllWhitespace(s[..|s| - |r|])
  {
    var k := LeadingWhitespace(s);
    assert forall j :: 0 <= j < k ==> s[..k][j] == s[j];
    s[k..]
  }

  /** `s` with its trailing whitespace removed. */
  function TrimEnd(s: string): (r: string)
    ensures |r| <= |s| && r == s[..|r|]
    ensures r == [] || !IsWhitespace(r[|r| - 1])
    ensures AllWhitespace(s[|r|..])
  {
    if |s| > 0 && IsWhitespace(s[|s| - 1]) then
      var r := TrimEnd(s[..|s| - 1]);
      assert s[|r|..] == s[..|s| - 1][|r|..] + [s[|s| - 1]];
      r
    else s
  }

  /** `String.prototype.trim`: no whitespace is left at either end. */
  function Trim(s: string): (r: string)
    ensures |r| <= |s|
    ensures r == [] || (!IsWhitespace(r[0]) && !IsWhitespace(r[|r| - 1]))
  {
    var t := TrimStart(s);
    var r := TrimEnd(t);
    assert r != [] ==> r[0] == t[0];
    r
  }

  /** A whitespace-only string trims to nothing. */
  lemma BlankTrimsToEmpty(s: string)
    ensures AllWhitespace(s) ==> Trim(s) == ""
  {
    var t := TrimStart(s);
    if t != [] {
      assert t[0] == s[|s| - |t|];
    }
  }

  /** A string that trims to nothing is whitespace only. */
  lemma TrimmedEmptyIsBlank(s: string)
    ensures Trim(s) == "" ==> AllWhitespace(s)
  {
    if Trim(s) != "" {
      return;
    }
    var t := TrimStart(s);
    assert TrimEnd(t) == [] && t[0..] == t;
    assert t == [];
    assert s[..|s|] == s;
  }

  /**
   * `!s.trim()`: nothing is left after trimming. Stated as "whitespace only",
   * which `TrimmedEmptyIffBlank` shows to be the same thing.
   */
  predicate IsBlank(s: string) {
    AllWhitespace(s)
  }

  /** Trimming leaves nothing exactly when the string is blank. */
  lemma TrimmedEmptyIffBlank(s: string)
    ensures Trim(s) == "" <==> IsBlank(s)
  {
    BlankTrimsToEmpty(s);
    TrimmedEmptyIsBlank(s);
  }

  /** A character allowed by the class `[^\s@]`. */
  predicate IsPlain(c: char) {
    !IsWhitespace(c) && c != '@'
  }

  /** Every character of `s` is allowed by `[^\s@]`. */
  predicate AllPlain(s: string) {
    forall i :: 0 <= i < |s| ==> IsPlain(s[i])
  }

  /**
   * What `^[^\s@]+@[^\s@]+\.[^\s@]+$` accepts, read off the pattern: the
   * string splits at an '@' and, after it, at a '.' into three non-empty runs
   * of characters that are neither whitespace nor '@'.
   */
  ghost predicate MatchesEmailPattern(s: string) {
    exists at, dot ::
      && 0 < at && at + 1 < dot && dot + 1 < |s|
      && s[at] == '@' && s[dot] == '.'
      && AllPlain(s[..at]) && AllPlain(s[at + 1..dot]) && AllPlain(s[dot + 1..])
  }

  /** The position of the first `c` in `s`, if any. */
  function IndexOf(s: string, c: char): (r: Option<nat>)
    ensures r.None? <==> c !in s
    ensures r.Some? ==> r.value < |s| && s[r.value] == c && c !in s[..r.value]
  {
    if |s| == 0 then None
    else if s[0] == c then Some(0)
    else
      match IndexOf(s[1..], c)
      case None => None
      case Some(i) => Some(i + 1)
  }

  /** The part after the '@': plain characters with a '.' that has text on both sides. */
  predicate IsEmailDomain(d: string) {
    AllPlain(d) && |d| >= 3 && '.' in d[1..|d| - 1]
  }

  /** The email shape check: non-empty plain text, a single '@', then a domain as above. */
  predicate IsValidEmail(s: string): (valid: bool)
    ensures valid ==> |s| >= 5 && IsPlain(s[0]) && IsPlain(s[|s| - 1])
  {
    match IndexOf(s, '@')
    case None => false
    case Some(at) =>
      var valid := at > 0 && AllPlain(s[..at]) && IsEmailDomain(s[at + 1..]);
      assert valid ==> s[..at][0] == s[0] && s[at + 1..][|s| - at - 2] == s[|s| - 1];
      valid
  }

  /** Every strict part of a run of plain characters is plain. */
  lemma AllPlainSlice(s: string, i: int, j: int)
    requires AllPlain(s) && 0 <= i <= j <= |s|
    ensures AllPlain(s[i..j])
  {
    assert forall k :: 0 <= k < j - i ==> s[i..j][k] == s[i + k];
  }

  /** Everything the email shape check accepts matches the regular expression. */
  lemma EmailCheckSound(s: string)
    requires IsValidEmail(s)
    ensures MatchesEmailPattern(s)
  {
    var at := IndexOf(s, '@').value;
    var d := s[at + 1..];
    var j :| 0 <= j < |d| - 2 && d[1..|d| - 1][j] == '.';
    var dot := at + 2 + j;
    assert s[dot] == '.';
    AllPlainSlice(d, 0, j + 1);
    assert s[at + 1..dot] == d[..j + 1];
    AllPlainSlice(d, j + 2, |d|);
    assert s[dot + 1..] == d[j + 2..];
    assert && 0 < at && at + 1 < dot && dot + 1 < |s|
           && s[at] == '@' && s[dot] == '.'
           && AllPlain(s[..at]) && AllPlain(s[at + 1..dot]) && AllPlain(s[dot + 1..]);
  }

  /** Everything the regular expression matches passes the email shape check. */
  lemma EmailCheckComplete(s: string, at: int, dot: int)
    requires 0 < at && at + 1 < dot && dot + 1 < |s|
    requires s[at] == '@' && s[dot] == '.'
    requires AllPlain(s[..at]) && AllPlain(s[at + 1..dot]) && AllPlain(s[dot + 1..])
    ensures IsValidEmail(s)
  {
    var k := IndexOf(s, '@').value;
    assert '@' !in s[..at];
    assert k == at;
    var d := s[at + 1..];
    assert d == s[at + 1..dot] + ['.'] + s[dot + 1..];
    assert d[1..|d| - 1][dot - at - 2] == '.';
  }

  /** The email shape check accepts exactly the strings the regular expression matches. */
  lemma EmailCheckMatchesPattern(s: string)
    ensures IsValidEmail(s) <==> MatchesEmailPattern(s)
  {
    if IsValidEmail(s) {
      EmailCheckSound(s);
    }
    if MatchesEmailPattern(s) {
      var at, dot :|
        && 0 < at && at + 1 < dot && dot + 1 < |s|
        && s[at] == '@' && s[dot] == '.'
        && AllPlain(s[..at]) && AllPlain(s[at + 1..dot]) && AllPlain(s[dot + 1..]);
      EmailCheckComplete(s, at, dot);
    }
  }

  /** The shape check accepts an ordinary address. */
  lemma EmailAcceptsExample()
    ensures IsValidEmail("ada@example.com")
  {
    var s := "ada@example.com";
    EmailCheckComplete(s, 3, 11);
  }

  /** The shape check rejects an address whose domain has no dot. */
  lemma EmailRejectsMissingDot()
    ensures !IsValidEmail("foo@bar")
  {
    var s := "foo@bar";
    assert s[..3] == "foo" && s[3] == '@';
    assert IndexOf(s, '@') == Some(3);
    assert s[4..] == "bar";
  }

  /** The shape check rejects an address without an '@'. */
  lemma EmailRejectsMissingAt()
    ensures !IsValidEmail("foo.com")
  {
    assert '@' !in "foo.com";
  }

  /** The shape check rejects an address with nothing before the '@'. */
  lemma EmailRejectsEmptyLocalPart()
    ensures !IsValidEmail("@bar.com")
  {
    assert "@bar.com"[0] == '@';
  }

  /**
   * The error map `validateForm` builds from the outcome of each rule: one
   * entry per violated rule, with the rule's message.
   */
  function ErrorsFor(nameBlank: bool, emailBlank: bool, emailValid: bool, commentBlank: bool): (e: map<string, string>)
    ensures e.Keys <= {"name", "email", "comment"}
    ensures "name" in e <==> nameBlank
    ensures "name" in e ==> e["name"] == NameRequired
    ensures "email" in e <==> emailBlank || !emailValid
    ensures "email" in e ==> e["email"] == if emailBlank then EmailRequired else EmailInvalid
    ensures "comment" in e <==> commentBlank
    ensures "comment" in e ==> e["comment"] == FeedbackRequired
  {
    var none: map<string, string> := map[];
    var withName := if nameBlank then none["name" := NameRequired] else none;
    var withEmail :=
      if emailBlank then withName["email" := EmailRequired]
      else if !emailValid then withName["email" := EmailInvalid]
      else withName;
    if commentBlank then withEmail["comment" := FeedbackRequired] else withEmail
  }

  /**
   * The errors `validateForm` collects when the honeypot is empty: every
   * violated rule at once, not only the first.
   */
  function ValidationErrors(name: string, email: string, comment: string): (e: map<string, string>)
    ensures e.Keys <= {"name", "email", "comment"}
    ensures "name" in e <==> IsBlank(name)
    ensures "name" in e ==> e["name"] == NameRequired
    ensures "email" in e <==> IsBlank(email) || !IsValidEmail(email)
    ensures "email" in e ==> e["email"] == if IsBlank(email) then EmailRequired else EmailInvalid
    ensures "comment" in e <==> IsBlank(comment)
    ensures "comment" in e ==> e["comment"] == FeedbackRequired
  {
    ErrorsFor(IsBlank(name), IsBlank(email), IsValidEmail(email), IsBlank(comment))
  }

  /** A well-shaped email is never blank, so "required" and "invalid" never meet. */
  lemma ValidEmailIsNotBlank(email: string)
    requires IsValidEmail(email)
    ensures !IsBlank(email)
  {
    var at := IndexOf(email, '@').value;
    assert email[..at][0] == email[0];
  }

  /** The form is valid exactly when every field passes its rule. */
  lemma NoErrorsIffAllFieldsPass(name: string, email: string, comment: string)
    ensures ValidationErrors(name, email, comment) == map[]
        <==> !IsBlank(name) && IsValidEmail(email) && !IsBlank(comment)
  {
    var e := ValidationErrors(name, email, comment);
    if IsValidEmail(email) {
      ValidEmailIsNotBlank(email);
    }
    if !(!IsBlank(name) && IsValidEmail(email) && !IsBlank(comment)) {
      assert "name" in e || "email" in e || "comment" in e;
    }
  }

  /** An ill-shaped but present email is the only error when the other fields are filled in. */
  lemma OnlyEmailFlagged(name: string, email: string, comment: string)
    requires !IsBlank(name) && !IsBlank(comment)
    requires !IsBlank(email) && !IsValidEmail(email)
    ensures ValidationErrors(name, email, comment) == map["email" := EmailInvalid]
  {
    var e := ValidationErrors(name, email, comment);
    assert e.Keys == {"email"};
  }
}
