/** The character classes and regular expressions shared by the create-customer and
    edit-customer forms, and the messages both forms use. JavaScript strings are sequences
    of UTF-16 code units while these are sequences of code points; every class below
    contains only characters of the Basic Multilingual Plane, so a character outside it
    fails the same tests either way. */
module FormPatterns {

  /** The four fields of a customer form. A null or undefined field of a customer fetched
      from the server is the empty string here: all three are falsy in JavaScript. */
  datatype CustomerFields = CustomerFields(name: string, email: string, phone: string, dateOfBirth: string)

  const REQUIRED_MESSAGE: string := "All fields are required!"
  const EMAIL_MESSAGE: string := "Please enter a valid email address."
  const PHONE_MESSAGE: string := "Phone number must be between 9 and 15 digits."

  predicate IsAsciiLetter(c: char) { 'A' <= c <= 'Z' || 'a' <= c <= 'z' }

  predicate IsAsciiDigit(c: char) { '0' <= c <= '9' }

  /** The JavaScript class `\s`: the white-space characters (tab, vertical tab, form feed,
      the byte order mark and every space separator) and the line terminators. */
  predicate IsJsWhitespace(c: char) {
    || c == '\t' || c == '\n' || c == '\U{000B}' || c == '\U{000C}' || c == '\r'
    || c == ' ' || c == '\U{00A0}' || c == '\U{1680}' || '\U{2000}' <= c <= '\U{200A}'
    || c == '\U{2028}' || c == '\U{2029}' || c == '\U{202F}' || c == '\U{205F}'
    || c == '\U{3000}' || c == '\U{FEFF}'
  }

  /** `[A-Za-z\s]` */
  predicate IsNameChar(c: char) { IsAsciiLetter(c) || IsJsWhitespace(c) }

  /** `[a-zA-Z0-9._%+-]`, the local part of an address. */
  predicate IsLocalChar(c: char) {
    IsAsciiLetter(c) || IsAsciiDigit(c) || c == '.' || c == '_' || c == '%' || c == '+' || c == '-'
  }

  /** `[a-zA-Z0-9.-]`, the domain of an address. */
  predicate IsDomainChar(c: char) { IsAsciiLetter(c) || IsAsciiDigit(c) || c == '.' || c == '-' }

  predicate AllLocal(s: string) { forall i :: 0 <= i < |s| ==> IsLocalChar(s[i]) }

  predicate AllDomain(s: string) { forall i :: 0 <= i < |s| ==> IsDomainChar(s[i]) }

  predicate AllLetters(s: string) { forall i :: 0 <= i < |s| ==> IsAsciiLetter(s[i]) }

  /** No field is falsy, that is, none is empty. */
  function AllPresent(f: CustomerFields): (r: bool)
    ensures r ==> |f.name| > 0 && |f.email| > 0 && |f.phone| > 0 && |f.dateOfBirth| > 0
    ensures !r ==> f.name == "" || f.email == "" || f.phone == "" || f.dateOfBirth == ""
  {
    f.name != "" && f.email != "" && f.phone != "" && f.dateOfBirth != ""
  }

  /** `/^[A-Za-z\s]+$/`: a non-empty name with no digit and none of `._%+-`. */
  function ValidName(name: string): (r: bool)
    ensures r ==> |name| > 0
    ensures r ==> forall i :: 0 <= i < |name| ==> (IsLocalChar(name[i]) ==> IsAsciiLetter(name[i]))
  {
    |name| >= 1 && forall i :: 0 <= i < |name| ==> IsNameChar(name[i])
  }

  /** `/^[0-9]{9,15}$/`: between nine and fifteen characters, none of them a letter or white space. */
  function ValidPhone(phone: string): (r: bool)
    ensures r ==> 9 <= |phone| <= 15
    ensures r ==> forall i :: 0 <= i < |phone| ==> !IsNameChar(phone[i])
  {
    9 <= |phone| <= 15 && forall i :: 0 <= i < |phone| ==> IsAsciiDigit(phone[i])
  }

  /** `/^[a-zA-Z0-9._%+-]+@[a-zA-Z0-9.-]+\.[a-zA-Z]{2,}$/` as the regular expression reads:
      some `@` and some later `.` cut the address into a non-empty local part, a non-empty
      domain and a top-level domain of at least two letters. */
  ghost function EmailPattern(e: string): (r: bool)
    ensures r ==> |e| >= 6 && '@' in e
  {
    exists at, dot ::
      && 0 < at && at + 1 < dot && dot + 3 <= |e|
      && e[at] == '@' && e[dot] == '.'
      && AllLocal(e[..at]) && AllDomain(e[at + 1..dot]) && AllLetters(e[dot + 1..])
  }

  /** The first position of `c` in `s`, or -1. */
  function IndexOf(s: string, c: char): (r: int)
    ensures -1 <= r < |s|
    ensures r >= 0 ==> s[r] == c
    ensures forall j :: 0 <= j < |s| && (r < 0 || j < r) ==> s[j] != c
  {
    if |s| == 0 then -1
    else if s[0] == c then 0
    else var k := IndexOf(s[1..], c); if k < 0 then -1 else k + 1
  }

  /** The last position of `c` in `s`, or -1. */
  function LastIndexOf(s: string, c: char): (r: int)
    ensures -1 <= r < |s|
    ensures r >= 0 ==> s[r] == c
    ensures forall j :: r < j < |s| ==> s[j] != c
  {
    if |s| == 0 then -1
    else if s[|s| - 1] == c then |s| - 1
    else LastIndexOf(s[..|s| - 1], c)
  }

  /** A deterministic matcher for the address pattern: the `@` can only be the first one,
      because neither the local part nor the domain may contain `@`; the `.` can only be the
      last one, because the top-level domain is letters only. */
  function MatchEmail(e: string): (r: bool)
    ensures r ==> 0 < IndexOf(e, '@') < |e| - 4
  {
    var at := IndexOf(e, '@');
    0 < at && AllLocal(e[..at]) &&
    var rest := e[at + 1..];
    var dot := LastIndexOf(rest, '.');
    0 < dot && dot + 3 <= |rest| && AllDomain(rest[..dot]) && AllLetters(rest[dot + 1..])
  }

  /** Every address the matcher accepts matches the regular expression. */
  lemma MatchEmailSound(e: string)
    requires MatchEmail(e)
    ensures EmailPattern(e)
  {
    var at := IndexOf(e, '@');
    var rest := e[at + 1..];
    var dot := LastIndexOf(rest, '.');
    var d := at + 1 + dot;
    assert e[at + 1..d] == rest[..dot];
    assert e[d + 1..] == rest[dot + 1..];
    assert e[d] == rest[dot];
  }

  /** Every address the regular expression accepts, the matcher accepts. */
  lemma MatchEmailComplete(e: string, a: int, d: int)
    requires 0 < a && a + 1 < d && d + 3 <= |e|
    requires e[a] == '@' && e[d] == '.'
    requires AllLocal(e[..a]) && AllDomain(e[a + 1..d]) && AllLetters(e[d + 1..])
    ensures MatchEmail(e)
  {
    var at := IndexOf(e, '@');
    forall j | 0 <= j < a
      ensures e[j] != '@'
    {
      assert e[..a][j] == e[j];
    }
    var rest := e[at + 1..];
    var dot := LastIndexOf(rest, '.');
    assert rest[d - a - 1] == e[d];
    forall j | d - a - 1 < j < |rest|
      ensures rest[j] != '.'
    {
      assert rest[j] == e[d + 1..][j - (d - a)];
    }
    assert rest[..dot] == e[a + 1..d];
    assert rest[dot + 1..] == e[d + 1..];
  }

  /** The matcher accepts exactly the addresses the regular expression accepts. */
  lemma MatchEmailCorrect(e: string)
    ensures MatchEmail(e) <==> EmailPattern(e)
  {
    if MatchEmail(e) {
      MatchEmailSound(e);
    }
    if EmailPattern(e) {
      var a, d :| && 0 < a && a + 1 < d && d + 3 <= |e|
                  && e[a] == '@' && e[d] == '.'
                  && AllLocal(e[..a]) && AllDomain(e[a + 1..d]) && AllLetters(e[d + 1..]);
      MatchEmailComplete(e, a, d);
    }
  }

  /** A form every check accepts. */
  ghost predicate Acceptable(f: CustomerFields) {
    AllPresent(f) && ValidName(f.name) && EmailPattern(f.email) && ValidPhone(f.phone)
  }
}
