/** The input validators of src/utils/validators.ts. Each regular expression of the source
    is modelled by a matcher function together with an explicit description of the language
    it accepts (a datatype of the accepted shapes and its rendering), and lemmas prove the
    matcher accepts exactly that language. */
module Validators {
  import opened Wrappers
  import Str
  import Dedupe

  // ---------------------------------------------------------------- isValidEmail

  /** A character of the class `[^\s@]`. */
  predicate Plain(c: char) { !Str.IsSpace(c) && c != '@' }

  predicate AllPlain(s: string) {
    forall i :: 0 <= i < |s| ==> Plain(s[i])
  }

  /** `/^[^\s@]+@[^\s@]+\.[^\s@]+$/.test(email)`: one '@' after a non-empty local part, and
      a domain with a '.' that is neither its first nor its last character. */
  function IsValidEmail(email: string): bool {
    match Str.CharIndex(email, '@')
    case None => false
    case Some(i) =>
      var domain := email[i + 1..];
      i > 0 && AllPlain(email[..i]) && AllPlain(domain)
      && exists k :: 0 < k < |domain| - 1 && domain[k] == '.'
  }

  lemma AllPlainAppend(a: string, b: string)
    requires AllPlain(a) && AllPlain(b)
    ensures AllPlain(a + b)
  {
    assert forall i :: 0 <= i < |a + b| ==> (a + b)[i] == if i < |a| then a[i] else b[i - |a|];
  }

  /** Every `local@host.top` with non-empty parts of the class `[^\s@]` is accepted. */
  lemma EmailAccepts(local: string, host: string, top: string)
    requires |local| > 0 && |host| > 0 && |top| > 0
    requires AllPlain(local) && AllPlain(host) && AllPlain(top)
    ensures IsValidEmail(local + "@" + host + "." + top)
  {
    var email := local + "@" + host + "." + top;
    var i := |local|;
    assert email[i] == '@';
    assert forall j :: 0 <= j < i ==> email[j] == local[j];
    assert '@' !in email[..i] by {
      assert email[..i] == local;
    }
    assert Str.CharIndex(email, '@') == Some(i);
    var domain := email[i + 1..];
    assert domain == host + "." + top;
    assert email[..i] == local;
    AllPlainAppend(host, ".");
    AllPlainAppend(host + ".", top);
    assert domain[|host|] == '.';
  }

  /** Every accepted address splits as `local@host.top` with non-empty parts of the class
      `[^\s@]`: exactly the strings the regular expression matches. */
  lemma EmailSplits(email: string) returns (local: string, host: string, top: string)
    requires IsValidEmail(email)
    ensures |local| > 0 && |host| > 0 && |top| > 0
    ensures AllPlain(local) && AllPlain(host) && AllPlain(top)
    ensures email == local + "@" + host + "." + top
  {
    var i := Str.CharIndex(email, '@').value;
    var domain := email[i + 1..];
    var k :| 0 < k < |domain| - 1 && domain[k] == '.';
    local := email[..i];
    host := domain[..k];
    top := domain[k + 1..];
    assert domain == host + "." + top;
    assert email == local + "@" + domain;
  }

  /** An accepted address has no white space and exactly one '@'. */
  lemma EmailOneAt(email: string)
    requires IsValidEmail(email)
    ensures forall j :: 0 <= j < |email| ==> !Str.IsSpace(email[j])
    ensures exists i :: 0 <= i < |email| && email[i] == '@'
              && forall j :: 0 <= j < |email| && j != i ==> email[j] != '@'
  {
    var i := Str.CharIndex(email, '@').value;
    var domain := email[i + 1..];
    forall j | 0 <= j < |email| && j != i ensures !Str.IsSpace(email[j]) && email[j] != '@' {
      if j < i { assert email[j] == email[..i][j]; } else { assert email[j] == domain[j - i - 1]; }
    }
  }

  // ---------------------------------------------------------- isValidPhoneNumber

  /** A character of the class `[\s.-]`. */
  predicate Sep(c: char) { Str.IsSpace(c) || c == '.' || c == '-' }

  predicate IsDigits(s: string, n: nat) {
    |s| == n && forall k :: 0 <= k < n ==> Str.IsDigit(s[k])
  }

  /** One string matched by `(\+1\s?)?(\([0-9]{3}\)|[0-9]{3})[\s.-]?[0-9]{3}[\s.-]?[0-9]{4}`:
      the optional country code (with its optional space), the area code (in parentheses
      or not), the two optional separators and the three digit groups. */
  datatype Phone = Phone(country: Option<Option<char>>, parens: bool, area: string,
                         sep1: Option<char>, exchange: string, sep2: Option<char>, line: string)

  predicate OptSep(o: Option<char>) { o.None? || Sep(o.value) }

  predicate CountryShape(c: Option<Option<char>>) {
    c.None? || c.value.None? || Str.IsSpace(c.value.value)
  }

  predicate PhoneShape(p: Phone) {
    CountryShape(p.country) && IsDigits(p.area, 3) && OptSep(p.sep1) && IsDigits(p.exchange, 3)
    && OptSep(p.sep2) && IsDigits(p.line, 4)
  }

  function OptChar(o: Option<char>): string {
    match o case None => "" case Some(c) => [c]
  }

  function RenderCountry(c: Option<Option<char>>): string {
    match c case None => "" case Some(sp) => "+1" + OptChar(sp)
  }

  function RenderArea(parens: bool, area: string): string {
    if parens then "(" + area + ")" else area
  }

  function RenderTail(sep1: Option<char>, exchange: string, sep2: Option<char>, line: string): string {
    OptChar(sep1) + (exchange + (OptChar(sep2) + line))
  }

  function RenderPhone(p: Phone): string {
    RenderCountry(p.country) + (RenderArea(p.parens, p.area) + RenderTail(p.sep1, p.exchange, p.sep2, p.line))
  }

  /** `(\+1\s?)?`: taken whenever the text starts with "+1", since neither an area code nor
      its parenthesis can start with '+'; the space likewise. */
  function ParseCountry(t: string): (Option<Option<char>>, string) {
    if Str.StartsWith(t, "+1") then
      if |t| > 2 && Str.IsSpace(t[2]) then (Some(Some(t[2])), t[3..]) else (Some(None), t[2..])
    else (None, t)
  }

  /** `(\([0-9]{3}\)|[0-9]{3})`. */
  function ParseArea(t: string): Option<(bool, string, string)> {
    if |t| > 0 && t[0] == '(' then
      if |t| >= 5 && IsDigits(t[1..4], 3) && t[4] == ')' then Some((true, t[1..4], t[5..])) else None
    else if |t| >= 3 && IsDigits(t[..3], 3) then Some((false, t[..3], t[3..]))
    else None
  }

  /** `[\s.-]?` before a digit group. */
  function ParseSep(t: string): (Option<char>, string) {
    if |t| > 0 && Sep(t[0]) then (Some(t[0]), t[1..]) else (None, t)
  }

  /** `[\s.-]?[0-9]{3}[\s.-]?[0-9]{4}$`. */
  function ParseTail(t: string): Option<(Option<char>, string, Option<char>, string)> {
    var (sep1, a) := ParseSep(t);
    if |a| >= 3 && IsDigits(a[..3], 3) then
      var (sep2, b) := ParseSep(a[3..]);
      if IsDigits(b, 4) then Some((sep1, a[..3], sep2, b)) else None
    else None
  }

  /** The regular expression read left to right: at every optional part the next character
      decides, so no backtracking is needed. */
  function ParsePhone(t: string): Option<Phone> {
    var (country, rest) := ParseCountry(t);
    match ParseArea(rest)
    case None => None
    case Some((parens, area, after)) =>
      match ParseTail(after)
      case None => None
      case Some((sep1, exchange, sep2, line)) => Some(Phone(country, parens, area, sep1, exchange, sep2, line))
  }

  /** `isValidPhoneNumber`: white-space runs collapse to one space and the ends are trimmed
      before matching. */
  function IsValidPhoneNumber(phone: string): bool {
    ParsePhone(Str.Trim(Str.ReplaceWs(phone, " "))).Some?
  }

  lemma CountrySound(t: string)
    ensures CountryShape(ParseCountry(t).0) && t == RenderCountry(ParseCountry(t).0) + ParseCountry(t).1
  {
    if Str.StartsWith(t, "+1") {
      assert t == t[..2] + t[2..];
      if |t| > 2 { assert t[2..] == [t[2]] + t[3..]; }
    }
  }

  lemma AreaSound(t: string)
    requires ParseArea(t).Some?
    ensures var (parens, area, rest) := ParseArea(t).value;
      IsDigits(area, 3) && t == RenderArea(parens, area) + rest
  {
    if t[0] == '(' {
      assert t == [t[0]] + t[1..4] + [t[4]] + t[5..];
    } else {
      assert t == t[..3] + t[3..];
    }
  }

  lemma SepSound(t: string)
    ensures OptSep(ParseSep(t).0) && t == OptChar(ParseSep(t).0) + ParseSep(t).1
  {
    if |t| > 0 && Sep(t[0]) { assert t == [t[0]] + t[1..]; }
  }

  lemma TailSound(t: string)
    requires ParseTail(t).Some?
    ensures var (sep1, exchange, sep2, line) := ParseTail(t).value;
      OptSep(sep1) && IsDigits(exchange, 3) && OptSep(sep2) && IsDigits(line, 4)
      && t == RenderTail(sep1, exchange, sep2, line)
  {
    var (sep1, a) := ParseSep(t);
    SepSound(t);
    SepSound(a[3..]);
    assert a == a[..3] + a[3..];
  }

  /** What the parser accepts is a well-formed phone number, and it renders back to the
      input. */
  lemma ParsePhoneSound(t: string)
    requires ParsePhone(t).Some?
    ensures PhoneShape(ParsePhone(t).value) && RenderPhone(ParsePhone(t).value) == t
  {
    var (country, rest) := ParseCountry(t);
    CountrySound(t);
    AreaSound(rest);
    TailSound(ParseArea(rest).value.2);
  }

  lemma CountryComplete(c: Option<Option<char>>, rest: string)
    requires CountryShape(c)
    requires |rest| > 0 && (rest[0] == '(' || Str.IsDigit(rest[0]))
    ensures ParseCountry(RenderCountry(c) + rest) == (c, rest)
  {
    var t := RenderCountry(c) + rest;
    if c.None? {
      assert t == rest;
    } else {
      assert t[..2] == "+1";
      if c.value.None? {
        assert t[2] == rest[0];
        assert t[2..] == rest;
      } else {
        assert t[3..] == rest;
      }
    }
  }

  lemma AreaComplete(parens: bool, area: string, rest: string)
    requires IsDigits(area, 3)
    ensures ParseArea(RenderArea(parens, area) + rest) == Some((parens, area, rest))
  {
    var t := RenderArea(parens, area) + rest;
    if parens {
      assert t[1..4] == area;
      assert t[5..] == rest;
    } else {
      assert t[0] == area[0];
      assert t[..3] == area;
      assert t[3..] == rest;
    }
  }

  lemma SepComplete(o: Option<char>, rest: string)
    requires OptSep(o)
    requires |rest| > 0 && Str.IsDigit(rest[0])
    ensures ParseSep(OptChar(o) + rest) == (o, rest)
  {
    if o.Some? { assert (OptChar(o) + rest)[1..] == rest; } else {
      assert OptChar(o) + rest == rest;
      assert !Str.IsSpace(rest[0]) && !Sep(rest[0]);
    }
  }

  lemma TailComplete(sep1: Option<char>, exchange: string, sep2: Option<char>, line: string)
    requires OptSep(sep1) && IsDigits(exchange, 3) && OptSep(sep2) && IsDigits(line, 4)
    ensures ParseTail(RenderTail(sep1, exchange, sep2, line)) == Some((sep1, exchange, sep2, line))
  {
    var a := exchange + (OptChar(sep2) + line);
    SepComplete(sep1, a);
    assert a[..3] == exchange;
    assert a[3..] == OptChar(sep2) + line;
    SepComplete(sep2, line);
  }

  /** Every well-formed phone number is accepted, and parsing recovers its parts. */
  lemma ParsePhoneComplete(p: Phone)
    requires PhoneShape(p)
    ensures ParsePhone(RenderPhone(p)) == Some(p)
  {
    var rest := RenderArea(p.parens, p.area) + RenderTail(p.sep1, p.exchange, p.sep2, p.line);
    assert rest[0] == '(' || rest[0] == p.area[0];
    CountryComplete(p.country, rest);
    AreaComplete(p.parens, p.area, RenderTail(p.sep1, p.exchange, p.sep2, p.line));
    TailComplete(p.sep1, p.exchange, p.sep2, p.line);
  }

  // ------------------------------------------------------------- isValidPassword

  const PASSWORD_MESSAGES: seq<string> := [
    "Password must be at least 8 characters long",
    "Password must contain at least one lowercase letter",
    "Password must contain at least one uppercase letter",
    "Password must contain at least one number",
    "Password must contain at least one special character"
  ]

  /** The character class `[!@#$%^&*()_+\-=\[\]{};':"\\|,.<>\/?]`. */
  predicate IsSpecial(c: char) {
    c in "!@#$%^&*()_+-=[]{};':\"\\|,.<>/?"
  }

  predicate HasLower(s: string) { exists i :: 0 <= i < |s| && Str.IsLower(s[i]) }
  predicate HasUpper(s: string) { exists i :: 0 <= i < |s| && Str.IsUpper(s[i]) }
  predicate HasSpecial(s: string) { exists i :: 0 <= i < |s| && IsSpecial(s[i]) }

  /** Check k of the five, each true when the password passes it. */
  predicate Passes(password: string, k: nat)
    requires k < 5
  {
    match k
    case 0 => |password| >= 8
    case 1 => HasLower(password)
    case 2 => HasUpper(password)
    case 3 => Str.HasDigit(password)
    case _ => HasSpecial(password)
  }

  /** The messages of the failing checks among the first k, in check order. */
  function FailedUpTo(password: string, k: nat): seq<string>
    requires k <= 5
  {
    if k == 0 then []
    else FailedUpTo(password, k - 1) + (if Passes(password, k - 1) then [] else [PASSWORD_MESSAGES[k - 1]])
  }

  /** `isValidPassword`: the five checks run in order and each failing one adds its message;
      the password is valid exactly when none fails. */
  method IsValidPassword(password: string) returns (isValid: bool, errors: seq<string>)
    ensures errors == FailedUpTo(password, 5)
    ensures isValid <==> errors == []
    ensures isValid <==> forall k :: 0 <= k < 5 ==> Passes(password, k)
  {
    errors := [];
    if |password| < 8 {
      errors := errors + [PASSWORD_MESSAGES[0]];
    }
    assert errors == FailedUpTo(password, 1);
    if !HasLower(password) {
      errors := errors + [PASSWORD_MESSAGES[1]];
    }
    assert errors == FailedUpTo(password, 2);
    if !HasUpper(password) {
      errors := errors + [PASSWORD_MESSAGES[2]];
    }
    assert errors == FailedUpTo(password, 3);
    if !Str.HasDigit(password) {
      errors := errors + [PASSWORD_MESSAGES[3]];
    }
    assert errors == FailedUpTo(password, 4);
    if !HasSpecial(password) {
      errors := errors + [PASSWORD_MESSAGES[4]];
    }
    isValid := |errors| == 0;
    FailedEmpty(password, 5);
  }

  lemma {:induction false} FailedEmpty(password: string, k: nat)
    requires k <= 5
    ensures FailedUpTo(password, k) == [] <==> forall j :: 0 <= j < k ==> Passes(password, j)
  {
    if k > 0 { FailedEmpty(password, k - 1); }
  }

  lemma MessagesDistinct()
    ensures forall i, j :: 0 <= i < j < 5 ==> PASSWORD_MESSAGES[i] != PASSWORD_MESSAGES[j]
  {
    assert |PASSWORD_MESSAGES[0]| == 43 && |PASSWORD_MESSAGES[3]| == 41;
    assert PASSWORD_MESSAGES[1][35] == 'l' && PASSWORD_MESSAGES[2][35] == 'u' && PASSWORD_MESSAGES[4][35] == 's';
  }

  /** A check's message is reported exactly when that check fails, at most once each, and
      the messages come in check order. */
  lemma {:induction false} FailedProps(password: string, k: nat)
    requires k <= 5
    ensures forall j :: 0 <= j < 5 ==> (PASSWORD_MESSAGES[j] in FailedUpTo(password, k) <==> j < k && !Passes(password, j))
    ensures Dedupe.Subseq(FailedUpTo(password, k), PASSWORD_MESSAGES[..k])
    ensures |FailedUpTo(password, k)| <= k
  {
    MessagesDistinct();
    if k > 0 {
      FailedProps(password, k - 1);
      assert PASSWORD_MESSAGES[..k] == PASSWORD_MESSAGES[..k - 1] + [PASSWORD_MESSAGES[k - 1]];
      if Passes(password, k - 1) {
        assert FailedUpTo(password, k) == FailedUpTo(password, k - 1);
        Dedupe.SubseqSnocRight(FailedUpTo(password, k - 1), PASSWORD_MESSAGES[..k - 1], PASSWORD_MESSAGES[k - 1]);
      } else {
        Dedupe.SubseqSnoc(FailedUpTo(password, k - 1), PASSWORD_MESSAGES[..k - 1], PASSWORD_MESSAGES[k - 1]);
      }
    }
  }

  // ----------------------------------------------------------------- sanitizeHtml

  /** `sanitizeHtml`: the six replacements of the source, '&' first. */
  function SanitizeHtml(input: string): string {
    var a := Str.ReplaceChar(input, '&', "&amp;");
    var b := Str.ReplaceChar(a, '<', "&lt;");
    var c := Str.ReplaceChar(b, '>', "&gt;");
    var d := Str.ReplaceChar(c, '"', "&quot;");
    var e := Str.ReplaceChar(d, '\'', "&#x27;");
    Str.ReplaceChar(e, '/', "&#x2F;")
  }

  /** The entity a character is escaped to in a single pass (the character itself when it
      needs no escape). */
  function Escape(c: char): string {
    match c
    case '&' => "&amp;"
    case '<' => "&lt;"
    case '>' => "&gt;"
    case '"' => "&quot;"
    case '\'' => "&#x27;"
    case '/' => "&#x2F;"
    case _ => [c]
  }

  function EscapeAll(s: string): string
    decreases |s|
  {
    if s == [] then [] else Escape(s[0]) + EscapeAll(s[1..])
  }

  lemma SanitizeAppend(a: string, b: string)
    ensures SanitizeHtml(a + b) == SanitizeHtml(a) + SanitizeHtml(b)
  {
    var a1 := Str.ReplaceChar(a, '&', "&amp;");
    var b1 := Str.ReplaceChar(b, '&', "&amp;");
    Str.ReplaceAppend(a, b, '&', "&amp;");
    var a2 := Str.ReplaceChar(a1, '<', "&lt;");
    var b2 := Str.ReplaceChar(b1, '<', "&lt;");
    Str.ReplaceAppend(a1, b1, '<', "&lt;");
    var a3 := Str.ReplaceChar(a2, '>', "&gt;");
    var b3 := Str.ReplaceChar(b2, '>', "&gt;");
    Str.ReplaceAppend(a2, b2, '>', "&gt;");
    var a4 := Str.ReplaceChar(a3, '"', "&quot;");
    var b4 := Str.ReplaceChar(b3, '"', "&quot;");
    Str.ReplaceAppend(a3, b3, '"', "&quot;");
    var a5 := Str.ReplaceChar(a4, '\'', "&#x27;");
    var b5 := Str.ReplaceChar(b4, '\'', "&#x27;");
    Str.ReplaceAppend(a4, b4, '\'', "&#x27;");
    Str.ReplaceAppend(a5, b5, '/', "&#x2F;");
  }

  /** The six stages of `SanitizeHtml` applied to one character. */
  lemma SanitizeChar(x: char)
    ensures SanitizeHtml([x]) == Escape(x)
  {
    var t := [x];
    ReplaceOne(x, '&', "&amp;");
    var a := Str.ReplaceChar(t, '&', "&amp;");
    StagesAfterAmp(x, a);
  }

  lemma ReplaceOne(x: char, c: char, r: string)
    ensures Str.ReplaceChar([x], c, r) == if x == c then r else [x]
  {
    assert [x][1..] == [];
  }

  /** The five stages after the first, applied to its result on one character. */
  lemma StagesAfterAmp(x: char, a: string)
    requires a == if x == '&' then "&amp;" else [x]
    ensures Str.ReplaceChar(Str.ReplaceChar(Str.ReplaceChar(Str.ReplaceChar(Str.ReplaceChar(a, '<', "&lt;"), '>', "&gt;"),
              '"', "&quot;"), '\'', "&#x27;"), '/', "&#x2F;") == Escape(x)
  {
    if x == '&' {
      Str.ReplaceNone(a, '<', "&lt;"); Str.ReplaceNone(a, '>', "&gt;"); Str.ReplaceNone(a, '"', "&quot;");
      Str.ReplaceNone(a, '\'', "&#x27;"); Str.ReplaceNone(a, '/', "&#x2F;");
    } else {
      ReplaceOne(x, '<', "&lt;");
      var b := Str.ReplaceChar(a, '<', "&lt;");
      StagesAfterLt(x, b);
    }
  }

  lemma StagesAfterLt(x: char, b: string)
    requires x != '&' && b == if x == '<' then "&lt;" else [x]
    ensures Str.ReplaceChar(Str.ReplaceChar(Str.ReplaceChar(Str.ReplaceChar(b, '>', "&gt;"),
              '"', "&quot;"), '\'', "&#x27;"), '/', "&#x2F;") == Escape(x)
  {
    if x == '<' {
      Str.ReplaceNone(b, '>', "&gt;"); Str.ReplaceNone(b, '"', "&quot;");
      Str.ReplaceNone(b, '\'', "&#x27;"); Str.ReplaceNone(b, '/', "&#x2F;");
    } else {
      ReplaceOne(x, '>', "&gt;");
      var c := Str.ReplaceChar(b, '>', "&gt;");
      StagesAfterGt(x, c);
    }
  }

  lemma StagesAfterGt(x: char, c: string)
    requires x != '&' && x != '<' && c == if x == '>' then "&gt;" else [x]
    ensures Str.ReplaceChar(Str.ReplaceChar(Str.ReplaceChar(c, '"', "&quot;"), '\'', "&#x27;"), '/', "&#x2F;") == Escape(x)
  {
    if x == '>' {
      Str.ReplaceNone(c, '"', "&quot;"); Str.ReplaceNone(c, '\'', "&#x27;"); Str.ReplaceNone(c, '/', "&#x2F;");
    } else {
      ReplaceOne(x, '"', "&quot;");
      StagesAfterQuot(x, Str.ReplaceChar(c, '"', "&quot;"));
    }
  }

  lemma StagesAfterQuot(x: char, d: string)
    requires x != '&' && x != '<' && x != '>' && d == if x == '"' then "&quot;" else [x]
    ensures Str.ReplaceChar(Str.ReplaceChar(d, '\'', "&#x27;"), '/', "&#x2F;") == Escape(x)
  {
    if x == '"' {
      Str.ReplaceNone(d, '\'', "&#x27;"); Str.ReplaceNone(d, '/', "&#x2F;");
    } else {
      ReplaceOne(x, '\'', "&#x27;");
      StagesAfterApos(x, Str.ReplaceChar(d, '\'', "&#x27;"));
    }
  }

  lemma StagesAfterApos(x: char, e: string)
    requires x != '&' && x != '<' && x != '>' && x != '"' && e == if x == '\'' then "&#x27;" else [x]
    ensures Str.ReplaceChar(e, '/', "&#x2F;") == Escape(x)
  {
    if x == '\'' {
      Str.ReplaceNone(e, '/', "&#x2F;");
    } else {
      ReplaceOne(x, '/', "&#x2F;");
    }
  }

  /** Because '&' is replaced first, the chain of replacements escapes every character
      exactly once: it equals the single-pass escape. */
  lemma {:induction false} SanitizeIsEscape(s: string)
    ensures SanitizeHtml(s) == EscapeAll(s)
    decreases |s|
  {
    if s != [] {
      assert s == [s[0]] + s[1..];
      SanitizeAppend([s[0]], s[1..]);
      SanitizeChar(s[0]);
      SanitizeIsEscape(s[1..]);
    } else {
      Str.ReplaceNone(s, '&', "&amp;"); Str.ReplaceNone(s, '<', "&lt;"); Str.ReplaceNone(s, '>', "&gt;");
      Str.ReplaceNone(s, '"', "&quot;"); Str.ReplaceNone(s, '\'', "&#x27;"); Str.ReplaceNone(s, '/', "&#x2F;");
    }
  }

  /** The characters the escape removes. */
  predicate Markup(c: char) { c == '<' || c == '>' || c == '"' || c == '\'' || c == '/' }

  /** One of the six entities starts at index i of t. */
  predicate EntityAt(t: string, i: int) {
    Str.At(t, "&amp;", i) || Str.At(t, "&lt;", i) || Str.At(t, "&gt;", i)
    || Str.At(t, "&quot;", i) || Str.At(t, "&#x27;", i) || Str.At(t, "&#x2F;", i)
  }

  predicate Escaped(t: string) {
    (forall i :: 0 <= i < |t| ==> !Markup(t[i]))
    && forall i :: 0 <= i < |t| && t[i] == '&' ==> EntityAt(t, i)
  }

  lemma AtShift(p: string, t: string, e: string, j: int)
    requires Str.At(t, e, j)
    ensures Str.At(p + t, e, j + |p|)
  {
    assert (p + t)[j + |p|..j + |p| + |e|] == t[j..j + |e|];
  }

  lemma {:induction false} EscapeAllEscaped(s: string)
    ensures Escaped(EscapeAll(s))
    decreases |s|
  {
    if s != [] {
      EscapeAllEscaped(s[1..]);
      EscapeEscaped(s[0]);
      EscapedAppend(Escape(s[0]), EscapeAll(s[1..]));
    }
  }

  lemma EscapeEscaped(c: char)
    ensures Escaped(Escape(c))
  {
    match c
    case '&' => EntityEscaped("&amp;");
    case '<' => EntityEscaped("&lt;");
    case '>' => EntityEscaped("&gt;");
    case '"' => EntityEscaped("&quot;");
    case '\'' => EntityEscaped("&#x27;");
    case '/' => EntityEscaped("&#x2F;");
    case _ =>
  }

  /** An entity on its own is escaped: its only '&' is the one it starts with. */
  lemma EntityEscaped(e: string)
    requires e in ["&amp;", "&lt;", "&gt;", "&quot;", "&#x27;", "&#x2F;"]
    ensures Escaped(e)
  {
    assert e[0..|e|] == e;
    assert EntityAt(e, 0);
    assert forall i :: 0 < i < |e| ==> e[i] != '&' && !Markup(e[i]);
  }

  /** Two escaped texts side by side are escaped. */
  lemma EscapedAppend(p: string, t: string)
    requires Escaped(p) && Escaped(t)
    ensures Escaped(p + t)
  {
    var u := p + t;
    forall i | 0 <= i < |u| ensures !Markup(u[i]) && (u[i] == '&' ==> EntityAt(u, i)) {
      if i < |p| {
        assert u[i] == p[i];
        if p[i] == '&' { EntityExtend(p, t, i); }
      } else {
        assert u[i] == t[i - |p|];
        if u[i] == '&' { EntityShift(p, t, i - |p|); }
      }
    }
  }

  lemma EntityShift(p: string, t: string, j: int)
    requires EntityAt(t, j)
    ensures EntityAt(p + t, j + |p|)
  {
    if Str.At(t, "&amp;", j) { AtShift(p, t, "&amp;", j); }
    if Str.At(t, "&lt;", j) { AtShift(p, t, "&lt;", j); }
    if Str.At(t, "&gt;", j) { AtShift(p, t, "&gt;", j); }
    if Str.At(t, "&quot;", j) { AtShift(p, t, "&quot;", j); }
    if Str.At(t, "&#x27;", j) { AtShift(p, t, "&#x27;", j); }
    if Str.At(t, "&#x2F;", j) { AtShift(p, t, "&#x2F;", j); }
  }

  lemma EntityExtend(p: string, t: string, j: int)
    requires EntityAt(p, j)
    ensures EntityAt(p + t, j)
  {
    if Str.At(p, "&amp;", j) { AtExtend(p, t, "&amp;", j); }
    if Str.At(p, "&lt;", j) { AtExtend(p, t, "&lt;", j); }
    if Str.At(p, "&gt;", j) { AtExtend(p, t, "&gt;", j); }
    if Str.At(p, "&quot;", j) { AtExtend(p, t, "&quot;", j); }
    if Str.At(p, "&#x27;", j) { AtExtend(p, t, "&#x27;", j); }
    if Str.At(p, "&#x2F;", j) { AtExtend(p, t, "&#x2F;", j); }
  }

  lemma AtExtend(p: string, t: string, e: string, j: int)
    requires Str.At(p, e, j)
    ensures Str.At(p + t, e, j)
  {
    assert (p + t)[j..j + |e|] == p[j..j + |e|];
  }

  /** The output has none of `< > " ' /`, and every '&' in it starts one of the six
      entities. */
  lemma SanitizeEscapes(input: string)
    ensures Escaped(SanitizeHtml(input))
  {
    SanitizeIsEscape(input);
    EscapeAllEscaped(input);
  }

  /** Decoding of the six entities, the inverse of the escape. */
  function Unescape(t: string): string
    decreases |t|
  {
    if t == [] then []
    else if Str.StartsWith(t, "&amp;") then "&" + Unescape(t[5..])
    else if Str.StartsWith(t, "&lt;") then "<" + Unescape(t[4..])
    else if Str.StartsWith(t, "&gt;") then ">" + Unescape(t[4..])
    else if Str.StartsWith(t, "&quot;") then "\"" + Unescape(t[6..])
    else if Str.StartsWith(t, "&#x27;") then "'" + Unescape(t[6..])
    else if Str.StartsWith(t, "&#x2F;") then "/" + Unescape(t[6..])
    else [t[0]] + Unescape(t[1..])
  }

  /** A text whose character i differs from the pattern's does not start with it. */
  lemma Mismatch(t: string, p: string, i: nat)
    requires i < |p| && i < |t| && t[i] != p[i]
    ensures !Str.StartsWith(t, p)
  {
    assert |p| > |t| || t[..|p|][i] != p[i];
  }

  /** The entity e opens e + rest, and what follows it is rest. */
  lemma Opens(e: string, rest: string)
    ensures Str.StartsWith(e + rest, e) && (e + rest)[|e|..] == rest
  {
    assert (e + rest)[..|e|] == e;
  }

  /** Decoding reads the escape of x back as x and goes on with the rest. */
  lemma UnescapeStep(x: char, rest: string)
    ensures Unescape(Escape(x) + rest) == [x] + Unescape(rest)
  {
    var e := Escape(x);
    var t := e + rest;
    Opens(e, rest);
    if x == '&' {
    } else if x == '<' {
      Mismatch(t, "&amp;", 1);
    } else if x == '>' {
      Mismatch(t, "&amp;", 1); Mismatch(t, "&lt;", 1);
    } else if x == '"' {
      Mismatch(t, "&amp;", 1); Mismatch(t, "&lt;", 1); Mismatch(t, "&gt;", 1);
    } else if x == '\'' {
      Mismatch(t, "&amp;", 1); Mismatch(t, "&lt;", 1); Mismatch(t, "&gt;", 1); Mismatch(t, "&quot;", 1);
    } else if x == '/' {
      Mismatch(t, "&amp;", 1); Mismatch(t, "&lt;", 1); Mismatch(t, "&gt;", 1); Mismatch(t, "&quot;", 1);
      Mismatch(t, "&#x27;", 4);
    } else {
      Mismatch(t, "&amp;", 0); Mismatch(t, "&lt;", 0); Mismatch(t, "&gt;", 0); Mismatch(t, "&quot;", 0);
      Mismatch(t, "&#x27;", 0); Mismatch(t, "&#x2F;", 0);
    }
  }

  /** Decoding the sanitised text gives back the input. */
  lemma {:induction false} UnescapeSanitize(input: string)
    ensures Unescape(EscapeAll(input)) == input
    decreases |input|
  {
    if input != [] {
      UnescapeStep(input[0], EscapeAll(input[1..]));
      UnescapeSanitize(input[1..]);
    }
  }

  // --------------------------------------------------------------- isValidZipCode

  /** `/^\d{5}(-\d{4})?$/.test(zipCode)`. */
  function IsValidZipCode(zipCode: string): bool {
    (|zipCode| == 5 || (|zipCode| == 10 && zipCode[5] == '-'))
    && IsDigits(zipCode[..5], 5) && (|zipCode| == 5 || IsDigits(zipCode[6..], 4))
  }

  /** A ZIP code: five digits and the optional four-digit extension. */
  datatype Zip = Zip(five: string, plus4: Option<string>)

  predicate ZipShape(z: Zip) {
    IsDigits(z.five, 5) && (z.plus4.None? || IsDigits(z.plus4.value, 4))
  }

  function RenderZip(z: Zip): string {
    z.five + (match z.plus4 case None => "" case Some(p) => "-" + p)
  }

  /** The accepted strings are exactly the renderings of well-formed ZIP codes. */
  lemma ZipAccepts(z: Zip)
    requires ZipShape(z)
    ensures IsValidZipCode(RenderZip(z))
  {
    var t := RenderZip(z);
    assert t[..5] == z.five;
    if z.plus4.Some? { assert t[6..] == z.plus4.value; }
  }

  lemma ZipSplits(zipCode: string) returns (z: Zip)
    requires IsValidZipCode(zipCode)
    ensures ZipShape(z) && RenderZip(z) == zipCode
  {
    if |zipCode| == 5 {
      z := Zip(zipCode, None);
    } else {
      z := Zip(zipCode[..5], Some(zipCode[6..]));
      assert zipCode == zipCode[..5] + "-" + zipCode[6..];
    }
  }

  // ---------------------------------------------------------------------- isEmpty

  /** `isEmpty`: null and undefined are both `None`. */
  function IsEmpty(value: Option<string>): bool {
    value.None? || |Str.Trim(value.value)| == 0
  }

  /** Empty exactly when absent or made of white space only. */
  lemma IsEmptyIff(value: Option<string>)
    ensures IsEmpty(value) <==> value.None? || Str.IsBlank(value.value)
  {
    if value.Some? { Str.TrimEmptyIffBlank(value.value); }
  }

  // ---------------------------------------------------------------- isValidNumber

  /** A JavaScript number that is NaN or a finite value. */
  datatype Num = NaN | Finite(v: real)

  /** The options object; an absent `allowFloat` means true. */
  datatype NumberOptions = NumberOptions(min: Option<real>, max: Option<real>, allowFloat: Option<bool>)

  predicate IsInteger(x: real) { x.Floor as real == x }

  /** `isValidNumber` on a number argument. */
  function IsValidNumber(value: Num, options: NumberOptions): bool {
    var allowFloat := options.allowFloat.GetOr(true);
    if value.NaN? then false
    else if !allowFloat && !IsInteger(value.v) then false
    else if options.min.Some? && value.v < options.min.value then false
    else if options.max.Some? && value.v > options.max.value then false
    else true
  }

  /** For an integer the result is exactly "within every given bound". */
  lemma IntegerInRange(n: int, options: NumberOptions)
    ensures IsValidNumber(Finite(n as real), options) <==>
      (options.min.None? || options.min.value <= n as real) && (options.max.None? || n as real <= options.max.value)
  {
    assert IsInteger(n as real);
  }

  /** With `allowFloat: false` a value that is not an integer is rejected whatever the
      bounds; NaN is always rejected. */
  lemma RejectsFractions(x: real, options: NumberOptions)
    ensures options.allowFloat == Some(false) && !IsInteger(x) ==> !IsValidNumber(Finite(x), options)
    ensures !IsValidNumber(NaN, options)
  {
  }
}
