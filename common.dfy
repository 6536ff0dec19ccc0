/** Values and string helpers shared by the authentication gate, the user
    directory and the application form: optional and failure-carrying
    results, the loosely typed input values that arrive from request bodies
    and form fields, JavaScript's `startsWith`, `join` and `trim`, and the
    shape checks that stand in for the schema library's email and URL
    formats. */
module Common {

  datatype Option<+T> = None | Some(value: T) {
    /** JavaScript's `this ?? fallback`: the value when present, else the fallback. */
    function OrElse(fallback: Option<T>): Option<T> {
      if Some? then this else fallback
    }
    function GetOr(default: T): T {
      if Some? then value else default
    }
  }

  datatype Result<+T, +E> = Ok(value: T) | Err(error: E)

  /** A value as it arrives from a JSON body or a form control, before any
      schema has looked at it. `Undefined` is a missing key. */
  datatype Value =
    | Undefined
    | Null
    | Str(s: string)
    | Num(n: real)
    | Bool(b: bool)
    | List(items: seq<Value>)

  /** `s.startsWith(prefix)` */
  predicate StartsWith(s: string, prefix: string) {
    |prefix| <= |s| && s[..|prefix|] == prefix
  }

  /** `prefixes.some((p) => s.startsWith(p))` */
  predicate StartsWithAny(s: string, prefixes: seq<string>) {
    exists i :: 0 <= i < |prefixes| && StartsWith(s, prefixes[i])
  }

  /** `parts.join(sep)` */
  function Join(parts: seq<string>, sep: string): (r: string)
    ensures |parts| == 1 ==> r == parts[0]
    ensures |parts| > 1 ==> StartsWith(r, parts[0] + sep)
  {
    if |parts| == 0 then ""
    else if |parts| == 1 then parts[0]
    else
      var rest := Join(parts[1..], sep);
      assert (parts[0] + sep + rest)[..|parts[0] + sep|] == parts[0] + sep;
      parts[0] + sep + rest
  }

  /** The characters JavaScript's `String.prototype.trim` removes: the
      WhiteSpace and LineTerminator code points of ECMAScript. */
  predicate IsJsWhitespace(c: char) {
    || c == '\t' || c == '\n' || c == '\U{000B}' || c == '\U{000C}' || c == '\r' || c == ' '
    || c == '\U{00A0}' || c == '\U{1680}' || ('\U{2000}' <= c <= '\U{200A}')
    || c == '\U{2028}' || c == '\U{2029}' || c == '\U{202F}' || c == '\U{205F}'
    || c == '\U{3000}' || c == '\U{FEFF}'
  }

  predicate AllWhitespace(s: string) {
    forall i :: 0 <= i < |s| ==> IsJsWhitespace(s[i])
  }

  /** Drops leading whitespace: the result is a suffix of `s`, what was
      dropped is whitespace, and the result does not start with whitespace. */
  function TrimStart(s: string): (r: string)
    ensures |r| <= |s| && r == s[|s| - |r|..]
    ensures AllWhitespace(s[..|s| - |r|])
    ensures r != [] ==> !IsJsWhitespace(r[0])
  {
    if |s| > 0 && IsJsWhitespace(s[0]) then TrimStart(s[1..]) else s
  }

  /** Drops trailing whitespace: the result is a prefix of `s`, what was
      dropped is whitespace, and the result does not end with whitespace. */
  function TrimEnd(s: string): (r: string)
    ensures |r| <= |s| && r == s[..|r|]
    ensures AllWhitespace(s[|r|..])
    ensures r != [] ==> !IsJsWhitespace(r[|r| - 1])
  {
    if |s| > 0 && IsJsWhitespace(s[|s| - 1]) then TrimEnd(s[..|s| - 1]) else s
  }

  /** `s.trim()` */
  function Trim(s: string): (r: string)
    ensures |r| <= |s|
    ensures r != [] ==> !IsJsWhitespace(r[0]) && !IsJsWhitespace(r[|r| - 1])
  {
    TrimEnd(TrimStart(s))
  }

  /** Trimming keeps one contiguous part of the string and removes only
      whitespace before and after it. */
  lemma {:induction false} TrimKeepsInfix(s: string)
    ensures exists i, j {:trigger s[i..j]} ::
              0 <= i <= j <= |s| && Trim(s) == s[i..j] && AllWhitespace(s[..i]) && AllWhitespace(s[j..])
  {
    var t := TrimStart(s);
    var r := TrimEnd(t);
    var i := |s| - |t|;
    assert r == s[i..i + |r|];
    assert s[i + |r|..] == t[|r|..];
  }

  /** Trimming removes nothing from a string that neither starts nor ends
      with whitespace, so trimming twice is trimming once. */
  lemma {:induction false} TrimIdempotent(s: string)
    ensures Trim(Trim(s)) == Trim(s)
  {
    var t := Trim(s);
    assert TrimStart(t) == t;
    assert TrimEnd(t) == t;
  }

  /** A non-empty string that neither starts nor ends with whitespace
      trims to itself. */
  lemma {:induction false} TrimUnpadded(s: string)
    requires s != [] && !IsJsWhitespace(s[0]) && !IsJsWhitespace(s[|s| - 1])
    ensures Trim(s) == s
  {
    assert TrimStart(s) == s;
    assert TrimEnd(s) == s;
  }

  /** A string made only of whitespace trims to the empty string, and only
      such a string does. */
  lemma {:induction false} TrimEmptyIffAllWhitespace(s: string)
    ensures Trim(s) == "" <==> AllWhitespace(s)
  {
    var t := TrimStart(s);
    if !AllWhitespace(s) {
      var k :| 0 <= k < |s| && !IsJsWhitespace(s[k]);
      assert t[k - (|s| - |t|)] == s[k];
    }
  }

  predicate IsAsciiLetter(c: char) {
    ('A' <= c <= 'Z') || ('a' <= c <= 'z')
  }

  predicate IsAsciiDigit(c: char) {
    '0' <= c <= '9'
  }

  /** Stand-in for the schema library's email format: one `@` with a
      non-empty local part before it and a dotted domain after it, and no
      whitespace anywhere. */
  predicate WellFormedEmail(s: string) {
    && (forall i :: 0 <= i < |s| ==> !IsJsWhitespace(s[i]))
    && exists k :: 0 < k < |s| && EmailSplitAt(s, k)
  }

  /** `s[k]` is the only `@` of `s`, with a local part before it and a
      dotted domain after it. */
  predicate EmailSplitAt(s: string, k: int) {
    0 < k < |s| && s[k] == '@' && '@' !in s[..k] && '@' !in s[k + 1..] && DottedDomain(s[k + 1..])
  }

  predicate DottedDomain(d: string) {
    |d| >= 3 && d[0] != '.' && d[|d| - 1] != '.' && '.' in d
  }

  /** Stand-in for the URL constructor the schema library uses: a scheme of
      letters, digits, `+`, `-` or `.` that starts with a letter, a colon, and
      something after it. */
  predicate WellFormedUrl(s: string) {
    exists k :: 1 <= k < |s| - 1 && SchemeEndsAt(s, k)
  }

  /** `s[..k]` is a scheme and `s[k]` the colon after it, with something
      after the colon. */
  predicate SchemeEndsAt(s: string, k: int) {
    1 <= k < |s| - 1 && s[k] == ':' && IsAsciiLetter(s[0]) && forall i :: 0 < i < k ==> SchemeChar(s[i])
  }

  predicate SchemeChar(c: char) {
    IsAsciiLetter(c) || IsAsciiDigit(c) || c == '+' || c == '-' || c == '.'
  }
}
