/** Shared vocabulary: optional values, results, and the handful of JavaScript string
    operations the page scripts rely on (`trim`, the `\s` class, `includes`, `endsWith`,
    decimal `toString`). */
module Common {

  datatype Option<+T> = None | Some(value: T)

  datatype Result<+T, +E> = Ok(value: T) | Err(error: E)

  /** The `{avatar, name}` pair both header scripts compute for an account. */
  datatype AccountDisplay = AccountDisplay(avatar: string, name: string)

  /** JavaScript truthiness of a value that is either absent or a string:
      `undefined`, `null` and `''` are all falsy. */
  predicate Truthy(o: Option<string>)
  {
    o.Some? && o.value != ""
  }

  /** `o || fallback` for an optional string. */
  function OrElse(o: Option<string>, fallback: string): (r: string)
    ensures Truthy(o) ==> r == o.value
    ensures !Truthy(o) ==> r == fallback
    ensures fallback != "" ==> r != ""
  {
    if Truthy(o) then o.value else fallback
  }

  /** The characters matched by `\s` in a JavaScript regular expression, which are also
      the characters `String.prototype.trim` removes (WhiteSpace and LineTerminator). */
  predicate IsJsSpace(c: char)
  {
    c == '\t' || c == '\n' || c == '\U{000B}' || c == '\U{000C}' || c == '\r' || c == ' '
    || c == '\U{00A0}' || c == '\U{1680}' || ('\U{2000}' <= c <= '\U{200A}')
    || c == '\U{2028}' || c == '\U{2029}' || c == '\U{202F}' || c == '\U{205F}'
    || c == '\U{3000}' || c == '\U{FEFF}'
  }

  /** `\d` without the `u` flag: ASCII digits only. */
  predicate IsDigit(c: char)
  {
    '0' <= c <= '9'
  }

  predicate AllDigits(s: string)
  {
    forall i | 0 <= i < |s| :: IsDigit(s[i])
  }

  /** `[a-zA-Z]`. */
  predicate IsAsciiLetter(c: char)
  {
    ('a' <= c <= 'z') || ('A' <= c <= 'Z')
  }

  /** Upper-casing restricted to ASCII letters. */
  function ToUpperAscii(c: char): (u: char)
    ensures 'a' <= c <= 'z' ==> 'A' <= u <= 'Z' && u as int == c as int - 32
    ensures !('a' <= c <= 'z') ==> u == c
  {
    if 'a' <= c <= 'z' then (c as int - 32) as char else c
  }

  /** `s.includes(sub)`. */
  predicate Contains(s: string, sub: string)
  {
    exists i | 0 <= i <= |s| :: sub <= s[i..]
  }

  /** `s.endsWith(suffix)`. */
  predicate EndsWith(s: string, suffix: string)
  {
    |suffix| <= |s| && s[|s| - |suffix|..] == suffix
  }

  /** Leading whitespace removed. */
  function TrimStart(s: string): (r: string)
    ensures |r| <= |s| && r == s[|s| - |r|..]
    ensures r == "" || !IsJsSpace(r[0])
    ensures forall i | 0 <= i < |s| - |r| :: IsJsSpace(s[i])
  {
    if s != "" && IsJsSpace(s[0]) then TrimStart(s[1..]) else s
  }

  /** Trailing whitespace removed. */
  function TrimEnd(s: string): (r: string)
    ensures |r| <= |s| && r == s[..|r|]
    ensures r == "" || !IsJsSpace(r[|r| - 1])
    ensures forall i | |r| <= i < |s| :: IsJsSpace(s[i])
  {
    if s != "" && IsJsSpace(s[|s| - 1]) then TrimEnd(s[..|s| - 1]) else s
  }

  /** How many leading characters `trim` drops. */
  function TrimOffset(s: string): nat
  {
    |s| - |TrimStart(s)|
  }

  /** `s.trim()`: the longest slice of `s` that neither starts nor ends with whitespace,
      everything cut off on either side being whitespace. */
  function Trim(s: string): (r: string)
    ensures TrimOffset(s) + |r| <= |s| && r == s[TrimOffset(s)..TrimOffset(s) + |r|]
    ensures forall i | 0 <= i < TrimOffset(s) :: IsJsSpace(s[i])
    ensures forall i | TrimOffset(s) + |r| <= i < |s| :: IsJsSpace(s[i])
    ensures r == "" || (!IsJsSpace(r[0]) && !IsJsSpace(r[|r| - 1]))
  {
    var t := TrimStart(s);
    var r := TrimEnd(t);
    var a := |s| - |t|;
    assert r == s[a..a + |r|];
    r
  }

  /** A string trims to nothing exactly when every character is whitespace. */
  lemma {:induction false} TrimEmptyIffAllSpace(s: string)
    ensures Trim(s) == "" <==> forall i | 0 <= i < |s| :: IsJsSpace(s[i])
  {
    if Trim(s) != "" {
      var r := Trim(s);
      assert s[TrimOffset(s)] == r[0];
    }
  }

  function DigitChar(d: nat): (c: char)
    requires d < 10
    ensures IsDigit(c) && c as int - '0' as int == d
  {
    ('0' as int + d) as char
  }

  /** `n.toString()` for a natural number: its shortest decimal spelling. */
  function NatToString(n: nat): (r: string)
    ensures r != "" && AllDigits(r)
    ensures |r| > 1 ==> r[0] != '0'
    decreases n
  {
    if n < 10 then [DigitChar(n)] else NatToString(n / 10) + [DigitChar(n % 10)]
  }

  /** `i.toString()` for an integer. */
  function IntToString(i: int): (r: string)
    ensures r != ""
    ensures i >= 0 ==> r == NatToString(i)
    ensures i < 0 ==> r == "-" + NatToString(-i)
  {
    if i < 0 then "-" + NatToString(-i) else NatToString(i)
  }
}
