/** Values shared by every part of the model: optional and fallible results,
    the JavaScript values the source inspects for truthiness, the thrown
    values its error handlers classify, string helpers and decimal numerals. */
module Common {

  datatype Option<+T> = None | Some(value: T)

  datatype Result<+T, +E> = Ok(value: T) | Err(error: E)

  /** A property read from a JavaScript object, as far as the source looks at
      it: absent, present but falsy, or truthy with the text `String(value)`
      gives for it. */
  datatype JsField = Missing | Falsy | Truthy(text: string)

  /** One element of a Google API error's `errorDetails` array. `Throwing` is an
      element whose inspection raises (a getter that throws, or a value
      `String(...)` cannot convert). */
  datatype ErrorDetail =
    | NullishDetail
    | ThrowingDetail
    | DetailEntry(typeTag: JsField, retryDelay: JsField)

  /** The `errorDetails` property of a thrown value. */
  datatype ErrorDetails = NoDetails | NotAnArray | DetailArray(items: seq<ErrorDetail>)

  /** A value thrown by an awaited call (an SDK, the database, Redis). Only the
      fields the handlers read are kept: a numeric `status` and `errorDetails`. */
  datatype Thrown =
    | FalsyThrown
    | ErrorValue(message: string, status: Option<int>, errorDetails: ErrorDetails)

  /** The properties every plain object literal inherits from
      `Object.prototype`: reading one of these keys from a record such as
      `{ a: 1 }` finds the inherited value, never `undefined`. */
  const ObjectPrototypeKeys: set<string> := {
    "constructor", "__defineGetter__", "__defineSetter__", "hasOwnProperty",
    "__lookupGetter__", "__lookupSetter__", "isPrototypeOf", "propertyIsEnumerable",
    "toString", "valueOf", "__proto__", "toLocaleString"
  }

  // ---------------------------------------------------------------- strings

  predicate StartsWith(s: string, prefix: string) {
    |prefix| <= |s| && s[..|prefix|] == prefix
  }

  /** `w` occurs in `s` starting at index `i`. */
  predicate OccursAt(w: string, s: string, i: int) {
    0 <= i && i + |w| <= |s| && s[i..i + |w|] == w
  }

  predicate Contains(s: string, w: string) {
    exists i | 0 <= i <= |s| - |w| :: OccursAt(w, s, i)
  }

  /** `parts.join(sep)` of JavaScript. */
  function Join(parts: seq<string>, sep: string): string
    decreases |parts|
  {
    if |parts| == 0 then ""
    else if |parts| == 1 then parts[0]
    else parts[0] + sep + Join(parts[1..], sep)
  }

  /** Where `parts[i]` starts inside `Join(parts, sep)`. */
  function JoinOffset(parts: seq<string>, sep: string, i: nat): nat
    requires i < |parts|
    decreases i
  {
    if i == 0 then 0 else |parts[0]| + |sep| + JoinOffset(parts[1..], sep, i - 1)
  }

  /** Every part of a join is found verbatim at its offset, in order. */
  lemma {:induction false} JoinKeepsParts(parts: seq<string>, sep: string, i: nat)
    requires i < |parts|
    ensures OccursAt(parts[i], Join(parts, sep), JoinOffset(parts, sep, i))
    ensures i + 1 < |parts| ==> JoinOffset(parts, sep, i) + |parts[i]| + |sep| == JoinOffset(parts, sep, i + 1)
    decreases i
  {
    var j := Join(parts, sep);
    if |parts| == 1 {
      assert j == parts[0];
    } else if i == 0 {
      assert j == parts[0] + sep + Join(parts[1..], sep);
      assert j[..|parts[0]|] == parts[0];
    } else {
      JoinKeepsParts(parts[1..], sep, i - 1);
      var rest := Join(parts[1..], sep);
      var pre := parts[0] + sep;
      assert j == pre + rest;
      var o := JoinOffset(parts[1..], sep, i - 1);
      assert rest[o..o + |parts[i]|] == parts[i];
      assert j[|pre| + o..|pre| + o + |parts[i]|] == rest[o..o + |parts[i]|];
    }
  }

  /** An occurrence inside an occurrence is an occurrence. */
  lemma OccursWithin(w: string, s: string, t: string, o: int, n: int)
    requires OccursAt(w, s, o) && OccursAt(s, t, n)
    ensures OccursAt(w, t, n + o)
  {
    forall k | 0 <= k < |w|
      ensures t[n + o + k] == w[k]
    {
      assert t[n..n + |s|][o + k] == t[n + o + k];
      assert s[o..o + |w|][k] == s[o + k];
    }
    assert t[n + o..n + o + |w|] == w;
  }

  lemma ConcatAssoc(a: string, b: string, c: string)
    ensures a + (b + c) == (a + b) + c
  {
  }

  /** The three pieces of a concatenation can be cut back out of it. */
  lemma ConcatSlices(a: string, b: string, c: string)
    ensures (a + b + c)[..|a|] == a
    ensures (a + b + c)[|a|..|a| + |b|] == b
    ensures (a + b + c)[|a| + |b|..] == c
  {
    var s := a + b + c;
    assert s[..|a|] == a;
    assert s[|a|..|a| + |b|] == b;
    assert s[|a| + |b|..] == c;
  }

  /** The characters `String.prototype.trim` removes: WhiteSpace and
      LineTerminator of ECMAScript. */
  predicate IsJsWhitespace(c: char) {
    c == ' ' || c == '\t' || c == '\n' || c == '\r' || c == '\U{B}' || c == '\U{C}'
    || c == '\U{A0}' || c == '\U{FEFF}' || c == '\U{1680}' || ('\U{2000}' <= c <= '\U{200A}')
    || c == '\U{2028}' || c == '\U{2029}' || c == '\U{202F}' || c == '\U{205F}' || c == '\U{3000}'
  }

  /** `!s.trim()`: the string is empty once trimmed. */
  predicate IsBlank(s: string) {
    forall i | 0 <= i < |s| :: IsJsWhitespace(s[i])
  }

  /** ASCII case folding, which is what a regular expression's `i` flag does to the
      letters of a pattern written in ASCII and the only folding `toLowerCase()`
      needs to be compared with an ASCII literal. */
  function LowerAscii(c: char): char {
    if 'A' <= c <= 'Z' then (c as int + 32) as char else c
  }

  /** Lower-casing a lower-cased character changes nothing. */
  lemma LowerAsciiIdempotent(c: char)
    ensures LowerAscii(LowerAscii(c)) == LowerAscii(c)
  {
  }

  function LowerAsciiString(s: string): (r: string)
    ensures |r| == |s|
    ensures forall i | 0 <= i < |s| :: r[i] == LowerAscii(s[i])
  {
    if |s| == 0 then [] else [LowerAscii(s[0])] + LowerAsciiString(s[1..])
  }

  // ---------------------------------------------------------------- decimals

  predicate IsDigit(c: char) { '0' <= c <= '9' }

  predicate AllDigits(s: string) { forall i | 0 <= i < |s| :: IsDigit(s[i]) }

  function DigitChar(d: nat): (c: char)
    requires d < 10
    ensures IsDigit(c)
  {
    ('0' as int + d) as char
  }

  function DigitValue(c: char): (d: nat)
    requires IsDigit(c)
    ensures d < 10 && DigitChar(d) == c
  {
    c as int - '0' as int
  }

  /** `String(n)` for a non-negative integer. */
  function ShowNat(n: nat): (s: string)
    ensures |s| > 0 && AllDigits(s)
    decreases n
  {
    if n < 10 then [DigitChar(n)] else ShowNat(n / 10) + [DigitChar(n % 10)]
  }

  /** `String(i)` for any integer. */
  function ShowInt(i: int): string {
    if i < 0 then "-" + ShowNat(-i) else ShowNat(i)
  }

  /** `parseInt(s, 10)` of a non-empty run of decimal digits. */
  function ParseDigits(s: string): nat
    requires AllDigits(s)
    decreases |s|
  {
    if |s| == 0 then 0 else 10 * ParseDigits(s[..|s| - 1]) + DigitValue(s[|s| - 1])
  }

  /** Reading back the decimal text of a number gives the number. */
  lemma {:induction false} ParseShowNat(n: nat)
    ensures ParseDigits(ShowNat(n)) == n
    decreases n
  {
    var s := ShowNat(n);
    if n >= 10 {
      ParseShowNat(n / 10);
      assert s[..|s| - 1] == ShowNat(n / 10);
    }
  }

  /** Distinct numbers have distinct decimal texts. */
  lemma ShowNatInjective(m: nat, n: nat)
    ensures ShowNat(m) == ShowNat(n) ==> m == n
  {
    ParseShowNat(m);
    ParseShowNat(n);
  }
}
