/** Text as the ledger stores it: sequences of Unicode scalar values. */
module Text {
  import opened Basics

  /** Bytes one scalar value takes in UTF-8. */
  function RuneWidth(c: char): (n: nat)
    ensures 1 <= n <= 4
  {
    var code := c as int;
    if code < 0x80 then 1 else if code < 0x800 then 2 else if code < 0x10000 then 3 else 4
  }

  function BytesTo(s: string, n: nat): nat
    requires n <= |s|
  {
    if n == 0 then 0 else BytesTo(s, n - 1) + RuneWidth(s[n - 1])
  }

  function ByteLen(s: string): nat {
    BytesTo(s, |s|)
  }

  predicate IsControl(c: char) {
    var code := c as int;
    code < 0x20 || 0x7f <= code < 0xa0
  }

  predicate NoControl(s: string) {
    forall i :: 0 <= i < |s| ==> !IsControl(s[i])
  }

  /** The bounded, control-free text every identity field must be. */
  predicate SafeText(s: string, max: nat) {
    ByteLen(s) <= max && NoControl(s)
  }

  predicate IsHex(c: char) {
    '0' <= c <= '9' || 'a' <= c <= 'f'
  }

  predicate AllHex(s: string) {
    forall i :: 0 <= i < |s| ==> IsHex(s[i])
  }

  function LowerChar(c: char): char {
    if 'A' <= c <= 'Z' then (c as int + 32) as char else c
  }

  function Lower(s: string): string {
    seq(|s|, i requires 0 <= i < |s| => LowerChar(s[i]))
  }

  function TrimDot(s: string): string {
    if s != [] && s[|s| - 1] == '.' then s[..|s| - 1] else s
  }

  /** Lexicographic order, the order in which the source sorts names. */
  predicate Less(a: string, b: string) {
    b != [] && (a == [] || a[0] < b[0] || (a[0] == b[0] && Less(a[1..], b[1..])))
  }

  lemma {:induction false} LessIrreflexive(a: string)
    ensures !Less(a, a)
  {
    if a != [] { LessIrreflexive(a[1..]); }
  }

  lemma {:induction false} LessTransitive(a: string, b: string, c: string)
    requires Less(a, b) && Less(b, c)
    ensures Less(a, c)
  {
    if a != [] && a[0] == b[0] == c[0] { LessTransitive(a[1..], b[1..], c[1..]); }
  }

  lemma {:induction false} LessConnected(a: string, b: string)
    requires a != b
    ensures Less(a, b) || Less(b, a)
  {
    if a != [] && b != [] && a[0] == b[0] {
      assert a == [a[0]] + a[1..] && b == [b[0]] + b[1..];
      LessConnected(a[1..], b[1..]);
    }
  }

  /** The source may sort names with this order: it leaves no ties and no cycles. */
  lemma NamesAreOrdered()
    ensures StrictTotalOrder(Less)
  {
    forall a ensures !Less(a, a) { LessIrreflexive(a); }
    forall a, b, c | Less(a, b) && Less(b, c) ensures Less(a, c) { LessTransitive(a, b, c); }
    forall a, b | a != b ensures Less(a, b) || Less(b, a) { LessConnected(a, b); }
  }

  /** n scalar values take at least n and at most 4n bytes. */
  lemma {:induction false} BytesBound(s: string, n: nat)
    requires n <= |s|
    ensures n <= BytesTo(s, n) <= 4 * n
  {
    if n > 0 { BytesBound(s, n - 1); }
  }

  /** Characters a JSON string encoder writes for one scalar value, HTML-safe. */
  function JsonWidth(c: char): (n: nat)
    ensures 1 <= n <= 6
  {
    var code := c as int;
    if c == '\"' || c == '\\' || code in {8, 9, 10, 12, 13} then 2
    else if code < 0x20 || c == '<' || c == '>' || c == '&' then 6
    else if code == 0x2028 || code == 0x2029 then 6
    else RuneWidth(c)
  }

  function JsonCharsTo(s: string, n: nat): nat
    requires n <= |s|
  {
    if n == 0 then 0 else JsonCharsTo(s, n - 1) + JsonWidth(s[n - 1])
  }

  function JsonChars(s: string): nat {
    JsonCharsTo(s, |s|)
  }

  /** Encoded length of a JSON string, quotes included. */
  function JsonLen(s: string): nat {
    2 + JsonChars(s)
  }
}
