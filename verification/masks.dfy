/** The character masks applied to form input as it is typed: filtering to a
    whitelist of characters, truncating to a maximum length, and inserting the
    `/` of a card expiry date. */
module Masks {

  /** The character classes the masks' regular expressions keep. */
  datatype CharClass =
    | Digit         // `\d`, ASCII digits (the expressions carry no `u` flag)
    | DigitOrSpace  // `[\d\s]`
    | PriceChar     // `[0-9.]`

  predicate IsDigit(c: char) {
    '0' <= c <= '9'
  }

  /** ECMAScript `\s`: the WhiteSpace and LineTerminator code points. */
  predicate IsJsSpace(c: char) {
    || c == '\t' || c == '\n' || c == '\U{B}' || c == '\U{C}' || c == '\r'
    || c == ' ' || c == '\U{A0}' || c == '\U{1680}'
    || ('\U{2000}' <= c <= '\U{200A}')
    || c == '\U{2028}' || c == '\U{2029}' || c == '\U{202F}' || c == '\U{205F}'
    || c == '\U{3000}' || c == '\U{FEFF}'
  }

  predicate InClass(c: char, k: CharClass) {
    match k
    case Digit => IsDigit(c)
    case DigitOrSpace => IsDigit(c) || IsJsSpace(c)
    case PriceChar => IsDigit(c) || c == '.'
  }

  predicate AllIn(s: string, k: CharClass) {
    forall i :: 0 <= i < |s| ==> InClass(s[i], k)
  }

  function Min(a: int, b: int): int {
    if a <= b then a else b
  }

  /** Deleting every character outside class `k`: what is left are the
      characters of `s` in class `k`, in their original order. */
  function Keep(s: string, k: CharClass): (r: string)
    ensures |r| <= |s|
    ensures AllIn(r, k)
    ensures forall c :: c in r <==> c in s && InClass(c, k)
    ensures AllIn(s, k) ==> r == s
  {
    if |s| == 0 then []
    else if InClass(s[0], k) then [s[0]] + Keep(s[1..], k)
    else Keep(s[1..], k)
  }

  /** Filtering distributes over concatenation: what is kept of `a` comes,
      unchanged and in order, before what is kept of `b`. */
  lemma {:induction false} KeepAppend(a: string, b: string, k: CharClass)
    ensures Keep(a + b, k) == Keep(a, k) + Keep(b, k)
  {
    if |a| == 0 {
      assert a + b == b;
    } else {
      assert (a + b)[0] == a[0];
      assert (a + b)[1..] == a[1..] + b;
      KeepAppend(a[1..], b, k);
    }
  }

  /** Filtering never adds a character: each character occurs in the result
      at most as often as in the input. */
  lemma {:induction false} KeepNoNewCharacters(s: string, k: CharClass)
    ensures multiset(Keep(s, k)) <= multiset(s)
  {
    if |s| > 0 {
      assert s == [s[0]] + s[1..];
      KeepNoNewCharacters(s[1..], k);
    }
  }

  /** `s.substring(0, n)`: the first `n` characters, or all of `s` when it is
      shorter. */
  function Prefix(s: string, n: nat): (r: string)
    ensures |r| == Min(|s|, n)
    ensures r <= s
  {
    if |s| <= n then s else s[..n]
  }

  lemma PrefixNoNewCharacters(s: string, n: nat)
    ensures multiset(Prefix(s, n)) <= multiset(s)
  {
    if n < |s| {
      assert s == s[..n] + s[n..];
    }
  }

  const CardNumberMaxLength: nat := 19
  const ExpiryMaxDigits: nat := 4
  const CvcMaxLength: nat := 4

  /** The card-number mask: digits and white space only, at most 19
      characters. */
  function CardNumberMask(v: string): (r: string)
    ensures AllIn(r, DigitOrSpace)
    ensures |r| == Min(|Keep(v, DigitOrSpace)|, CardNumberMaxLength)
    ensures r <= Keep(v, DigitOrSpace)
    ensures multiset(r) <= multiset(v)
  {
    var kept := Keep(v, DigitOrSpace);
    KeepNoNewCharacters(v, DigitOrSpace);
    PrefixNoNewCharacters(kept, CardNumberMaxLength);
    Prefix(kept, CardNumberMaxLength)
  }

  /** The number of leading digits of `s`, up to `max`: what the greedy
      regular-expression term `\d{0,max}` matches at the start of `s`. */
  function LeadingDigits(s: string, max: nat): (n: nat)
    ensures n <= max && n <= |s|
    ensures forall i :: 0 <= i < n ==> IsDigit(s[i])
    ensures n < max && n < |s| ==> !IsDigit(s[n])
  {
    if max == 0 || |s| == 0 || !IsDigit(s[0]) then 0
    else 1 + LeadingDigits(s[1..], max - 1)
  }

  /** The expiry field's slash insertion on an arbitrary string. When `s`
      starts with two digits, the pattern also takes up to two further
      digits; if it took at least one, the two digits are followed by a `/`
      and the further digits, otherwise they stay as they are. Anything after
      the match is kept. Put plainly: a `/` goes in at index 2 exactly when
      the first three characters are digits. */
  function SlashAfterTwoDigits(s: string): (r: string)
    ensures r == (if |s| >= 3 && IsDigit(s[0]) && IsDigit(s[1]) && IsDigit(s[2]) then s[..2] + "/" + s[2..] else s)
  {
    if |s| >= 2 && IsDigit(s[0]) && IsDigit(s[1]) then
      var n := LeadingDigits(s[2..], 2);
      var p1 := s[..2];
      var p2 := s[2..2 + n];
      assert s[2..] == p2 + s[2 + n..];
      assert s == p1 + s[2..];
      (if n > 0 then p1 + "/" + p2 else p1) + s[2 + n..]
    else
      s
  }

  /** The shape of a masked expiry date: up to two digits, or two digits, a
      slash and one or two digits. */
  predicate ExpiryShape(r: string) {
    || (|r| <= 2 && AllIn(r, Digit))
    || (4 <= |r| <= 5 && r[2] == '/' && AllIn(r[..2], Digit) && AllIn(r[3..], Digit))
  }

  /** The card-expiry mask: keep at most four digits and put a `/` after the
      first two when more follow. */
  function ExpiryMask(v: string): (r: string)
    ensures ExpiryShape(r)
    ensures Keep(r, Digit) == Prefix(Keep(v, Digit), ExpiryMaxDigits)
    ensures var d := Prefix(Keep(v, Digit), ExpiryMaxDigits);
            && (|d| <= 2 ==> r == d)
            && (|d| >= 3 ==> |r| == |d| + 1 && r[2] == '/' && r[..2] == d[..2] && r[3..] == d[2..])
  {
    var d := Prefix(Keep(v, Digit), ExpiryMaxDigits);
    SlashAfterDigits(d);
    SlashAfterTwoDigits(d)
  }

  /** On a string of at most four digits, the slash insertion yields the
      expiry shape and removing the slash gives the digits back. */
  lemma SlashAfterDigits(d: string)
    requires AllIn(d, Digit) && |d| <= ExpiryMaxDigits
    ensures var r := SlashAfterTwoDigits(d);
            && ExpiryShape(r)
            && Keep(r, Digit) == d
            && (|d| <= 2 ==> r == d)
            && (|d| >= 3 ==> |r| == |d| + 1 && r[2] == '/' && r[..2] == d[..2] && r[3..] == d[2..])
  {
    var r := SlashAfterTwoDigits(d);
    if |d| >= 3 {
      assert IsDigit(d[0]) && IsDigit(d[1]) && IsDigit(d[2]);
      KeepAppend(d[..2] + "/", d[2..], Digit);
      KeepAppend(d[..2], "/", Digit);
      assert d == d[..2] + d[2..];
    }
  }

  /** The CVC mask: digits only, at most four. */
  function CvcMask(v: string): (r: string)
    ensures AllIn(r, Digit)
    ensures |r| == Min(|Keep(v, Digit)|, CvcMaxLength)
    ensures r <= Keep(v, Digit)
  {
    Prefix(Keep(v, Digit), CvcMaxLength)
  }

  /** The product price sanitiser: digits and dots only, in order. There is
      no length limit and no check that at most one dot remains. */
  function PriceMask(v: string): (r: string)
    ensures r == Keep(v, PriceChar)
    ensures AllIn(r, PriceChar)
    ensures multiset(r) <= multiset(v)
    ensures AllIn(v, PriceChar) ==> r == v
  {
    KeepNoNewCharacters(v, PriceChar);
    Keep(v, PriceChar)
  }

  lemma CardNumberMaskIdempotent(v: string)
    ensures CardNumberMask(CardNumberMask(v)) == CardNumberMask(v)
  {
  }

  lemma ExpiryMaskIdempotent(v: string)
    ensures ExpiryMask(ExpiryMask(v)) == ExpiryMask(v)
  {
  }

  lemma CvcMaskIdempotent(v: string)
    ensures CvcMask(CvcMask(v)) == CvcMask(v)
  {
  }

  lemma PriceMaskIdempotent(v: string)
    ensures PriceMask(PriceMask(v)) == PriceMask(v)
  {
  }

  /** A price typed with several dots is not repaired: it passes through. */
  lemma PriceMaskKeepsSeveralDots()
    ensures PriceMask("1.2.3") == "1.2.3"
  {
  }
}
