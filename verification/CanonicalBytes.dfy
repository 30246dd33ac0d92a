// The byte encodings under the hash chains: UTF-8 text, decimal numbers, and fields
// closed by a separator (src/domain/ledger/hash_chain.py and
// src/infrastructure/audit/tamper_log.py), with the facts that make them decodable.
module CanonicalBytes {

  type Bytes = seq<int>

  const BAR: int := 0x7C         // |
  const COLON: int := 0x3A       // :
  const SEMICOLON: int := 0x3B   // ;

  // ----- UTF-8 -----

  function EncodeChar(c: char): Bytes {
    var x := c as int;
    if x < 0x80 then [x]
    else if x < 0x800 then [0xC0 + x / 0x40, 0x80 + x % 0x40]
    else if x < 0x1_0000 then [0xE0 + x / 0x1000, 0x80 + (x / 0x40) % 0x40, 0x80 + x % 0x40]
    else [0xF0 + x / 0x4_0000, 0x80 + (x / 0x1000) % 0x40, 0x80 + (x / 0x40) % 0x40, 0x80 + x % 0x40]
  }

  function Utf8(s: string): Bytes {
    if s == "" then [] else EncodeChar(s[0]) + Utf8(s[1..])
  }

  // No character's encoding is the beginning of another's.
  lemma CharsArePrefixFree(c: char, d: char, a: Bytes, b: Bytes)
    requires EncodeChar(c) + a == EncodeChar(d) + b
    ensures c == d && a == b
  {
    var u, v := EncodeChar(c) + a, EncodeChar(d) + b;
    assert u[0] == EncodeChar(c)[0] && v[0] == EncodeChar(d)[0];
    assert |EncodeChar(c)| == |EncodeChar(d)|;
    assert u[..|EncodeChar(c)|] == EncodeChar(c) && v[..|EncodeChar(d)|] == EncodeChar(d);
    CodePointOfChar(c);
    CodePointOfChar(d);
    assert u[|EncodeChar(c)|..] == a && v[|EncodeChar(d)|..] == b;
  }

  // The code point that a sequence of one to four bytes stands for.
  function CodePoint(u: Bytes): int {
    if |u| == 1 then u[0]
    else if |u| == 2 then (u[0] - 0xC0) * 0x40 + (u[1] - 0x80)
    else if |u| == 3 then ((u[0] - 0xE0) * 0x40 + (u[1] - 0x80)) * 0x40 + (u[2] - 0x80)
    else if |u| == 4 then (((u[0] - 0xF0) * 0x40 + (u[1] - 0x80)) * 0x40 + (u[2] - 0x80)) * 0x40 + (u[3] - 0x80)
    else 0
  }

  lemma CodePointOfChar(c: char)
    ensures CodePoint(EncodeChar(c)) == c as int
  {
    var x := c as int;
    assert x / 0x1000 == (x / 0x40) / 0x40;
    assert x / 0x4_0000 == (x / 0x1000) / 0x40;
  }

  lemma {:induction false} Utf8Injective(s: string, t: string)
    requires Utf8(s) == Utf8(t)
    ensures s == t
  {
    if s != "" && t != "" {
      CharsArePrefixFree(s[0], t[0], Utf8(s[1..]), Utf8(t[1..]));
      Utf8Injective(s[1..], t[1..]);
    }
  }

  lemma ConcatAssociates(a: Bytes, b: Bytes, c: Bytes)
    ensures (a + b) + c == a + (b + c)
  {
  }

  lemma {:induction false} Utf8Append(s: string, t: string)
    ensures Utf8(s + t) == Utf8(s) + Utf8(t)
  {
    if s == "" {
      assert s + t == t;
    } else {
      Utf8Append(s[1..], t);
      assert (s + t)[1..] == s[1..] + t;
      ConcatAssociates(EncodeChar(s[0]), Utf8(s[1..]), Utf8(t));
    }
  }

  // A seven-bit byte shows up only where its own character stands.
  lemma {:induction false} Utf8Bytes(s: string, b: int)
    requires 0 <= b < 0x80
    ensures b in Utf8(s) <==> b as char in s
  {
    if s == "" {
    } else {
      Utf8Bytes(s[1..], b);
      assert b in EncodeChar(s[0]) <==> s[0] == b as char;
      assert s == [s[0]] + s[1..];
    }
  }

  // Seven-bit text is its own encoding.
  lemma {:induction false} Utf8OfAscii(s: string)
    requires forall i :: 0 <= i < |s| ==> s[i] as int < 0x80
    ensures Utf8(s) == seq(|s|, i requires 0 <= i < |s| => s[i] as int)
  {
    if s == "" {
    } else {
      Utf8OfAscii(s[1..]);
    }
  }

  // ----- decimal numbers -----

  function Digits(n: nat): Bytes {
    if n < 10 then [0x30 + n] else Digits(n / 10) + [0x30 + n % 10]
  }

  // The %d format.
  function Decimal(n: int): Bytes {
    if n < 0 then [0x2D] + Digits(-n) else Digits(n)
  }

  function ValueOf(ds: Bytes): int {
    if ds == [] then 0 else 10 * ValueOf(ds[..|ds| - 1]) + ds[|ds| - 1] - 0x30
  }

  lemma {:induction false} DigitsValue(n: nat)
    ensures ValueOf(Digits(n)) == n
    ensures Digits(n) != []
    ensures forall k :: 0 <= k < |Digits(n)| ==> 0x30 <= Digits(n)[k] <= 0x39
  {
    if n >= 10 {
      DigitsValue(n / 10);
      assert Digits(n)[..|Digits(n)| - 1] == Digits(n / 10);
    } else {
      assert Digits(n)[..0] == [];
    }
  }

  lemma DecimalInjective(m: int, n: int)
    requires Decimal(m) == Decimal(n)
    ensures m == n
  {
    DigitsValue(if m < 0 then -m else m);
    DigitsValue(if n < 0 then -n else n);
    assert Decimal(m)[0] == Decimal(n)[0];
    if m < 0 {
      assert Decimal(m)[1..] == Digits(-m) && Decimal(n)[1..] == Digits(-n);
    }
  }

  // Numbers are written with digits and a sign only.
  lemma DecimalBytes(n: int, b: int)
    requires b in Decimal(n)
    ensures b == 0x2D || 0x30 <= b <= 0x39
  {
    DigitsValue(if n < 0 then -n else n);
  }

  // ----- separated fields -----

  // A field, its separator, and what follows.
  function Field(a: Bytes, sep: int, rest: Bytes): Bytes {
    a + [sep] + rest
  }

  // Nesting fields to the left or to the right gives the same bytes.
  lemma FieldsAssociate(a: Bytes, sep: int, b: Bytes, next: int, c: Bytes)
    ensures Field(a, sep, Field(b, next, c)) == Field(Field(a, sep, b), next, c)
  {
  }

  lemma FirstSeparator(a: Bytes, x: Bytes, sep: int)
    requires sep !in a
    ensures Field(a, sep, x)[|a|] == sep && forall k :: 0 <= k < |a| ==> Field(a, sep, x)[k] != sep
  {
  }

  lemma LastSeparator(x: Bytes, a: Bytes, sep: int)
    requires sep !in a
    ensures Field(x, sep, a)[|x|] == sep && forall k :: |x| < k < |Field(x, sep, a)| ==> Field(x, sep, a)[k] != sep
  {
    forall k | |x| < k < |Field(x, sep, a)| ensures Field(x, sep, a)[k] != sep {
      assert Field(x, sep, a)[k] == a[k - |x| - 1];
    }
  }

  // A field that does not contain its separator can be read off the front.
  lemma FieldSplits(a: Bytes, x: Bytes, b: Bytes, y: Bytes, sep: int)
    requires Field(a, sep, x) == Field(b, sep, y)
    requires sep !in a && sep !in b
    ensures a == b && x == y
  {
    var u, v := Field(a, sep, x), Field(b, sep, y);
    FirstSeparator(a, x, sep);
    FirstSeparator(b, y, sep);
    assert |a| == |b|;
    assert u[..|a|] == a && v[..|b|] == b;
    assert u[|a| + 1..] == x && v[|b| + 1..] == y;
  }

  // So can a field of known length, whatever bytes it holds.
  lemma FixedFieldSplits(a: Bytes, x: Bytes, b: Bytes, y: Bytes, sep: int)
    requires Field(a, sep, x) == Field(b, sep, y) && |a| == |b|
    ensures a == b && x == y
  {
    var u, v := Field(a, sep, x), Field(b, sep, y);
    assert u[..|a|] == a && v[..|b|] == b;
    assert u[|a| + 1..] == x && v[|b| + 1..] == y;
  }

  // A field free of its separator can also be read off the back.
  lemma LastFieldSplits(x: Bytes, a: Bytes, y: Bytes, b: Bytes, sep: int)
    requires Field(x, sep, a) == Field(y, sep, b)
    requires sep !in a && sep !in b
    ensures a == b && x == y
  {
    var u, v := Field(x, sep, a), Field(y, sep, b);
    LastSeparator(x, a, sep);
    LastSeparator(y, b, sep);
    assert |x| == |y|;
    assert u[..|x|] == x && v[..|y|] == y;
    assert u[|x| + 1..] == a && v[|y| + 1..] == b;
  }

  lemma Utf8Around(x: string, sep: char, y: string)
    requires sep < 128 as char
    ensures Utf8(x + [sep] + y) == Field(Utf8(x), sep as int, Utf8(y))
  {
    Utf8OfAscii([sep]);
    Utf8Append(x + [sep], y);
    Utf8Append(x, [sep]);
  }

  // Text and number fields before a bar read back.
  lemma TextSplits(s: string, x: Bytes, t: string, y: Bytes)
    requires '|' !in s && '|' !in t && Field(Utf8(s), BAR, x) == Field(Utf8(t), BAR, y)
    ensures s == t && x == y
  {
    Utf8Bytes(s, BAR);
    Utf8Bytes(t, BAR);
    FieldSplits(Utf8(s), x, Utf8(t), y, BAR);
    Utf8Injective(s, t);
  }

  lemma NumberSplits(m: int, x: Bytes, n: int, y: Bytes)
    requires Field(Decimal(m), BAR, x) == Field(Decimal(n), BAR, y)
    ensures m == n && x == y
  {
    if BAR in Decimal(m) { DecimalBytes(m, BAR); }
    if BAR in Decimal(n) { DecimalBytes(n, BAR); }
    FieldSplits(Decimal(m), x, Decimal(n), y, BAR);
    DecimalInjective(m, n);
  }
}
