/** Strings with C escapes: the decoder, the grammar it accepts, and the printer it undoes. */
module Escape {
  import opened Words

  const BACKSLASH: byte := 92

  datatype Decoded = Text(bytes: seq<byte>) | Malformed

  // ---- Characters ----

  predicate Between(b: byte, lo: char, hi: char) { lo as int <= b <= hi as int }

  /** `isxdigit` in base 16 and `isodigit` in base 8. */
  predicate IsDigit(b: byte, base: int) {
    if base == 8 then Between(b, '0', '7')
    else Between(b, '0', '9') || Between(b, 'A', 'F') || Between(b, 'a', 'f')
  }

  function DigitValue(b: byte): int {
    if b >= 'a' as int then b - 'a' as int + 10
    else if b >= 'A' as int then b - 'A' as int + 10
    else b - '0' as int
  }

  predicate IsNamed(b: byte) {
    b in {'a' as int, 'b' as int, 'f' as int, 'n' as int, 'r' as int, 't' as int, 'v' as int,
          92, 39, 34, 63}
  }

  /** The byte a one-letter escape stands for; the last four stand for themselves. */
  function NamedValue(b: byte): byte {
    if b == 'a' as int then 7
    else if b == 'b' as int then 8
    else if b == 'f' as int then 12
    else if b == 'n' as int then 10
    else if b == 'r' as int then 13
    else if b == 't' as int then 9
    else if b == 'v' as int then 11
    else b
  }

  // ---- The recursive decoder ----

  /** The number of digits `s` starts with. */
  function Run(s: seq<byte>, base: int): (n: nat)
    ensures n <= |s| && (forall k :: 0 <= k < n ==> IsDigit(s[k], base))
    ensures n < |s| ==> !IsDigit(s[n], base)
  {
    if s == [] || !IsDigit(s[0], base) then 0 else 1 + Run(s[1..], base)
  }

  /** The number a string of digits spells. */
  function Numeral(digits: seq<byte>, base: int): int {
    if digits == [] then 0
    else Numeral(digits[..|digits| - 1], base) * base + DigitValue(digits[|digits| - 1])
  }

  function Prepend(b: byte, d: Decoded): Decoded {
    if d.Malformed? then Malformed else Text([b] + d.bytes)
  }

  function Decode(s: seq<byte>): Decoded
    decreases |s|
  {
    if s == [] then Text([])
    else if s[0] != BACKSLASH then Prepend(s[0], Decode(s[1..]))
    else if |s| == 1 then Malformed
    else if IsNamed(s[1]) then Prepend(NamedValue(s[1]), Decode(s[2..]))
    else if s[1] == 'x' as int then DecodeRun(s, 2, 16)
    else DecodeRun(s, 1, 8)
  }

  /** A numeric escape whose digits start at `from`. */
  function DecodeRun(s: seq<byte>, from: nat, base: int): Decoded
    requires 1 <= from <= |s|
    decreases |s|, 0
  {
    var n := Run(s[from..], base);
    if n == 0 then Malformed
    else Prepend(Byte(Numeral(s[from..from + n], base)), Decode(s[from + n..]))
  }

  // ---- The grammar ----

  datatype Token =
    | Plain(b: byte)
    | Named(b: byte)
    | Number(digits: seq<byte>, base: int)

  predicate WellFormed(t: Token) {
    match t
    case Plain(b) => b != BACKSLASH && b != 0
    case Named(b) => IsNamed(b)
    case Number(ds, base) =>
      ds != [] && base in {8, 16} && forall k :: 0 <= k < |ds| ==> IsDigit(ds[k], base)
  }

  function Spell(t: Token): seq<byte> {
    match t
    case Plain(b) => [b]
    case Named(b) => [BACKSLASH, b]
    case Number(ds, base) => (if base == 16 then [BACKSLASH, 'x' as int] else [BACKSLASH]) + ds
  }

  function Value(t: Token): byte {
    match t
    case Plain(b) => b
    case Named(b) => NamedValue(b)
    case Number(ds, base) => Byte(Numeral(ds, base))
  }

  /** A number takes every digit there is: `rest` does not start with one more. */
  predicate Ends(t: Token, rest: seq<byte>) {
    t.Number? && rest != [] ==> !IsDigit(rest[0], t.base)
  }

  function Spelling(ts: seq<Token>): seq<byte> {
    if ts == [] then [] else Spell(ts[0]) + Spelling(ts[1..])
  }

  function Values(ts: seq<Token>): seq<byte> {
    if ts == [] then [] else [Value(ts[0])] + Values(ts[1..])
  }

  predicate Phrase(ts: seq<Token>) {
    ts == [] || (WellFormed(ts[0]) && Ends(ts[0], Spelling(ts[1..])) && Phrase(ts[1..]))
  }

  // ---- What the letters and digits stand for ----

  lemma OneToken(t: Token)
    requires WellFormed(t)
    ensures Decode(Spell(t)) == Text([Value(t)])
  {
    hide Decode, Numeral, NamedValue, WellFormed;
    DecodeToken(t, []);
    assert Spell(t) + [] == Spell(t);
    EmptyDecodes();
  }

  /** Alert, backspace, form feed, newline, return, tab and vertical tab; the rest are themselves. */
  lemma LettersStandFor(i: nat)
    requires i < 11
    ensures Decode([92, [97, 98, 102, 110, 114, 116, 118, 92, 39, 34, 63][i]])
         == Text([[7, 8, 12, 10, 13, 9, 11, 92, 39, 34, 63][i]])
  {
    hide Decode;
    OneToken(Named([97, 98, 102, 110, 114, 116, 118, 92, 39, 34, 63][i]));
  }

  lemma OneDigit(d: byte, base: int)
    ensures Numeral([d], base) == DigitValue(d)
  {
    assert [d][..0] == [];
  }

  /** One hexadecimal digit of either case, and one octal digit. */
  lemma DigitsStandFor(i: nat)
    requires i < 16
    ensures Decode([92, 120, if i < 10 then 48 + i else 65 + i - 10]) == Text([i])
    ensures Decode([92, 120, if i < 10 then 48 + i else 97 + i - 10]) == Text([i])
    ensures i < 8 ==> Decode([92, 48 + i]) == Text([i])
  {
    hide Decode, Numeral;
    var upper: byte, lower: byte := if i < 10 then 48 + i else 65 + i - 10, if i < 10 then 48 + i else 97 + i - 10;
    OneDigit(upper, 16);
    OneDigit(lower, 16);
    OneToken(Number([upper], 16));
    OneToken(Number([lower], 16));
    assert [92, 120] + [upper] == [92, 120, upper] && [92, 120] + [lower] == [92, 120, lower];
    if i < 8 {
      OneDigit(48 + i, 8);
      OneToken(Number([48 + i], 8));
      assert [92] + [48 + i] == [92, 48 + i];
    }
  }

  // ---- The decoder accepts exactly the grammar ----

  lemma {:induction false} RunExact(ds: seq<byte>, rest: seq<byte>, base: int)
    requires forall k :: 0 <= k < |ds| ==> IsDigit(ds[k], base)
    requires rest != [] ==> !IsDigit(rest[0], base)
    ensures Run(ds + rest, base) == |ds|
  {
    if ds == [] {
      assert ds + rest == rest;
    } else {
      RunExact(ds[1..], rest, base);
      assert (ds + rest)[1..] == ds[1..] + rest;
    }
  }

  /** One token in front of any text. */
  lemma DecodeToken(t: Token, rest: seq<byte>)
    requires WellFormed(t) && Ends(t, rest)
    ensures Decode(Spell(t) + rest) == Prepend(Value(t), Decode(rest))
  {
    hide Numeral, Run, NamedValue, Prepend;
    var s := Spell(t) + rest;
    match t
    case Plain(b) => assert s[1..] == rest;
    case Named(b) => assert s[2..] == rest;
    case Number(ds, base) => DecodeNumber(ds, base, rest);
  }

  lemma NotNamed(b: byte)
    ensures IsDigit(b, 8) || b == 'x' as int ==> !IsNamed(b)
    ensures IsDigit(b, 8) ==> b != 'x' as int
  {
  }

  /** A backslash and no one-letter escape: the digits decide. */
  lemma IsNumeric(s: seq<byte>)
    requires |s| > 1 && s[0] == BACKSLASH && !IsNamed(s[1])
    ensures Decode(s) == if s[1] == 'x' as int then DecodeRun(s, 2, 16) else DecodeRun(s, 1, 8)
  {
    hide IsNamed, IsDigit, NamedValue, Prepend, DecodeRun;
  }

  lemma RunGives(s: seq<byte>, from: nat, ds: seq<byte>, base: int, rest: seq<byte>)
    requires 1 <= from <= |s| && s[from..] == ds + rest && ds != []
    requires (forall k :: 0 <= k < |ds| ==> IsDigit(ds[k], base)) && (rest != [] ==> !IsDigit(rest[0], base))
    ensures DecodeRun(s, from, base) == Prepend(Byte(Numeral(ds, base)), Decode(rest))
  {
    hide Numeral, Run, IsDigit, Decode, Prepend;
    RunExact(ds, rest, base);
    Halves(s, from, ds, rest);
  }

  lemma Halves(s: seq<byte>, from: nat, a: seq<byte>, b: seq<byte>)
    requires from <= |s| && s[from..] == a + b
    ensures s[from..from + |a|] == a && s[from + |a|..] == b
  {
    assert s[from..from + |a|] == s[from..][..|a|];
    assert s[from + |a|..] == s[from..][|a|..];
  }

  lemma DecodeNumber(ds: seq<byte>, base: int, rest: seq<byte>)
    requires WellFormed(Number(ds, base)) && Ends(Number(ds, base), rest)
    ensures Decode(Spell(Number(ds, base)) + rest) == Prepend(Byte(Numeral(ds, base)), Decode(rest))
  {
    hide Numeral, IsDigit, IsNamed, Decode, DecodeRun, Prepend;
    var s := Spell(Number(ds, base)) + rest;
    var from := if base == 16 then 2 else 1;
    assert s[1] == if base == 16 then 'x' as int else ds[0];
    NotNamed(s[1]);
    IsNumeric(s);
    assert s[from..] == ds + rest;
    RunGives(s, from, ds, base, rest);
  }

  lemma {:induction false} DecodePhrase(ts: seq<Token>)
    requires Phrase(ts)
    ensures Decode(Spelling(ts)) == Text(Values(ts))
  {
    if ts != [] {
      DecodeToken(ts[0], Spelling(ts[1..]));
      DecodePhrase(ts[1..]);
    }
  }

  lemma FirstNumber(s: seq<byte>, from: nat, base: int) returns (t: Token, rest: seq<byte>)
    requires base in {8, 16} && 1 <= from <= |s| && DecodeRun(s, from, base).Text?
    requires s[..from] == if base == 16 then [BACKSLASH, 'x' as int] else [BACKSLASH]
    ensures WellFormed(t) && Ends(t, rest) && s == Spell(t) + rest
    ensures DecodeRun(s, from, base) == Prepend(Value(t), Decode(rest)) && Decode(rest).Text? && |rest| < |s|
  {
    hide Numeral, Run, IsDigit, Decode;
    var n := Run(s[from..], base);
    var ds := s[from..][..n];
    t, rest := Number(ds, base), s[from..][n..];
    assert s[from..] == ds + rest;
    Halves(s, from, ds, rest);
    assert s == s[..from] + ds + rest;
  }

  /** The first token of a text that decodes. */
  lemma FirstToken(s: seq<byte>) returns (t: Token, rest: seq<byte>)
    requires 0 !in s && s != [] && Decode(s).Text?
    ensures WellFormed(t) && Ends(t, rest) && s == Spell(t) + rest
    ensures Decode(s) == Prepend(Value(t), Decode(rest)) && Decode(rest).Text? && |rest| < |s|
  {
    hide Numeral, DecodeRun, IsNamed, NamedValue;
    if s[0] != BACKSLASH {
      t, rest := Plain(s[0]), s[1..];
      assert s == [s[0]] + s[1..];
    } else if IsNamed(s[1]) {
      t, rest := Named(s[1]), s[2..];
      assert s == [s[0], s[1]] + s[2..];
    } else {
      IsNumeric(s);
      hide Decode;
      var x := s[1] == 'x' as int;
      assert s[..if x then 2 else 1] == if x then [s[0], s[1]] else [s[0]];
      t, rest := FirstNumber(s, if x then 2 else 1, if x then 16 else 8);
    }
  }

  lemma {:induction false} Parse(s: seq<byte>) returns (ts: seq<Token>)
    requires 0 !in s && Decode(s).Text?
    ensures Phrase(ts) && Spelling(ts) == s
    decreases |s|
  {
    if s == [] {
      ts := [];
    } else {
      var t, rest := FirstToken(s);
      var more := Parse(rest);
      ts := [t] + more;
      assert ts[1..] == more;
    }
  }

  /** A text decodes to `v` exactly when it is spelled by tokens of those values; so decoding fails
      exactly on the texts that no tokens spell. */
  lemma DecodesIffSpelled(s: seq<byte>, v: seq<byte>)
    requires 0 !in s
    ensures Decode(s) == Text(v) <==> exists ts :: Phrase(ts) && Spelling(ts) == s && Values(ts) == v
    ensures Decode(s) == Malformed <==> forall ts :: Phrase(ts) ==> Spelling(ts) != s
  {
    forall ts | Phrase(ts)
      ensures Decode(Spelling(ts)) == Text(Values(ts))
    {
      DecodePhrase(ts);
    }
    if Decode(s).Text? {
      var ts := Parse(s);
    }
  }

  // ---- Printing ----

  function HexDigit(n: int): byte
    requires 0 <= n < 16
  {
    if n < 10 then '0' as int + n else 'a' as int + n - 10
  }

  /** Every byte as a backslash, an x and two hexadecimal digits. */
  function Printed(bytes: seq<byte>): seq<byte> {
    if bytes == [] then []
    else [BACKSLASH, 'x' as int, HexDigit(bytes[0] / 16), HexDigit(bytes[0] % 16)] + Printed(bytes[1..])
  }

  lemma PrintedStart(bytes: seq<byte>)
    ensures Printed(bytes) != [] ==> Printed(bytes)[0] == BACKSLASH
  {
  }

  lemma OnePrinted(b: byte, rest: seq<byte>)
    requires rest != [] ==> rest[0] == BACKSLASH
    ensures var t := Number([HexDigit(b / 16), HexDigit(b % 16)], 16);
      && WellFormed(t) && Ends(t, rest) && Value(t) == b && 0 !in Spell(t)
      && Spell(t) + rest == [BACKSLASH, 'x' as int, HexDigit(b / 16), HexDigit(b % 16)] + rest
  {
    hide Numeral;
    TwoDigits(b);
  }

  lemma {:induction false} DecodeUndoesPrinting(bytes: seq<byte>)
    ensures Decode(Printed(bytes)) == Text(bytes) && 0 !in Printed(bytes)
  {
    hide Decode, Numeral, WellFormed, Ends, Value, HexDigit;
    if bytes == [] {
      EmptyDecodes();
    } else {
      var b, rest := bytes[0], Printed(bytes[1..]);
      DecodeUndoesPrinting(bytes[1..]);
      PrintedStart(bytes[1..]);
      OnePrinted(b, rest);
      DecodeToken(Number([HexDigit(b / 16), HexDigit(b % 16)], 16), rest);
      assert [b] + bytes[1..] == bytes;
    }
  }

  lemma EmptyDecodes()
    ensures Decode([]) == Text([])
  {
  }

  lemma TwoDigits(b: byte)
    ensures Numeral([HexDigit(b / 16), HexDigit(b % 16)], 16) == b
  {
    var ds: seq<byte> := [HexDigit(b / 16), HexDigit(b % 16)];
    assert ds[..1] == [ds[0]] && ds[..1][..0] == [];
    assert Numeral([ds[0]], 16) == b / 16;
  }

  // ---- The decoder as it runs ----

  /** The text before the terminator. */
  ghost function CString(src: seq<byte>): (s: seq<byte>)
    requires 0 in src
    ensures |s| < |src| && s == src[..|s|] && src[|s|] == 0 && 0 !in s
  {
    if src[0] == 0 then [] else [src[0]] + CString(src[1..])
  }

  method StrLen(src: array<byte>) returns (n: nat)
    requires 0 in src[..]
    ensures n < src.Length && src[..n] == CString(src[..])
  {
    ghost var s := CString(src[..]);
    n := 0;
    while src[n] != 0
      invariant n <= |s|
      decreases |s| - n
    {
      n := n + 1;
    }
  }

  /** One more digit, in a byte. */
  lemma NextDigit(digits: seq<byte>, d: byte, base: int)
    ensures Byte(Byte(Byte(Numeral(digits, base)) * base) + DigitValue(d)) == Byte(Numeral(digits + [d], base))
  {
    assert (digits + [d])[..|digits|] == digits;
    var a := Numeral(digits, base);
    var q := a / 256;
    assert a == 256 * q + Byte(a);
    assert a * base == 256 * (q * base) + Byte(a) * base;
    ModAdd(Byte(a) * base, q * base);
    ModSum(Byte(a) * base, DigitValue(d));
    ModAdd(Byte(a) * base + DigitValue(d), q * base);
  }

  lemma ModAdd(x: int, q: int)
    ensures Byte(256 * q + x) == Byte(x)
  {
  }

  lemma ModSum(x: int, y: int)
    ensures Byte(Byte(x) + y) == Byte(x + y)
  {
  }

  // ---- One escape at position `i` of a text ----

  lemma AtPlain(text: seq<byte>, i: nat)
    requires i < |text| && text[i] != BACKSLASH
    ensures Decode(text[i..]) == Prepend(text[i], Decode(text[i + 1..]))
  {
    assert text[i..][1..] == text[i + 1..];
  }

  lemma AtNamed(text: seq<byte>, i: nat)
    requires i + 1 < |text| && text[i] == BACKSLASH && IsNamed(text[i + 1])
    ensures Decode(text[i..]) == Prepend(NamedValue(text[i + 1]), Decode(text[i + 2..]))
  {
    assert text[i..][2..] == text[i + 2..];
  }

  /** The escape at `i` is numeric, with its digits, if any, from `from`. */
  predicate NumericAt(text: seq<byte>, i: nat, from: nat, base: int) {
    i < |text| && text[i] == BACKSLASH
    && if base == 16 then from == i + 2 <= |text| && text[i + 1] == 'x' as int
       else base == 8 && from == i + 1 && (from < |text| ==> !IsNamed(text[from]) && text[from] != 'x' as int)
  }

  lemma AtNumber(text: seq<byte>, i: nat, from: nat, j: nat, base: int)
    requires NumericAt(text, i, from, base) && from < j <= |text|
    requires forall k :: from <= k < j ==> IsDigit(text[k], base)
    requires j < |text| ==> !IsDigit(text[j], base)
    ensures Decode(text[i..]) == Prepend(Byte(Numeral(text[from..j], base)), Decode(text[j..]))
  {
    hide Numeral, IsDigit, IsNamed, Decode, DecodeRun, Prepend;
    var s := text[i..];
    assert s[1] == text[i + 1];
    NotNamed(s[1]);
    IsNumeric(s);
    assert s[from - i..] == text[from..] == text[from..j] + text[j..];
    RunGives(s, from - i, text[from..j], base, text[j..]);
  }

  lemma AtBad(text: seq<byte>, i: nat, from: nat, base: int)
    requires NumericAt(text, i, from, base) && (from < |text| ==> !IsDigit(text[from], base))
    ensures Decode(text[i..]) == Malformed
  {
    var s := text[i..];
    assert s[from - i..] == text[from..];
  }

  /** The numeric escape at `at`, with its digits from `from` on: `out[k]` keeps their number modulo
      256, and `j` is past the last. Without a digit the escape is malformed. */
  method Numeric(src: array<byte>, ghost at: nat, from: nat, base: int, out: array<byte>, k: nat)
    returns (ok: bool, j: nat)
    requires src != out && 0 in src[..] && k < out.Length
    requires NumericAt(CString(src[..]), at, from, base)
    modifies out
    ensures ok ==> from < j <= |CString(src[..])| && out[..] == old(out[..])[k := out[k]]
    ensures Decode(CString(src[..])[at..])
      == if ok then Prepend(out[k], Decode(CString(src[..])[j..])) else Malformed
  {
    hide Numeral, CString, DigitValue, Decode, Prepend;
    ghost var text := CString(src[..]);
    assert forall m :: from <= m < |text| ==> src[m] == text[m];
    j := from;
    if !IsDigit(src[j], base) {
      AtBad(text, at, from, base);
      return false, j;
    }
    out[k] := 0;
    NoDigits(base);
    assert text[from..j] == [];
    while IsDigit(src[j], base)
      invariant from <= j <= |text| && (j == from ==> IsDigit(src[j], base))
      invariant forall m :: from <= m < j ==> IsDigit(text[m], base)
      invariant out[..] == old(out[..])[k := Byte(Numeral(text[from..j], base))]
      decreases |text| - j
    {
      NextDigit(text[from..j], src[j], base);
      assert text[from..j] + [src[j]] == text[from..j + 1];
      var shifted: int := out[k] * base;
      out[k] := Byte(shifted);
      var sum: int := out[k] + DigitValue(src[j]);
      out[k] := Byte(sum);
      j := j + 1;
    }
    AtNumber(text, at, from, j, base);
    ok := true;
  }

  lemma NoDigits(base: int)
    ensures Numeral([], base) == 0
  {
  }

  /** Decode into a new buffer of `n + 1` bytes; a missing string and a malformed escape give null. */
  method DerefString(src: array?<byte>) returns (dst: array?<byte>)
    requires src != null ==> 0 in src[..]
    ensures src == null ==> dst == null
    ensures src != null ==> var text := CString(src[..]);
      match Decode(text)
      case Malformed => dst == null
      case Text(bytes) =>
        dst != null && fresh(dst) && dst.Length == |text| + 1
        && |bytes| <= |text| && dst[..|bytes|] == bytes && dst[|bytes|] == 0
  {
    hide Decode, Numeral, CString, Prepend, PrependAll, DigitValue, NamedValue, IsNamed;
    if src == null {
      return null;
    }
    var n := StrLen(src);
    ghost var text := CString(src[..]);
    var out := new byte[n + 1];
    var i, k := 0, 0;
    Start(text);
    assert out[..k] == [] && text[i..] == text;
    while src[i] != 0
      invariant k <= i <= n
      invariant Decode(text) == PrependAll(out[..k], Decode(text[i..]))
      decreases n - i
    {
      ghost var at, done := i, out[..k];
      assert src[i] == text[i];
      if src[i] != BACKSLASH {
        AtPlain(text, at);
        out[k] := src[i];
      } else {
        i := i + 1;
        assert i < n ==> src[i] == text[i];
        if IsNamed(src[i]) {
          NamedIsNotNul(src[i]);
          AtNamed(text, at);
          out[k] := NamedValue(src[i]);
        } else if src[i] == 'x' as int {
          i := i + 1;
          var ok, j := Numeric(src, at, i, 16, out, k);
          if !ok {
            Failed(done, text);
            return null;
          }
          i := j - 1;
        } else {
          var ok, j := Numeric(src, at, i, 8, out, k);
          if !ok {
            Failed(done, text);
            return null;
          }
          i := j - 1;
        }
      }
      assert out[..k] == done;
      k := k + 1;
      i := i + 1;
      assert out[..k] == done + [out[k - 1]];
      PrependMore(done, out[k - 1], Decode(text[i..]));
    }
    out[k] := 0;
    Finish(out[..k], text, i);
    dst := out;
  }

  ghost function PrependAll(bs: seq<byte>, d: Decoded): Decoded {
    if d.Malformed? then Malformed else Text(bs + d.bytes)
  }

  lemma PrependMore(bs: seq<byte>, b: byte, d: Decoded)
    ensures PrependAll(bs, Prepend(b, d)) == PrependAll(bs + [b], d)
  {
    if d.Text? {
      assert bs + ([b] + d.bytes) == bs + [b] + d.bytes;
    }
  }

  lemma Start(text: seq<byte>)
    ensures PrependAll([], Decode(text)) == Decode(text)
    ensures text[0..] == text
  {
  }

  lemma Failed(done: seq<byte>, text: seq<byte>)
    ensures PrependAll(done, Malformed) == Malformed
  {
  }

  lemma Finish(done: seq<byte>, text: seq<byte>, i: nat)
    requires i == |text|
    ensures PrependAll(done, Decode(text[i..])) == Text(done)
  {
  }

  lemma NamedIsNotNul(b: byte)
    ensures IsNamed(b) ==> b != 0
  {
  }
}
