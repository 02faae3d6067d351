/**
 Ledger cursors (internal/app/wallets.go): the text "seq:" and a number in the URL-safe base64 of
 section 5 of RFC 4648, without padding, as Go's RawURLEncoding writes and reads it.
 */
module Cursor {
  import opened Basics
  import MoneyText

  type Byte = b: nat | b < 256

  function Symbol(v: nat): char
    requires v < 64
  {
    if v < 26 then ('A' as int + v) as char
    else if v < 52 then ('a' as int + (v - 26)) as char
    else if v < 62 then ('0' as int + (v - 52)) as char
    else if v == 62 then '-'
    else '_'
  }

  function SymbolValue(c: char): (r: Option<nat>)
    ensures r.Some? ==> r.value < 64
  {
    if 'A' <= c <= 'Z' then Some(c as int - 'A' as int)
    else if 'a' <= c <= 'z' then Some(c as int - 'a' as int + 26)
    else if '0' <= c <= '9' then Some(c as int - '0' as int + 52)
    else if c == '-' then Some(62)
    else if c == '_' then Some(63)
    else None
  }

  function Encode(bytes: seq<Byte>): string {
    if |bytes| == 0 then ""
    else if |bytes| == 1 then [Symbol(bytes[0] / 4), Symbol(bytes[0] % 4 * 16)]
    else if |bytes| == 2 then
      [Symbol(bytes[0] / 4), Symbol(bytes[0] % 4 * 16 + bytes[1] / 16), Symbol(bytes[1] % 16 * 4)]
    else
      [Symbol(bytes[0] / 4), Symbol(bytes[0] % 4 * 16 + bytes[1] / 16), Symbol(bytes[1] % 16 * 4 + bytes[2] / 64), Symbol(bytes[2] % 64)]
      + Encode(bytes[3..])
  }

  /** Line breaks are skipped wherever they stand. */
  function WithoutBreaks(s: string): string {
    if s == "" then ""
    else (if s[0] == '\r' || s[0] == '\n' then "" else [s[0]]) + WithoutBreaks(s[1..])
  }

  /** Left-over low bits of the last symbol are ignored; a single left-over symbol is an error. */
  function DecodeClean(s: string): Option<seq<Byte>> {
    if s == "" then Some([])
    else if |s| == 1 then None
    else
      var a, b := SymbolValue(s[0]), SymbolValue(s[1]);
      if a.None? || b.None? then None
      else if |s| == 2 then Some([a.value * 4 + b.value / 16])
      else
        var c := SymbolValue(s[2]);
        if c.None? then None
        else if |s| == 3 then Some([a.value * 4 + b.value / 16, b.value % 16 * 16 + c.value / 4])
        else
          var d := SymbolValue(s[3]);
          if d.None? then None
          else
            var rest := DecodeClean(s[4..]);
            if rest.None? then None
            else Some([a.value * 4 + b.value / 16, b.value % 16 * 16 + c.value / 4, c.value % 4 * 64 + d.value] + rest.value)
  }

  function Decode(s: string): Option<seq<Byte>> {
    DecodeClean(WithoutBreaks(s))
  }

  lemma SymbolRoundTrip(v: nat)
    requires v < 64
    ensures SymbolValue(Symbol(v)) == Some(v) && Symbol(v) != '\r' && Symbol(v) != '\n'
  {}

  predicate Clean(s: string) {
    forall i :: 0 <= i < |s| ==> s[i] != '\r' && s[i] != '\n'
  }

  lemma {:induction false} CleanPrefix(p: string, t: string)
    requires Clean(p)
    ensures WithoutBreaks(p + t) == p + WithoutBreaks(t)
  {
    if p == "" {
      assert p + t == t;
    } else {
      assert (p + t)[1..] == p[1..] + t;
      CleanPrefix(p[1..], t);
      assert [p[0]] + (p[1..] + WithoutBreaks(t)) == p + WithoutBreaks(t);
    }
  }

  /** The sextets of one, two or three bytes. */
  function Sextets(bytes: seq<Byte>): (v: seq<nat>)
    requires 1 <= |bytes| <= 3
    ensures |v| == |bytes| + 1 && forall i :: 0 <= i < |v| ==> v[i] < 64
  {
    if |bytes| == 1 then [bytes[0] / 4, bytes[0] % 4 * 16]
    else if |bytes| == 2 then [bytes[0] / 4, bytes[0] % 4 * 16 + bytes[1] / 16, bytes[1] % 16 * 4]
    else [bytes[0] / 4, bytes[0] % 4 * 16 + bytes[1] / 16, bytes[1] % 16 * 4 + bytes[2] / 64, bytes[2] % 64]
  }

  lemma SextetsRegroup(bytes: seq<Byte>)
    requires 1 <= |bytes| <= 3
    ensures var v := Sextets(bytes);
            && v[0] * 4 + v[1] / 16 == bytes[0]
            && (|bytes| >= 2 ==> v[1] % 16 * 16 + v[2] / 4 == bytes[1])
            && (|bytes| == 3 ==> v[2] % 4 * 64 + v[3] == bytes[2])
  {}

  lemma SymbolsReadBack(v: seq<nat>)
    requires forall i :: 0 <= i < |v| ==> v[i] < 64
    ensures forall i :: 0 <= i < |v| ==> SymbolValue(Symbol(v[i])) == Some(v[i]) && Symbol(v[i]) != '\r' && Symbol(v[i]) != '\n'
  {
    forall i | 0 <= i < |v| ensures SymbolValue(Symbol(v[i])) == Some(v[i]) && Symbol(v[i]) != '\r' && Symbol(v[i]) != '\n' {
      SymbolRoundTrip(v[i]);
    }
  }

  lemma {:induction false} EncodedIsClean(bytes: seq<Byte>)
    ensures WithoutBreaks(Encode(bytes)) == Encode(bytes)
  {
    hide Symbol, SymbolValue;
    if bytes != [] {
      var s := Encode(bytes);
      var head := if |bytes| <= 3 then bytes else bytes[..3];
      var v := Sextets(head);
      SymbolsReadBack(v);
      assert forall i :: 0 <= i < |v| ==> s[i] == Symbol(v[i]);
      if |bytes| < 3 {
        CleanPrefix(s, "");
        assert s + "" == s;
      } else {
        EncodedIsClean(bytes[3..]);
        CleanPrefix(s[..4], Encode(bytes[3..]));
        assert s == s[..4] + Encode(bytes[3..]);
      }
    }
  }

  lemma {:induction false} DecodeEncoded(bytes: seq<Byte>)
    ensures DecodeClean(Encode(bytes)) == Some(bytes)
  {
    hide Symbol, SymbolValue;
    if bytes != [] {
      var s := Encode(bytes);
      var head := if |bytes| <= 3 then bytes else bytes[..3];
      var v := Sextets(head);
      SymbolsReadBack(v);
      SextetsRegroup(head);
      assert forall i :: 0 <= i < |v| ==> s[i] == Symbol(v[i]);
      if |bytes| < 3 {
        assert bytes == if |bytes| == 1 then [bytes[0]] else [bytes[0], bytes[1]];
      } else {
        assert s[4..] == Encode(bytes[3..]);
        DecodeEncoded(bytes[3..]);
        assert bytes == [bytes[0], bytes[1], bytes[2]] + bytes[3..];
      }
    }
  }

  /** Decoding undoes encoding, for any bytes. */
  lemma Base64RoundTrip(bytes: seq<Byte>)
    ensures Decode(Encode(bytes)) == Some(bytes)
  {
    EncodedIsClean(bytes);
    DecodeEncoded(bytes);
  }

  // ---- cursors ----

  predicate Ascii(s: string) {
    forall i :: 0 <= i < |s| ==> s[i] as int < 128
  }

  function BytesOf(s: string): seq<Byte>
    requires Ascii(s)
  {
    seq(|s|, i requires 0 <= i < |s| => s[i] as int)
  }

  function TextOf(bytes: seq<Byte>): string {
    seq(|bytes|, i requires 0 <= i < |bytes| => bytes[i] as char)
  }

  const PREFIX: string := "seq:"

  lemma DigitsAreAscii(s: string)
    requires MoneyText.AllDigits(s)
    ensures Ascii(PREFIX + s)
  {}

  function EncodeCursor(seqNo: nat): string {
    DigitsAreAscii(MoneyText.Decimal(seqNo));
    Encode(BytesOf(PREFIX + MoneyText.Decimal(seqNo)))
  }

  /** strconv.ParseInt(s, 10, 64). */
  function ParseInt64(s: string): Option<Int64> {
    if s == "" then None
    else
      var digits := if s[0] == '+' || s[0] == '-' then s[1..] else s;
      if digits == "" || !MoneyText.AllDigits(digits) then None
      else
        var v := if s[0] == '-' then 0 - MoneyText.Value(digits) else MoneyText.Value(digits);
        if FitsInt64(v) then Some(v) else None
  }

  /** An empty cursor means the beginning. */
  function DecodeCursor(c: string): (r: Result<nat>)
    ensures r.Err? ==> r.error == InvalidCursor
  {
    if c == "" then Ok(0)
    else
      var raw := Decode(c);
      if raw.None? || |raw.value| < 5 || TextOf(raw.value[..4]) != PREFIX then Err(InvalidCursor)
      else
        var n := ParseInt64(TextOf(raw.value[4..]));
        if n.None? || n.value < 0 then Err(InvalidCursor) else Ok(n.value)
  }

  lemma TextRoundTrip(s: string)
    requires Ascii(s)
    ensures TextOf(BytesOf(s)) == s
  {}

  lemma EncodedIsNotEmpty(bytes: seq<Byte>)
    requires bytes != []
    ensures Encode(bytes) != ""
  {}

  /** Every cursor handed out reads back as the position it was made for, and no two positions share one. */
  lemma CursorRoundTrip(n: nat)
    requires n <= MAX_INT64
    ensures EncodeCursor(n) != "" && DecodeCursor(EncodeCursor(n)) == Ok(n)
  {
    hide Encode, Decode, MoneyText.Decimal;
    var digits := MoneyText.Decimal(n);
    var text := PREFIX + digits;
    DigitsAreAscii(digits);
    var bytes := BytesOf(text);
    Base64RoundTrip(bytes);
    EncodedIsNotEmpty(bytes);
    TextRoundTrip(text);
    assert TextOf(bytes[..4]) == text[..4] == PREFIX;
    assert TextOf(bytes[4..]) == text[4..] == digits;
    assert MoneyText.IsDigit(digits[0]);
  }
}
