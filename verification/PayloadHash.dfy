/**
 The canonical encoding behind idempotency (internal/app/hash.go) and the inbox hash
 (internal/adapters/sqs/consumer.go). A SHA-256 digest is represented by the text it is
 computed from; collisions of SHA-256 are not part of the model.
 */
module PayloadHash {
  import opened Basics
  import MoneyText
  import opened Wagering

  function HexDigit(n: nat): char
    requires n < 16
  {
    "0123456789abcdef"[n]
  }

  /** One character inside a JSON string, as encoding/json's Marshal writes it (section 7 of RFC 8259). */
  function Escape(c: char): string {
    if c == '"' || c == '\\' then ['\\', c]
    else if c == '\U{0008}' then "\\b"
    else if c == '\U{000C}' then "\\f"
    else if c == '\n' then "\\n"
    else if c == '\r' then "\\r"
    else if c == '\t' then "\\t"
    else if c < ' ' || c == '<' || c == '>' || c == '&' then
      ['\\', 'u', '0', '0', HexDigit(c as int / 16), HexDigit(c as int % 16)]
    else if c == '\U{2028}' then "\\u2028"
    else if c == '\U{2029}' then "\\u2029"
    else [c]
  }

  function EscapeAll(s: string): string {
    if s == "" then "" else Escape(s[0]) + EscapeAll(s[1..])
  }

  function Quote(s: string): string {
    "\"" + EscapeAll(s) + "\""
  }

  function FixedHex(n: nat, width: nat): (s: string)
    ensures |s| == width
  {
    if width == 0 then "" else FixedHex(n / 16, width - 1) + [HexDigit(n % 16)]
  }

  /** uuid.UUID.String: 32 hexadecimal digits grouped 8-4-4-4-12. */
  function UuidText(id: Uuid): string {
    var h := FixedHex(id, 32);
    h[..8] + "-" + h[8..12] + "-" + h[12..16] + "-" + h[16..20] + "-" + h[20..]
  }

  function KindText(k: Kind): string {
    match k
    case Opening => "OPENING"
    case Bet => "BET"
    case Win => "WIN"
    case Loss => "LOSS"
    case Refund => "REFUND"
    case Rollback => "ROLLBACK"
  }

  const LABELS_BEFORE: seq<string> :=
    ["{\"externalTransactionId\":", ",\"gameId\":", ",\"kind\":", ",\"money\":{\"amount\":", ",\"currency\":",
     "},\"playerId\":", ",\"providerId\":"]
  const LABEL_REFERENCE: string := ",\"referenceExternalTransactionId\":"
  const LABELS_AFTER: seq<string> := [",\"roundId\":", ",\"walletId\":"]

  /** The keys in lexicographic order, each with the text before its value; the reference only when present. */
  function Labels(withReference: bool): seq<string> {
    LABELS_BEFORE + (if withReference then [LABEL_REFERENCE] else []) + LABELS_AFTER
  }

  function Values(r: ExternalRequest): seq<string> {
    [r.externalId, r.gameId, KindText(r.kind), MoneyText.Amount(r.money.minor), r.money.currency,
     UuidText(r.playerId), r.providerId]
    + (if r.reference != "" then [r.reference] else [])
    + [r.roundId, UuidText(r.walletId)]
  }

  function Render(labels: seq<string>, values: seq<string>): string
    requires |labels| == |values|
  {
    if labels == [] then "}" else labels[0] + Quote(values[0]) + Render(labels[1..], values[1..])
  }

  /** The canonical JSON text that PayloadHash digests. */
  function Preimage(r: ExternalRequest): (s: string)
    ensures s != ""
  {
    Render(Labels(r.reference != ""), Values(r))
  }

  function InboxPreimage(r: ExternalRequest, key: string): string {
    Preimage(r) + "|" + key
  }

  lemma HexIsInjective(a: nat, b: nat)
    requires a < 16 && b < 16 && HexDigit(a) == HexDigit(b)
    ensures a == b
  {}

  lemma EscapeIsInjective(c: char, d: char)
    requires Escape(c) == Escape(d)
    ensures c == d
  {
    assert |Escape(c)| == |Escape(d)|;
    if |Escape(c)| == 6 {
      assert Escape(c)[2] == Escape(d)[2] && Escape(c)[4] == Escape(d)[4] && Escape(c)[5] == Escape(d)[5];
      if Escape(c)[2] == '0' {
        HexIsInjective(c as int / 16, d as int / 16);
        HexIsInjective(c as int % 16, d as int % 16);
      }
    } else {
      var last := |Escape(c)| - 1;
      assert Escape(c)[last] == Escape(d)[last];
    }
  }

  /** How long the escape at the front of a text is. */
  function EscapeLength(s: string): nat
    requires s != "" && (s[0] == '\\' ==> |s| > 1)
  {
    if s[0] != '\\' then 1 else if s[1] == 'u' then 6 else 2
  }

  lemma EscapeTellsItsLength(c: char, x: string)
    ensures var s := Escape(c) + x; s[0] != '"' && (s[0] == '\\' ==> |s| > 1) && EscapeLength(s) == |Escape(c)|
  {
    var s := Escape(c) + x;
    assert s[0] == Escape(c)[0];
    if |Escape(c)| > 1 {
      assert s[1] == Escape(c)[1];
    }
  }

  lemma CancelPrefix(p: string, x: string, y: string)
    requires p + x == p + y
    ensures x == y
  {
    assert x == (p + x)[|p|..];
    assert y == (p + y)[|p|..];
  }

  /** Escapes are prefix-free: the text tells where one ends and which character it is. */
  lemma EscapeIsPrefixFree(c: char, d: char, x: string, y: string)
    requires Escape(c) + x == Escape(d) + y
    ensures c == d && x == y
  {
    EscapeTellsItsLength(c, x);
    EscapeTellsItsLength(d, y);
    assert Escape(c) == (Escape(c) + x)[..|Escape(c)|];
    assert Escape(d) == (Escape(d) + y)[..|Escape(d)|];
    EscapeIsInjective(c, d);
    CancelPrefix(Escape(c), x, y);
  }

  lemma Regroup(a: string, b: string, c: string)
    ensures (a + b) + c == a + (b + c)
  {}

  function Terminated(s: string, rest: string): string {
    EscapeAll(s) + ("\"" + rest)
  }

  lemma TerminatedUnfolds(s: string, rest: string)
    ensures s == "" ==> Terminated(s, rest) == "\"" + rest
    ensures s != "" ==> Terminated(s, rest) == Escape(s[0]) + Terminated(s[1..], rest)
  {
    if s != "" {
      Regroup(Escape(s[0]), EscapeAll(s[1..]), "\"" + rest);
    }
  }

  /** A quoted string followed by anything can be read back in one way. */
  lemma {:induction false} TerminatedIsInjective(s: string, t: string, x: string, y: string)
    requires Terminated(s, x) == Terminated(t, y)
    ensures s == t && x == y
  {
    TerminatedUnfolds(s, x);
    TerminatedUnfolds(t, y);
    if s != "" {
      EscapeTellsItsLength(s[0], Terminated(s[1..], x));
    }
    if t != "" {
      EscapeTellsItsLength(t[0], Terminated(t[1..], y));
    }
    if s == "" {
      assert t == "";
      CancelPrefix("\"", x, y);
    } else {
      EscapeIsPrefixFree(s[0], t[0], Terminated(s[1..], x), Terminated(t[1..], y));
      TerminatedIsInjective(s[1..], t[1..], x, y);
      assert [s[0]] + s[1..] == s && [t[0]] + t[1..] == t;
    }
  }

  lemma QuoteIsDelimited(before: string, s: string, t: string, x: string, y: string)
    requires before + Quote(s) + x == before + Quote(t) + y
    ensures s == t && x == y
  {
    QuoteThen(before, s, x);
    QuoteThen(before, t, y);
    CancelPrefix(before, "\"" + Terminated(s, x), "\"" + Terminated(t, y));
    CancelPrefix("\"", Terminated(s, x), Terminated(t, y));
    TerminatedIsInjective(s, t, x, y);
  }

  lemma QuoteThen(before: string, s: string, x: string)
    ensures before + Quote(s) + x == before + ("\"" + Terminated(s, x))
  {
    Regroup(before, Quote(s), x);
    Regroup("\"" + EscapeAll(s), "\"", x);
    Regroup("\"", EscapeAll(s), "\"" + x);
  }

  /** Fields under common labels can be peeled off one by one. */
  lemma {:induction false} PeelFields(common: seq<string>, l1: seq<string>, l2: seq<string>,
                                      v: seq<string>, w: seq<string>, x: string, y: string)
    requires |v| == |common| + |l1| && |w| == |common| + |l2|
    requires Render(common + l1, v) + x == Render(common + l2, w) + y
    ensures v[..|common|] == w[..|common|]
    ensures Render(l1, v[|common|..]) + x == Render(l2, w[|common|..]) + y
  {
    if common == [] {
      assert common + l1 == l1 && common + l2 == l2 && v[0..] == v && w[0..] == w;
    } else {
      var rest := common[1..];
      assert (common + l1)[1..] == rest + l1 && (common + l2)[1..] == rest + l2;
      var rv, rw := Render(rest + l1, v[1..]), Render(rest + l2, w[1..]);
      Regroup(common[0] + Quote(v[0]), rv, x);
      Regroup(common[0] + Quote(w[0]), rw, y);
      QuoteIsDelimited(common[0], v[0], w[0], rv + x, rw + y);
      PeelFields(rest, l1, l2, v[1..], w[1..], x, y);
      PeelOne(v, w, |common|);
    }
  }

  lemma PeelOne(v: seq<string>, w: seq<string>, n: nat)
    requires 1 <= n <= |v| && n <= |w| && v[0] == w[0] && v[1..][..n - 1] == w[1..][..n - 1]
    ensures v[..n] == w[..n]
    ensures v[1..][n - 1..] == v[n..] && w[1..][n - 1..] == w[n..]
  {
    assert v[..n] == [v[0]] + v[1..][..n - 1];
    assert w[..n] == [w[0]] + w[1..][..n - 1];
  }

  lemma {:induction false} FixedHexIsInjective(a: nat, b: nat, width: nat, limit: nat)
    requires limit == PowerOf16(width) && a < limit && b < limit
    requires FixedHex(a, width) == FixedHex(b, width)
    ensures a == b
  {
    if width > 0 {
      var s, t := FixedHex(a, width), FixedHex(b, width);
      assert s[..width - 1] == FixedHex(a / 16, width - 1) && t[..width - 1] == FixedHex(b / 16, width - 1);
      assert s[width - 1] == HexDigit(a % 16) && t[width - 1] == HexDigit(b % 16);
      HexIsInjective(a % 16, b % 16);
      FixedHexIsInjective(a / 16, b / 16, width - 1, limit / 16);
    }
  }

  function PowerOf16(n: nat): nat {
    if n == 0 then 1 else 16 * PowerOf16(n - 1)
  }

  lemma PowerOf16At32()
    ensures PowerOf16(32) == UUID_LIMIT
  {
    assert PowerOf16(8) == 0x1_0000_0000;
    assert PowerOf16(16) == 0x1_0000_0000_0000_0000;
    assert PowerOf16(24) == 0x1_0000_0000_0000_0000_0000_0000;
  }

  lemma UuidTextIsInjective(a: Uuid, b: Uuid)
    requires UuidText(a) == UuidText(b)
    ensures a == b
  {
    var s, t := UuidText(a), UuidText(b);
    var g, h := FixedHex(a, 32), FixedHex(b, 32);
    assert s[..8] == g[..8] && t[..8] == h[..8];
    assert s[9..13] == g[8..12] && t[9..13] == h[8..12];
    assert s[14..18] == g[12..16] && t[14..18] == h[12..16];
    assert s[19..23] == g[16..20] && t[19..23] == h[16..20];
    assert s[24..] == g[20..] && t[24..] == h[20..];
    assert g == g[..8] + g[8..12] + g[12..16] + g[16..20] + g[20..];
    assert h == h[..8] + h[8..12] + h[12..16] + h[16..20] + h[20..];
    PowerOf16At32();
    FixedHexIsInjective(a, b, 32, UUID_LIMIT);
  }

  lemma KindTextIsInjective(a: Kind, b: Kind)
    requires KindText(a) == KindText(b)
    ensures a == b
  {
    assert KindText(a)[0] == KindText(b)[0] && |KindText(a)| == |KindText(b)|;
  }

  lemma TailsDiffer(v: seq<string>, w: seq<string>, x: string, y: string)
    requires |v| == 3 && |w| == 2
    ensures Render([LABEL_REFERENCE] + LABELS_AFTER, v) + x != Render(LABELS_AFTER, w) + y
  {
    var s := Render([LABEL_REFERENCE] + LABELS_AFTER, v) + x;
    var t := Render(LABELS_AFTER, w) + y;
    assert s[3] == LABEL_REFERENCE[3] == 'e';
    assert t[3] == LABELS_AFTER[0][3] == 'o';
  }

  lemma SameValuesSameRequest(a: ExternalRequest, b: ExternalRequest)
    requires (a.reference == "") == (b.reference == "")
    requires Values(a) == Values(b)
    ensures a == b
  {
    var v, w := Values(a), Values(b);
    assert a.externalId == v[0] == w[0] == b.externalId;
    assert a.gameId == v[1] == w[1] == b.gameId;
    assert KindText(a.kind) == v[2] == w[2] == KindText(b.kind);
    assert MoneyText.Amount(a.money.minor) == v[3] == w[3] == MoneyText.Amount(b.money.minor);
    assert a.money.currency == v[4] == w[4] == b.money.currency;
    assert UuidText(a.playerId) == v[5] == w[5] == UuidText(b.playerId);
    assert a.providerId == v[6] == w[6] == b.providerId;
    assert a.reference != "" ==> a.reference == v[7] == w[7] == b.reference;
    var n := |v|;
    assert a.roundId == v[n - 2] == w[n - 2] == b.roundId;
    assert UuidText(a.walletId) == v[n - 1] == w[n - 1] == UuidText(b.walletId);
    KindTextIsInjective(a.kind, b.kind);
    MoneyText.AmountIsInjective(a.money.minor, b.money.minor);
    UuidTextIsInjective(a.playerId, b.playerId);
    UuidTextIsInjective(a.walletId, b.walletId);
  }

  lemma PreimageThenTail(a: ExternalRequest, b: ExternalRequest, x: string, y: string)
    requires Preimage(a) + x == Preimage(b) + y
    ensures a == b && x == y
  {
    hide UuidText, KindText, Quote, ValidRequest;
    var ra, rb := a.reference != "", b.reference != "";
    var la := (if ra then [LABEL_REFERENCE] else []) + LABELS_AFTER;
    var lb := (if rb then [LABEL_REFERENCE] else []) + LABELS_AFTER;
    assert Labels(ra) == LABELS_BEFORE + la && Labels(rb) == LABELS_BEFORE + lb;
    PeelFields(LABELS_BEFORE, la, lb, Values(a), Values(b), x, y);
    var v, w := Values(a)[7..], Values(b)[7..];
    if ra && !rb {
      assert lb == LABELS_AFTER;
      TailsDiffer(v, w, x, y);
    } else if rb && !ra {
      assert la == LABELS_AFTER;
      TailsDiffer(w, v, y, x);
    } else {
      assert la + [] == la && lb == la;
      PeelFields(la, [], [], v, w, x, y);
      assert v[..|la|] == v && w[..|la|] == w;
      assert Values(a) == Values(a)[..7] + v && Values(b) == Values(b)[..7] + w;
      SameValuesSameRequest(a, b);
      CancelPrefix("}", x, y);
    }
  }

  /** Two operations have one payload hash exactly when every business field agrees, money by value. */
  lemma PreimageIsInjective(a: ExternalRequest, b: ExternalRequest)
    ensures Preimage(a) == Preimage(b) <==> a == b
  {
    if Preimage(a) == Preimage(b) {
      PreimageThenTail(a, b, "", "");
    }
  }

  /** The inbox hash tells apart requests and idempotency keys together. */
  lemma InboxPreimageIsInjective(a: ExternalRequest, ka: string, b: ExternalRequest, kb: string)
    ensures InboxPreimage(a, ka) == InboxPreimage(b, kb) <==> a == b && ka == kb
  {
    if InboxPreimage(a, ka) == InboxPreimage(b, kb) {
      Regroup(Preimage(a), "|", ka);
      Regroup(Preimage(b), "|", kb);
      PreimageThenTail(a, b, "|" + ka, "|" + kb);
      CancelPrefix("|", ka, kb);
    }
  }
}
