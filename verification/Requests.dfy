/**
 Which requests are accepted, written out field by field (validIdentifier, NewExternalRequest and NewExternal of
 internal/domain/wagering/transaction.go), with UTF-8 as its standard defines it.
 */
module Requests {
  import opened Basics
  import opened Wagering

  // ---- texts ----

  /** The Unicode characters with the White_Space property. */
  const SPACES: set<char> := {
    '\U{0009}', '\U{000A}', '\U{000B}', '\U{000C}', '\U{000D}', '\U{0020}', '\U{0085}', '\U{00A0}', '\U{1680}',
    '\U{2000}', '\U{2001}', '\U{2002}', '\U{2003}', '\U{2004}', '\U{2005}', '\U{2006}', '\U{2007}', '\U{2008}',
    '\U{2009}', '\U{200A}', '\U{2028}', '\U{2029}', '\U{202F}', '\U{205F}', '\U{3000}'}

  /** The bytes of one character (section 3 of RFC 3629). */
  function Utf8(c: char): seq<nat> {
    var n := c as int;
    if n <= 0x7F then [n]
    else if n <= 0x7FF then [0xC0 + n / 0x40, 0x80 + n % 0x40]
    else if n <= 0xFFFF then [0xE0 + n / 0x1000, 0x80 + n / 0x40 % 0x40, 0x80 + n % 0x40]
    else [0xF0 + n / 0x4_0000, 0x80 + n / 0x1000 % 0x40, 0x80 + n / 0x40 % 0x40, 0x80 + n % 0x40]
  }

  function Encoded(s: string): seq<nat> {
    if s == "" then [] else Utf8(s[0]) + Encoded(s[1..])
  }

  lemma {:induction false} EncodedJoins(a: string, b: string)
    ensures Encoded(a + b) == Encoded(a) + Encoded(b)
  {
    if a == "" {
      assert a + b == b;
    } else {
      EncodedJoins(a[1..], b);
      assert (a + b)[1..] == a[1..] + b;
    }
  }

  /** Its length in bytes is what Go's len says. */
  lemma {:induction false} LengthInBytes(s: string)
    ensures Utf8Len(s) == |Encoded(s)|
  {
    if s != "" {
      var front, last := s[..|s| - 1], s[|s| - 1..];
      LengthInBytes(front);
      assert s == front + last && last[1..] == "";
      EncodedJoins(front, last);
      assert Encoded(last) == Utf8(last[0]) + Encoded(last[1..]);
    }
  }

  /** Present, trimmed, and at most 256 bytes. */
  predicate Trimmed256(v: string) {
    v != "" && v[0] !in SPACES && v[|v| - 1] !in SPACES && |Encoded(v)| <= 256
  }

  lemma IdentifiersExactly(v: string)
    ensures ValidIdentifier(v) <==> Trimmed256(v)
  {
    LengthInBytes(v);
    SpacesExactly();
  }

  lemma SpacesExactly()
    ensures forall c: char :: IsSpace(c) <==> c in SPACES
  {}

  // ---- requests ----

  /** What a provider may ask for. */
  predicate WellFormedRequest(r: ExternalRequest) {
    && Trimmed256(r.providerId) && Trimmed256(r.externalId) && Trimmed256(r.roundId) && Trimmed256(r.gameId)
    && r.playerId != 0 && r.walletId != 0 && r.kind in {Bet, Win, Loss, Refund, Rollback}
    && r.money.valid && (if r.kind == Loss then r.money.minor == 0 else r.money.minor > 0)
    && match r.kind
       case Bet => r.reference == ""
       case Loss => r.reference == ""
       case Win => r.reference == "" || (Trimmed256(r.reference) && r.reference != r.externalId)
       case _ => Trimmed256(r.reference) && r.reference != r.externalId
  }

  lemma RequestsExactly(r: ExternalRequest)
    ensures ValidRequest(r) <==> WellFormedRequest(r)
  {
    hide ValidIdentifier, Trimmed256;
    IdentifiersExactly(r.providerId);
    IdentifiersExactly(r.externalId);
    IdentifiersExactly(r.roundId);
    IdentifiersExactly(r.gameId);
    IdentifiersExactly(r.reference);
    BlankIsRefused();
  }

  lemma BlankIsRefused()
    ensures !Trimmed256("") && !ValidIdentifier("")
  {}

  /**
   A transaction is made exactly of an acceptable request with an id, a payload hash and a key, and refusing one
   is a validation error.
   */
  lemma AcceptedExactly(id: Uuid, req: ExternalRequest, key: string, hash: string, correlationId: string)
    ensures var r := NewExternal(id, req, key, hash, correlationId);
            && (r.Ok? <==> id != 0 && hash != "" && Trimmed256(key) && WellFormedRequest(req))
            && (r.Err? ==> r.error == Validation)
            && (r.Ok? ==> r.value.id == id && r.value.req == req && r.value.key == key && r.value.hash == hash
                          && r.value.correlationId == correlationId && r.value.status == Pending && r.value.origin == External)
  {
    hide ValidIdentifier, Trimmed256, WellFormedRequest, ValidRequest;
    IdentifiersExactly(key);
    RequestsExactly(req);
  }
}
