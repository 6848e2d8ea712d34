/**
 Structural validation of a ticket token, `version.payload.signature`, against the selected event.
 The signature is one more segment here: only the server can check it.
 */
module QrToken {
  import opened Common
  import opened Base64Url
  import opened ScanQueue

  // ---------------------------------------------------------------------------------------------
  // Segments
  // ---------------------------------------------------------------------------------------------

  function Split(s: string, sep: char): (parts: seq<string>)
    ensures |parts| >= 1
  {
    if s == "" then [""]
    else
      var rest := Split(s[1..], sep);
      if s[0] == sep then [""] + rest else [[s[0]] + rest[0]] + rest[1..]
  }

  function Join(parts: seq<string>, sep: char): string
    requires |parts| >= 1
  {
    if |parts| == 1 then parts[0] else parts[0] + [sep] + Join(parts[1..], sep)
  }

  ghost predicate Unseparated(parts: seq<string>, sep: char) {
    forall i :: 0 <= i < |parts| ==> sep !in parts[i]
  }

  /** Splitting takes a text apart at every separator and loses nothing. */
  lemma {:induction false} JoinOfSplit(s: string, sep: char)
    ensures Join(Split(s, sep), sep) == s
    ensures Unseparated(Split(s, sep), sep)
  {
    if s != "" {
      JoinOfSplit(s[1..], sep);
      var rest, parts := Split(s[1..], sep), Split(s, sep);
      assert s == [s[0]] + s[1..];
      if s[0] == sep {
        assert parts[1..] == rest;
      } else {
        assert parts[1..] == rest[1..];
      }
    }
  }

  /** There is only one way to take a text apart. */
  lemma {:induction false} SplitOfJoin(parts: seq<string>, sep: char)
    requires |parts| >= 1 && Unseparated(parts, sep)
    ensures Split(Join(parts, sep), sep) == parts
    decreases |parts|, |parts[0]|
  {
    var s := Join(parts, sep);
    if parts[0] == "" {
      if |parts| > 1 {
        assert Unseparated(parts[1..], sep) by {
          assert forall i :: 0 <= i < |parts| - 1 ==> parts[1..][i] == parts[i + 1];
        }
        SplitOfJoin(parts[1..], sep);
        assert s[0] == sep && s[1..] == Join(parts[1..], sep);
        assert parts == [""] + parts[1..];
      } else {
        assert parts == [""];
      }
    } else {
      var shorter := parts[0 := parts[0][1..]];
      assert Unseparated(shorter, sep) by {
        assert forall c :: c in parts[0][1..] ==> c in parts[0];
      }
      SplitOfJoin(shorter, sep);
      assert shorter[1..] == parts[1..];
      assert s[0] == parts[0][0] && s[1..] == Join(shorter, sep);
      assert parts[0] == [parts[0][0]] + shorter[0];
      assert parts == [parts[0]] + parts[1..];
    }
  }

  // ---------------------------------------------------------------------------------------------
  // Version and identifiers
  // ---------------------------------------------------------------------------------------------

  const SUPPORTED_QR_VERSION := 1

  predicate Digit(c: char) {
    '0' <= c <= '9'
  }

  predicate AllDigits(s: string) {
    forall i :: 0 <= i < |s| ==> Digit(s[i])
  }

  function ParseDigits(s: string): nat
    requires AllDigits(s)
  {
    if s == "" then 0 else 10 * ParseDigits(s[..|s| - 1]) + (s[|s| - 1] as int - '0' as int)
  }

  /** An optional sign and at least one digit, or no number. */
  function ParseVersion(s: string): Option<int> {
    var digits := if |s| > 0 && (s[0] == '+' || s[0] == '-') then s[1..] else s;
    if |digits| == 0 || !AllDigits(digits) then None
    else
      var n: int := ParseDigits(digits);
      Some(if s[0] == '-' then -n else n)
  }

  predicate Hex(c: char) {
    Digit(c) || 'a' <= c <= 'f' || 'A' <= c <= 'F'
  }

  /** The canonical 8-4-4-4-12 form. */
  predicate IsUuid(s: string) {
    |s| == 36 && forall i :: 0 <= i < 36 ==> if i == 8 || i == 13 || i == 18 || i == 23 then s[i] == '-' else Hex(s[i])
  }

  // ---------------------------------------------------------------------------------------------
  // Validation
  // ---------------------------------------------------------------------------------------------

  /** A parsed payload; an identifier is None when it is absent or not a string. */
  datatype Json = Object(tid: Option<string>, eid: Option<string>) | NotAnObject

  /** JSON parsing of the decoded bytes; None is a syntax error. */
  type Parser = seq<byte> -> Option<Json>

  datatype StructuralErrorKind = MALFORMED | UNSUPPORTED_VERSION | EVENT_MISMATCH

  datatype StructuralValidation =
    | Valid(ticketId: TicketId, eventId: EventId, version: int)
    | Invalid(kind: StructuralErrorKind)

  function ValidateStructure(token: string, selectedEventId: EventId, parse: Parser): StructuralValidation {
    var parts := Split(token, '.');
    if |parts| != 3 then Invalid(MALFORMED)
    else if ParseVersion(parts[0]) != Some(SUPPORTED_QR_VERSION) then Invalid(UNSUPPORTED_VERSION)
    else
      match Decode(parts[1])
      case None => Invalid(MALFORMED)
      case Some(bytes) => ValidatePayload(parse(bytes), selectedEventId)
  }

  function ValidatePayload(parsed: Option<Json>, selectedEventId: EventId): StructuralValidation {
    match parsed
    case Some(Object(Some(tid), Some(eid))) =>
      if !IsUuid(tid) || !IsUuid(eid) then Invalid(MALFORMED)
      else if Uuid(eid) != selectedEventId then Invalid(EVENT_MISMATCH)
      else Valid(Uuid(tid), Uuid(eid), SUPPORTED_QR_VERSION)
    case _ => Invalid(MALFORMED)
  }

  /** Three segments, and what they say. */
  ghost predicate Spells(
    token: string, version: string, payload: string, signature: string, parse: Parser, tid: string, eid: string)
  {
    && token == version + "." + payload + "." + signature
    && '.' !in version && '.' !in payload && '.' !in signature
    && ParseVersion(version) == Some(SUPPORTED_QR_VERSION)
    && Decodable(payload)
    && parse(Decode(payload).value) == Some(Object(Some(tid), Some(eid)))
    && IsUuid(tid) && IsUuid(eid)
  }

  lemma ThreeSegments(a: string, b: string, c: string)
    requires '.' !in a && '.' !in b && '.' !in c
    ensures Split(a + "." + b + "." + c, '.') == [a, b, c]
  {
    var parts := [a, b, c];
    SplitOfJoin(parts, '.');
    assert parts[1..] == [b, c] && parts[1..][1..] == [c];
    assert Join([b, c], '.') == b + "." + c;
    assert Join(parts, '.') == a + "." + b + "." + c;
  }

  lemma SpelledIsAccepted(
    token: string, version: string, payload: string, signature: string, parse: Parser, tid: string, selected: EventId)
    requires Spells(token, version, payload, signature, parse, tid, selected.text)
    ensures ValidateStructure(token, selected, parse) == Valid(Uuid(tid), selected, SUPPORTED_QR_VERSION)
  {
    ThreeSegments(version, payload, signature);
  }

  lemma AcceptedIsSpelled(token: string, selected: EventId, parse: Parser, tid: string)
    requires ValidateStructure(token, selected, parse) == Valid(Uuid(tid), selected, SUPPORTED_QR_VERSION)
    ensures var parts := Split(token, '.');
            |parts| == 3 && Spells(token, parts[0], parts[1], parts[2], parse, tid, selected.text)
  {
    var parts := Split(token, '.');
    JoinOfSplit(token, '.');
    assert parts == [parts[0], parts[1], parts[2]];
    assert parts[1..] == [parts[1], parts[2]] && parts[1..][1..] == [parts[2]];
    assert Join(parts[1..], '.') == parts[1] + "." + parts[2];
    assert token == parts[0] + "." + parts[1] + "." + parts[2];
  }

  /**
   A token is accepted exactly when it spells a version 1 payload naming two identifiers, the second
   being the selected event; it is then accepted with just those identifiers.
   */
  lemma AcceptedExactlyWhen(token: string, selected: EventId, parse: Parser, tid: string)
    ensures ValidateStructure(token, selected, parse) == Valid(Uuid(tid), selected, SUPPORTED_QR_VERSION) <==>
            exists version, payload, signature ::
              Spells(token, version, payload, signature, parse, tid, selected.text)
  {
    if ValidateStructure(token, selected, parse) == Valid(Uuid(tid), selected, SUPPORTED_QR_VERSION) {
      AcceptedIsSpelled(token, selected, parse, tid);
    }
    forall version, payload, signature | Spells(token, version, payload, signature, parse, tid, selected.text)
      ensures ValidateStructure(token, selected, parse) == Valid(Uuid(tid), selected, SUPPORTED_QR_VERSION)
    {
      SpelledIsAccepted(token, version, payload, signature, parse, tid, selected);
    }
  }

  lemma EncodedIsUnseparated(b: seq<byte>)
    ensures '.' !in Encode(b) && Decodable(Encode(b))
  {
    RoundTrip(b);
    forall c | c in Encode(b) ensures InAlphabet(c) {
    }
  }

  /** What the issuer signs: the version, the encoded payload and the encoded signature. */
  function IssuedToken(body: seq<byte>, mac: seq<byte>): string {
    "1" + "." + Encode(body) + "." + Encode(mac)
  }

  /** An issued token for the selected event is always accepted, with its own identifiers, whatever its signature. */
  lemma IssuedTokenAccepted(body: seq<byte>, mac: seq<byte>, parse: Parser, tid: string, selected: EventId)
    requires parse(body) == Some(Object(Some(tid), Some(selected.text)))
    requires IsUuid(tid) && IsUuid(selected.text)
    ensures ValidateStructure(IssuedToken(body, mac), selected, parse) ==
            Valid(Uuid(tid), selected, SUPPORTED_QR_VERSION)
  {
    EncodedIsUnseparated(body);
    EncodedIsUnseparated(mac);
    RoundTrip(body);
    ThreeSegments("1", Encode(body), Encode(mac));
    assert ParseDigits("1") == 1;
  }

  /** For any other event the same token is a mismatch and nothing else. */
  lemma IssuedTokenMismatch(body: seq<byte>, mac: seq<byte>, parse: Parser, tid: string, eid: string, selected: EventId)
    requires parse(body) == Some(Object(Some(tid), Some(eid)))
    requires IsUuid(tid) && IsUuid(eid) && eid != selected.text
    ensures ValidateStructure(IssuedToken(body, mac), selected, parse) == Invalid(EVENT_MISMATCH)
  {
    EncodedIsUnseparated(body);
    EncodedIsUnseparated(mac);
    RoundTrip(body);
    ThreeSegments("1", Encode(body), Encode(mac));
    assert ParseDigits("1") == 1;
  }
}
