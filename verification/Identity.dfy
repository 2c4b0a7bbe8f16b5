/**
 The signed identity cookie and the CSRF token: what is written is what is read back, through base64url, decimal
 printing and parsing, and splitting at separators. The keyed hash is an arbitrary function.
 */
module Identity {
  import opened Protocol
  import opened Bytes
  import Base64

  type Mac = seq<byte> -> seq<byte>

  const COLON: byte := 58
  const DOT: byte := 46
  const DASH: byte := 45

  // ----- Numbers -----

  const TWO_63: int := 0x8000_0000_0000_0000
  const TWO_64: int := 0x1_0000_0000_0000_0000

  /** 64-bit two's complement. */
  function Wrap(n: int): int {
    var m := n % TWO_64;
    if m < TWO_63 then m else m - TWO_64
  }

  predicate IsDigit(b: byte) { 48 <= b < 58 }

  /** The accumulator of parseInt64 after `s`. The empty string is zero, and overflow wraps. */
  function Parse(s: Text): Option<int> {
    if s == [] then Some(0)
    else
      var last := s[|s| - 1];
      match Parse(s[..|s| - 1])
      case None => None
      case Some(n) => if IsDigit(last) then Some(Wrap(n * 10 + (last as int - 48))) else None
  }

  method ParseInt64(s: Text) returns (r: Option<int>)
    ensures r == Parse(s)
  {
    var n := 0;
    assert s[..0] == [];
    for i := 0 to |s|
      invariant Parse(s[..i]) == Some(n)
    {
      assert s[..i + 1][..i] == s[..i];
      if !IsDigit(s[i]) {
        BadDigitStays(s, i + 1);
        return None;
      }
      n := Wrap(n * 10 + (s[i] as int - 48));
    }
    assert s[..|s|] == s;
    r := Some(n);
  }

  lemma {:induction false} BadDigitStays(s: Text, k: nat)
    requires k <= |s| && Parse(s[..k]).None?
    ensures Parse(s).None?
    decreases |s|
  {
    if k < |s| {
      assert s[..|s| - 1][..k] == s[..k];
      BadDigitStays(s[..|s| - 1], k);
    } else {
      assert s[..k] == s;
    }
  }

  /** The number that decimal digits stand for. */
  function Decimal(s: Text): int {
    if s == [] then 0 else (s[0] as int - 48) * Pow10(|s| - 1) + Decimal(s[1..])
  }

  function Pow10(n: nat): nat { if n == 0 then 1 else 10 * Pow10(n - 1) }

  lemma {:induction false} DecimalSnoc(s: Text, d: byte)
    ensures Decimal(s + [d]) == Decimal(s) * 10 + (d as int - 48)
    decreases |s|
  {
    if s == [] {
      assert s + [d] == [d];
      assert [d][1..] == [];
    } else {
      assert (s + [d])[1..] == s[1..] + [d];
      DecimalSnoc(s[1..], d);
      assert (s[0] as int - 48) * Pow10(|s|) == (s[0] as int - 48) * Pow10(|s| - 1) * 10;
    }
  }

  /** What parseInt64 accepts, and what it makes of it: digits only, the decimal number wrapped to 64 bits. */
  lemma {:induction false} ParseIs(s: Text)
    ensures Parse(s).Some? <==> forall i :: 0 <= i < |s| ==> 48 <= s[i] <= 57
    ensures Parse(s).Some? ==> Parse(s).value == Wrap(Decimal(s))
    decreases |s|
  {
    if s != [] {
      var k := |s| - 1;
      assert s == s[..k] + [s[k]];
      ParseIs(s[..k]);
      if Parse(s).Some? {
        DecimalSnoc(s[..k], s[k]);
        WrapStep(Decimal(s[..k]), s[k] as int - 48);
      }
    }
  }

  /** Wrapping at every digit is wrapping once at the end. */
  lemma WrapStep(n: int, d: int)
    ensures Wrap(Wrap(n) * 10 + d) == Wrap(n * 10 + d)
    ensures -TWO_63 <= Wrap(n) < TWO_63 && (Wrap(n) - n) % TWO_64 == 0
  {
    var k := (Wrap(n) - n) / TWO_64;
    assert Wrap(n) == n + k * TWO_64;
    assert Wrap(n) * 10 + d == n * 10 + d + 10 * k * TWO_64;
    ModShift(n * 10 + d, 10 * k);
  }

  lemma ModShift(a: int, k: int)
    ensures (a + k * TWO_64) % TWO_64 == a % TWO_64
  {
  }

  /** fmt's %d of a non-negative number. */
  function Print(n: nat): Text {
    if n < 10 then [(n + 48) as byte] else Print(n / 10) + [(n % 10 + 48) as byte]
  }

  lemma {:induction false} PrintParse(n: nat)
    requires n < TWO_63
    ensures Parse(Print(n)) == Some(n)
    decreases n
  {
    var s := Print(n);
    if n >= 10 {
      PrintParse(n / 10);
      assert s[..|s| - 1] == Print(n / 10);
    } else {
      assert s[..0] == [];
    }
  }

  /** Printed numbers have no leading zero. */
  lemma {:induction false} PrintIsCanonical(n: nat)
    ensures |Print(n)| > 0 && (n > 0 ==> Print(n)[0] != 48)
    ensures forall i :: 0 <= i < |Print(n)| ==> 48 <= Print(n)[i] <= 57
    decreases n
  {
    if n >= 10 {
      PrintIsCanonical(n / 10);
    }
  }

  lemma {:induction false} PrintHasNo(n: nat, sep: byte)
    requires !IsDigit(sep)
    ensures sep !in Print(n)
    decreases n
  {
    if n >= 10 {
      PrintHasNo(n / 10, sep);
    }
  }

  // ----- Splitting -----

  /** strings.SplitN(s, sep, 2) when it gives two parts. */
  function Cut(s: Text, sep: byte): Option<(Text, Text)> {
    if s == [] then None
    else if s[0] == sep then Some(([], s[1..]))
    else
      match Cut(s[1..], sep)
      case None => None
      case Some((a, b)) => Some(([s[0]] + a, b))
  }

  lemma {:induction false} CutJoin(a: Text, sep: byte, b: Text)
    requires sep !in a
    ensures Cut(a + [sep] + b, sep) == Some((a, b))
    decreases |a|
  {
    var s := a + [sep] + b;
    if a != [] {
      assert s[1..] == a[1..] + [sep] + b;
      CutJoin(a[1..], sep, b);
      assert s[0] == a[0] && [a[0]] + a[1..] == a;
    } else {
      assert s[1..] == b;
    }
  }

  // ----- Participant ids -----

  predicate IsHex(b: byte) { IsDigit(b) || 97 <= b < 103 || 65 <= b < 71 }
  predicate IsDashPlace(i: int) { i == 8 || i == 13 || i == 18 || i == 23 }

  predicate UuidChar(s: Text, i: int)
    requires 0 <= i < |s|
  {
    if IsDashPlace(i) then s[i] == DASH else IsHex(s[i])
  }

  predicate ValidUuid(s: Text) { |s| == 36 && forall i :: 0 <= i < |s| ==> UuidChar(s, i) }

  lemma UuidSpelledOut(s: Text)
    ensures ValidUuid(s) <==>
              && |s| == 36 && s[8] == s[13] == s[18] == s[23] == 45
              && forall i :: 0 <= i < 36 && i != 8 && i != 13 && i != 18 && i != 23 ==>
                   48 <= s[i] <= 57 || 97 <= s[i] <= 102 || 65 <= s[i] <= 70
  {
    if |s| == 36 {
      assert UuidChar(s, 8) <==> s[8] == 45;
      assert UuidChar(s, 13) <==> s[13] == 45;
      assert UuidChar(s, 18) <==> s[18] == 45;
      assert UuidChar(s, 23) <==> s[23] == 45;
      forall i | 0 <= i < 36 && i != 8 && i != 13 && i != 18 && i != 23
        ensures UuidChar(s, i) <==> 48 <= s[i] <= 57 || 97 <= s[i] <= 102 || 65 <= s[i] <= 70 { }
    }
  }

  method IsValidUuid(s: Text) returns (ok: bool)
    ensures ok <==> ValidUuid(s)
    ensures ok <==>
              && |s| == 36 && s[8] == s[13] == s[18] == s[23] == 45
              && forall i :: 0 <= i < 36 && i != 8 && i != 13 && i != 18 && i != 23 ==>
                   48 <= s[i] <= 57 || 97 <= s[i] <= 102 || 65 <= s[i] <= 70
  {
    UuidSpelledOut(s);
    if |s| != 36 { return false; }
    for i := 0 to |s|
      invariant forall j :: 0 <= j < i ==> UuidChar(s, j)
    {
      if i == 8 || i == 13 || i == 18 || i == 23 {
        if s[i] != DASH { assert !UuidChar(s, i); return false; }
      } else if !IsHex(s[i]) {
        assert !UuidChar(s, i);
        return false;
      }
    }
    ok := true;
  }

  lemma UuidHasNoColon(s: Text)
    requires ValidUuid(s)
    ensures COLON !in s
  {
    forall i | 0 <= i < |s| ensures s[i] != COLON {
      assert UuidChar(s, i);
    }
  }

  function HexDigit(n: int): byte
    requires 0 <= n < 16
  {
    if n < 10 then (n + 48) as byte else (n + 87) as byte
  }

  /** %x of a byte slice. */
  function Hex(bs: seq<byte>): Text {
    if bs == [] then [] else [HexDigit(bs[0] as int / 16), HexDigit(bs[0] as int % 16)] + Hex(bs[1..])
  }

  lemma {:induction false} HexAt(bs: seq<byte>, i: nat)
    requires i < |bs|
    ensures |Hex(bs)| == 2 * |bs|
    ensures Hex(bs)[2 * i] == HexDigit(bs[i] as int / 16) && Hex(bs)[2 * i + 1] == HexDigit(bs[i] as int % 16)
    decreases |bs|
  {
    if i > 0 {
      HexAt(bs[1..], i - 1);
    } else if |bs| > 1 {
      HexAt(bs[1..], 0);
    }
  }

  /** GenerateParticipantID on the sixteen random bytes. */
  function Generate(b: seq<byte>): Text
    requires |b| == 16
  {
    Hex(b[0..4]) + [DASH] + Hex(b[4..6]) + [DASH] + Hex(b[6..8]) + [DASH] + Hex(b[8..10]) + [DASH] + Hex(b[10..16])
  }

  /** Where byte `i` is printed. */
  function PlaceOf(i: nat): nat {
    2 * i + (if i < 4 then 0 else if i < 6 then 1 else if i < 8 then 2 else if i < 10 then 3 else 4)
  }

  lemma HexLength(bs: seq<byte>)
    ensures |Hex(bs)| == 2 * |bs|
  {
    if bs != [] { HexAt(bs, 0); }
  }

  lemma GenerateAt(b: seq<byte>, i: nat)
    requires |b| == 16 && i < 16
    ensures |Generate(b)| == 36
    ensures Generate(b)[PlaceOf(i)] == HexDigit(b[i] as int / 16)
    ensures Generate(b)[PlaceOf(i) + 1] == HexDigit(b[i] as int % 16)
  {
    HexLength(b[0..4]); HexLength(b[4..6]); HexLength(b[6..8]); HexLength(b[8..10]); HexLength(b[10..16]);
    if i < 4 { HexAt(b[0..4], i); }
    else if i < 6 { HexAt(b[4..6], i - 4); }
    else if i < 8 { HexAt(b[6..8], i - 6); }
    else if i < 10 { HexAt(b[8..10], i - 8); }
    else { HexAt(b[10..16], i - 10); }
  }

  /** A generated id is always valid. */
  lemma GeneratedIsValid(b: seq<byte>)
    requires |b| == 16
    ensures ValidUuid(Generate(b))
  {
    var s := Generate(b);
    forall i | 0 <= i < 16 ensures UuidAt(s, PlaceOf(i)) && UuidAt(s, PlaceOf(i) + 1) {
      GenerateAt(b, i);
    }
    HexLength(b[0..4]); HexLength(b[4..6]); HexLength(b[6..8]); HexLength(b[8..10]); HexLength(b[10..16]);
    forall k | 0 <= k < 36 ensures UuidChar(s, k) {
      if !IsDashPlace(k) {
        var i := (k - (if k < 8 then 0 else if k < 13 then 1 else if k < 18 then 2 else if k < 23 then 3 else 4)) / 2;
        assert UuidAt(s, PlaceOf(i)) && UuidAt(s, PlaceOf(i) + 1);
        assert k == PlaceOf(i) || k == PlaceOf(i) + 1;
      }
    }
  }

  predicate UuidAt(s: Text, k: nat) { k < |s| && UuidChar(s, k) }

  /** Different random bytes give different ids. */
  lemma GenerateInjective(b: seq<byte>, b': seq<byte>)
    requires |b| == 16 && |b'| == 16 && Generate(b) == Generate(b')
    ensures b == b'
  {
    forall i | 0 <= i < 16 ensures b[i] == b'[i] {
      GenerateAt(b, i);
      GenerateAt(b', i);
    }
  }

  // ----- The identity cookie -----

  datatype Id = Id(participant: Text, issuedAt: int, expiresAt: int)
  datatype Resolved = ResolveOk(id: Id) | InvalidCookie | ExpiredCookie

  function Payload(participant: Text, issuedAt: nat, expiresAt: nat): Text {
    participant + [COLON] + (Print(issuedAt) + [COLON] + Print(expiresAt))
  }

  function SetIdentity(mac: Mac, participant: Text, now: nat, maxAge: nat): Text {
    var encoded := Base64.Encode(Payload(participant, now, now + maxAge));
    Base64.Encode(mac(encoded)) + [DOT] + encoded
  }

  /** The three fields of a decoded payload. */
  function Fields(payload: seq<byte>): Option<Id> {
    match Cut(payload, COLON)
    case None => None
    case Some((participant, rest)) =>
      match Cut(rest, COLON)
      case None => None
      case Some((issued, expires)) =>
        if !ValidUuid(participant) || Parse(issued).None? || Parse(expires).None? then None
        else Some(Id(participant, Parse(issued).value, Parse(expires).value))
  }

  function Resolve(mac: Mac, cookie: Text, now: int): Resolved {
    match Cut(cookie, DOT)
    case None => InvalidCookie
    case Some((sig, payload)) =>
      if Base64.Decode(sig) != Some(mac(payload)) then InvalidCookie
      else
        match Base64.Decode(payload)
        case None => InvalidCookie
        case Some(bytes) =>
          match Fields(bytes)
          case None => InvalidCookie
          case Some(id) => if now > id.expiresAt then ExpiredCookie else ResolveOk(id)
  }

  lemma EncodeHasNoDot(data: seq<byte>)
    ensures DOT !in Base64.Encode(data)
  {
    Base64.EncodeIsClean(data);
    forall i | 0 <= i < |Base64.Encode(data)| ensures Base64.Encode(data)[i] != DOT {
      assert Base64.Value(Base64.Encode(data)[i]).Some?;
    }
  }

  lemma FieldsOfPayload(participant: Text, issuedAt: nat, expiresAt: nat)
    requires ValidUuid(participant) && issuedAt < TWO_63 && expiresAt < TWO_63
    ensures Fields(Payload(participant, issuedAt, expiresAt)) == Some(Id(participant, issuedAt, expiresAt))
  {
    UuidHasNoColon(participant);
    CutJoin(participant, COLON, Print(issuedAt) + [COLON] + Print(expiresAt));
    PrintHasNo(issuedAt, COLON);
    CutJoin(Print(issuedAt), COLON, Print(expiresAt));
    PrintParse(issuedAt);
    PrintParse(expiresAt);
  }

  /** A cookie value built from any payload with its own signature. */
  lemma SignedPayloadResolves(mac: Mac, payload: Text, now: int)
    ensures var encoded := Base64.Encode(payload);
            Resolve(mac, Base64.Encode(mac(encoded)) + [DOT] + encoded, now) ==
            match Fields(payload)
            case None => InvalidCookie
            case Some(id) => if now > id.expiresAt then ExpiredCookie else ResolveOk(id)
  {
    var encoded := Base64.Encode(payload);
    EncodeHasNoDot(mac(encoded));
    CutJoin(Base64.Encode(mac(encoded)), DOT, encoded);
    Base64.RoundTrip(mac(encoded));
    Base64.RoundTrip(payload);
  }

  /** Resolve recovers exactly what SetIdentity wrote, up to the expiry and not beyond it. */
  lemma CookieRoundTrip(mac: Mac, participant: Text, issued: nat, maxAge: nat, now: int)
    requires ValidUuid(participant) && issued + maxAge < TWO_63
    ensures Resolve(mac, SetIdentity(mac, participant, issued, maxAge), now) ==
            if now <= issued + maxAge then ResolveOk(Id(participant, issued, issued + maxAge)) else ExpiredCookie
  {
    FieldsOfPayload(participant, issued, issued + maxAge);
    SignedPayloadResolves(mac, Payload(participant, issued, issued + maxAge), now);
  }

  /** Whatever text is accepted as a cookie carries the hash of its payload, names a well-formed participant and has not
      expired. */
  lemma ResolveIsSound(mac: Mac, cookie: Text, now: int)
    requires Resolve(mac, cookie, now).ResolveOk?
    ensures var id := Resolve(mac, cookie, now).id;
            ValidUuid(id.participant) && now <= id.expiresAt
    ensures exists sig, payload ::
              cookie == sig + [DOT] + payload && DOT !in sig
              && Base64.Decode(sig) == Some(mac(payload)) && Base64.Decode(payload).Some?
  {
    var (sig, payload) := Cut(cookie, DOT).value;
    CutIs(cookie, DOT);
    assert cookie == sig + [DOT] + payload;
  }

  /** Cut splits at the first separator, and only if there is one. */
  lemma {:induction false} CutIs(s: Text, sep: byte)
    ensures Cut(s, sep).None? <==> sep !in s
    ensures Cut(s, sep).Some? ==>
              var (a, b) := Cut(s, sep).value; s == a + [sep] + b && sep !in a
    decreases |s|
  {
    if s != [] && s[0] != sep {
      CutIs(s[1..], sep);
      assert s == [s[0]] + s[1..];
    } else if s != [] {
      assert s == [] + [sep] + s[1..];
    }
  }

  /** A signature moved to another payload is accepted only if the two payloads have the same hash. */
  lemma MovedSignatureRejected(mac: Mac, signed: Text, payload: Text, now: int)
    requires mac(signed) != mac(payload)
    ensures Resolve(mac, Base64.Encode(mac(signed)) + [DOT] + payload, now).InvalidCookie?
  {
    EncodeHasNoDot(mac(signed));
    CutJoin(Base64.Encode(mac(signed)), DOT, payload);
    Base64.RoundTrip(mac(signed));
  }

  // ----- The CSRF token -----

  const NANOS: int := 1_000_000_000

  function CsrfData(participant: Text, now: nat): Text { participant + [COLON] + Print(now) }

  function CsrfToken(mac: Mac, participant: Text, now: nat): Text {
    var data := CsrfData(participant, now);
    Base64.Encode(mac(data)) + [DOT] + Base64.Encode(data)
  }

  /** `nowNanos` is the clock in nanoseconds; the cookie is judged in whole seconds. */
  predicate VerifyCsrf(mac: Mac, token: Text, cookie: Text, nowNanos: int, duration: int) {
    match Cut(token, DOT)
    case None => false
    case Some((sig, dataBase)) =>
      match Base64.Decode(dataBase)
      case None => false
      case Some(data) =>
        match Cut(data, COLON)
        case None => false
        case Some((participant, tsText)) =>
          match Parse(tsText)
          case None => false
          case Some(ts) =>
            match Resolve(mac, cookie, nowNanos / NANOS)
            case InvalidCookie => false
            case ExpiredCookie => false
            case ResolveOk(id) =>
              id.participant == participant && nowNanos - ts * NANOS <= duration && sig == Base64.Encode(mac(data))
  }

  /** A CSRF token is accepted with a cookie exactly if both are for the same participant, the cookie has not expired and
      the token is not older than its lifetime. */
  lemma CsrfRoundTrip(mac: Mac, participant: Text, holder: Text, issued: nat, maxAge: nat, stamped: nat,
                      nowNanos: int, duration: int)
    requires ValidUuid(participant) && ValidUuid(holder) && issued + maxAge < TWO_63 && stamped < TWO_63
    ensures VerifyCsrf(mac, CsrfToken(mac, participant, stamped), SetIdentity(mac, holder, issued, maxAge), nowNanos, duration)
            <==> participant == holder && nowNanos / NANOS <= issued + maxAge && nowNanos - stamped * NANOS <= duration
  {
    var data := CsrfData(participant, stamped);
    EncodeHasNoDot(mac(data));
    CutJoin(Base64.Encode(mac(data)), DOT, Base64.Encode(data));
    Base64.RoundTrip(data);
    UuidHasNoColon(participant);
    CutJoin(participant, COLON, Print(stamped));
    PrintParse(stamped);
    CookieRoundTrip(mac, holder, issued, maxAge, nowNanos / NANOS);
  }

  // ----- One secret, two formats -----

  lemma {:induction false} CutNone(a: Text, sep: byte)
    requires sep !in a
    ensures Cut(a, sep).None?
    decreases |a|
  {
    if a != [] {
      CutNone(a[1..], sep);
    }
  }

  lemma {:induction false} ParseRejects(s: Text, b: byte)
    requires b in s && !IsDigit(b)
    ensures Parse(s).None?
    decreases |s|
  {
    if s[|s| - 1] != b {
      ParseRejects(s[..|s| - 1], b);
    }
  }

  /** A CSRF token is no cookie, and its signature makes none of the data it was made for: cookies are signed as encoded
      text, which has no colon. */
  lemma CsrfIsNoCookie(mac: Mac, participant: Text, stamped: nat, now: int)
    requires ValidUuid(participant)
    ensures Resolve(mac, CsrfToken(mac, participant, stamped), now).InvalidCookie?
    ensures var data := CsrfData(participant, stamped);
            Resolve(mac, Base64.Encode(mac(data)) + [DOT] + data, now).InvalidCookie?
  {
    var data := CsrfData(participant, stamped);
    EncodeHasNoDot(mac(data));
    CutJoin(Base64.Encode(mac(data)), DOT, Base64.Encode(data));
    Base64.RoundTrip(data);
    UuidHasNoColon(participant);
    CutJoin(participant, COLON, Print(stamped));
    PrintHasNo(stamped, COLON);
    CutNone(Print(stamped), COLON);
    CutJoin(Base64.Encode(mac(data)), DOT, data);
    assert COLON in data;
    Base64.DecodeRejects(data, COLON);
  }

  /** A cookie is no CSRF token, and its signature makes none of the text it was made for: CSRF data is signed with its
      colon. */
  lemma CookieIsNoCsrf(mac: Mac, participant: Text, issued: nat, maxAge: nat, cookie: Text, nowNanos: int, duration: int)
    requires ValidUuid(participant)
    ensures !VerifyCsrf(mac, SetIdentity(mac, participant, issued, maxAge), cookie, nowNanos, duration)
    ensures var encoded := Base64.Encode(Payload(participant, issued, issued + maxAge));
            !VerifyCsrf(mac, Base64.Encode(mac(encoded)) + [DOT] + Base64.Encode(encoded), cookie, nowNanos, duration)
  {
    var payload := Payload(participant, issued, issued + maxAge);
    var encoded := Base64.Encode(payload);
    var rest := Print(issued) + [COLON] + Print(issued + maxAge);
    EncodeHasNoDot(mac(encoded));
    CutJoin(Base64.Encode(mac(encoded)), DOT, encoded);
    Base64.RoundTrip(payload);
    UuidHasNoColon(participant);
    CutJoin(participant, COLON, rest);
    assert COLON in rest;
    ParseRejects(rest, COLON);
    CutJoin(Base64.Encode(mac(encoded)), DOT, Base64.Encode(encoded));
    Base64.RoundTrip(encoded);
    EncodeHasNoColon(payload);
    CutNone(encoded, COLON);
  }

  lemma EncodeHasNoColon(data: seq<byte>)
    ensures COLON !in Base64.Encode(data)
  {
    Base64.EncodeIsClean(data);
    forall i | 0 <= i < |Base64.Encode(data)| ensures Base64.Encode(data)[i] != COLON {
      assert Base64.Value(Base64.Encode(data)[i]).Some?;
    }
  }

  // ----- No CSRF token without its signature -----

  /** A token is accepted only with the very text of the hash of its data. */
  lemma CsrfNeedsItsSignature(mac: Mac, sig: Text, dataBase: Text, cookie: Text, nowNanos: int, duration: int)
    requires DOT !in sig && VerifyCsrf(mac, sig + [DOT] + dataBase, cookie, nowNanos, duration)
    ensures Base64.Decode(dataBase).Some? && sig == Base64.Encode(mac(Base64.Decode(dataBase).value))
  {
    CutJoin(sig, DOT, dataBase);
  }

  /** A signature moved to other data is rejected unless the two have the same hash. */
  lemma MovedCsrfSignatureRejected(
    mac: Mac, signed: seq<byte>, data: seq<byte>, cookie: Text, nowNanos: int, duration: int)
    requires mac(signed) != mac(data)
    ensures !VerifyCsrf(mac, Base64.Encode(mac(signed)) + [DOT] + Base64.Encode(data), cookie, nowNanos, duration)
  {
    EncodeHasNoDot(mac(signed));
    CutJoin(Base64.Encode(mac(signed)), DOT, Base64.Encode(data));
    Base64.RoundTrip(data);
    Base64.RoundTrip(mac(signed));
    Base64.RoundTrip(mac(data));
  }

  /** Whatever token is accepted names the participant of a live cookie, and its time is not too old. */
  lemma VerifyCsrfIsSound(mac: Mac, token: Text, cookie: Text, nowNanos: int, duration: int)
    requires VerifyCsrf(mac, token, cookie, nowNanos, duration)
    ensures exists sig, dataBase, participant, stamp ::
              && token == sig + [DOT] + dataBase && DOT !in sig
              && Base64.Decode(dataBase) == Some(participant + [COLON] + stamp) && COLON !in participant
              && sig == Base64.Encode(mac(participant + [COLON] + stamp))
              && Resolve(mac, cookie, nowNanos / NANOS).ResolveOk?
              && Resolve(mac, cookie, nowNanos / NANOS).id.participant == participant
              && Parse(stamp).Some? && nowNanos - Parse(stamp).value * NANOS <= duration
  {
    CutIs(token, DOT);
    var (sig, dataBase) := Cut(token, DOT).value;
    var data := Base64.Decode(dataBase).value;
    CutIs(data, COLON);
    var (participant, stamp) := Cut(data, COLON).value;
    assert data == participant + [COLON] + stamp;
    assert token == sig + [DOT] + dataBase;
  }
}
