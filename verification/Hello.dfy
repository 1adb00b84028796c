// Handshake messages, their tokens, and the transcript both sides authenticate.
module Hello {
  import opened Config
  import opened Bytes

  const PUBLIC_KEY_BYTES: nat := 32
  const NONCE_BYTES: nat := 16
  const MAC_BYTES: nat := 16
  const CLIENT_HELLO: byte := 1
  const RETRY: byte := 2
  const SERVER_HELLO: byte := 3

  datatype RetryToken = RetryToken(issuedAtMs: nat, mac: seq<byte>) {
    predicate Sized() { issuedAtMs < U64_LIMIT && |mac| == MAC_BYTES }
  }

  datatype ResumptionToken = ResumptionToken(issuedAtMs: nat, expiresAtMs: nat, ticketId: nat, mac: seq<byte>) {
    predicate Sized() {
      issuedAtMs < U64_LIMIT && expiresAtMs < U64_LIMIT && ticketId < U64_LIMIT && |mac| == MAC_BYTES
    }
    predicate Acceptable() { ticketId != 0 && expiresAtMs > issuedAtMs }
  }

  datatype ClientHello = ClientHello(
    publicKey: seq<byte>, nonce: seq<byte>, retry: Option<RetryToken>, resumption: Option<ResumptionToken>)
  {
    predicate Sized() {
      && |publicKey| == PUBLIC_KEY_BYTES && |nonce| == NONCE_BYTES
      && (retry.Some? ==> retry.value.Sized()) && (resumption.Some? ==> resumption.value.Sized())
    }
    predicate Acceptable() { resumption.Some? ==> resumption.value.Acceptable() }
  }

  // `mac` is sixteen bytes on the wire; the agreement proof puts an ideal tag in its place.
  datatype ServerHello<+T> = ServerHello(
    connId: nat, publicKey: seq<byte>, nonce: seq<byte>, mac: T, token: Option<ResumptionToken>)
  {
    predicate Sized() {
      && connId < U64_LIMIT && |publicKey| == PUBLIC_KEY_BYTES && |nonce| == NONCE_BYTES
      && (token.Some? ==> token.value.Sized())
    }
    predicate Acceptable() { connId != 0 && (token.Some? ==> token.value.Acceptable()) }
  }

  // ------------------------------------------------------------------- encodings

  function EncodeRetryToken(t: RetryToken): seq<byte> { BigEndian(t.issuedAtMs, 8) + t.mac }

  function EncodeResumptionToken(t: ResumptionToken): seq<byte> {
    BigEndian(t.issuedAtMs, 8) + (BigEndian(t.expiresAtMs, 8) + (BigEndian(t.ticketId, 8) + t.mac))
  }

  function EncodeOptionalRetry(t: Option<RetryToken>): seq<byte> {
    if t.None? then [0] else [1] + EncodeRetryToken(t.value)
  }

  function EncodeOptionalResumption(t: Option<ResumptionToken>): seq<byte> {
    if t.None? then [0] else [1] + EncodeResumptionToken(t.value)
  }

  function EncodeClientHello(h: ClientHello): seq<byte> {
    [CLIENT_HELLO] + (h.publicKey + (h.nonce + (EncodeOptionalRetry(h.retry) + EncodeOptionalResumption(h.resumption))))
  }

  function EncodeServerHello(h: ServerHello<seq<byte>>): seq<byte> {
    [SERVER_HELLO] + (BigEndian(h.connId, 8) + (h.publicKey + (h.nonce + (h.mac + EncodeOptionalResumption(h.token)))))
  }

  // build_transcript_mac_input, the same text on both sides.
  function Transcript<T>(c: ClientHello, s: ServerHello<T>): seq<byte> {
    BigEndian(PROTOCOL_VERSION, 2) + (c.publicKey + (c.nonce + (EncodeOptionalRetry(c.retry) +
    (EncodeOptionalResumption(c.resumption) + (BigEndian(s.connId, 8) + (s.publicKey + (s.nonce +
    EncodeOptionalResumption(s.token))))))))
  }

  // -------------------------------------------------------------------- decoding

  type Read<T> = Result<(T, seq<byte>)>

  function ReadBytes(s: seq<byte>, n: nat): Read<seq<byte>> {
    if |s| < n then Failure(Truncated) else Success((s[..n], s[n..]))
  }

  function ReadNumber(s: seq<byte>, n: nat): Read<nat> {
    var b :- ReadBytes(s, n); Success((Value(b.0), b.1))
  }

  function ReadRetryToken(s: seq<byte>): Read<RetryToken> {
    var issued :- ReadNumber(s, 8);
    var mac :- ReadBytes(issued.1, MAC_BYTES);
    Success((RetryToken(issued.0, mac.0), mac.1))
  }

  // The fields of a resumption token, before they are judged.
  function ReadResumptionFields(s: seq<byte>): Read<ResumptionToken> {
    var issued :- ReadNumber(s, 8);
    var expires :- ReadNumber(issued.1, 8);
    var ticket :- ReadNumber(expires.1, 8);
    var mac :- ReadBytes(ticket.1, MAC_BYTES);
    Success((ResumptionToken(issued.0, expires.0, ticket.0, mac.0), mac.1))
  }

  function ReadResumptionToken(s: seq<byte>): Read<ResumptionToken> {
    var t :- ReadResumptionFields(s);
    if t.0.Acceptable() then Success(t) else Failure(BadPacket)
  }

  function ReadOptionalRetry(s: seq<byte>): Read<Option<RetryToken>> {
    var flag :- ReadBytes(s, 1);
    if flag.0[0] > 1 then Failure(BadPacket)
    else if flag.0[0] == 0 then Success((None, flag.1))
    else var t :- ReadRetryToken(flag.1); Success((Some(t.0), t.1))
  }

  function ReadOptionalResumption(s: seq<byte>): Read<Option<ResumptionToken>> {
    var flag :- ReadBytes(s, 1);
    if flag.0[0] > 1 then Failure(BadPacket)
    else if flag.0[0] == 0 then Success((None, flag.1))
    else var t :- ReadResumptionToken(flag.1); Success((Some(t.0), t.1))
  }

  function ReadKind(s: seq<byte>, kind: byte): Result<seq<byte>> {
    var b :- ReadBytes(s, 1);
    if b.0[0] != kind then Failure(BadPacket) else Success(b.1)
  }

  function ReadClientHello(s: seq<byte>): Result<ClientHello> {
    var s0 :- ReadKind(s, CLIENT_HELLO);
    var key :- ReadBytes(s0, PUBLIC_KEY_BYTES);
    var nonce :- ReadBytes(key.1, NONCE_BYTES);
    var retry :- ReadOptionalRetry(nonce.1);
    var resumption :- ReadOptionalResumption(retry.1);
    if resumption.1 != [] then Failure(BadPacket)
    else Success(ClientHello(key.0, nonce.0, retry.0, resumption.0))
  }

  function ReadServerHello(s: seq<byte>): Result<ServerHello<seq<byte>>> {
    var s0 :- ReadKind(s, SERVER_HELLO);
    var id :- ReadNumber(s0, 8);
    var key :- ReadBytes(id.1, PUBLIC_KEY_BYTES);
    var nonce :- ReadBytes(key.1, NONCE_BYTES);
    var mac :- ReadBytes(nonce.1, MAC_BYTES);
    var token :- ReadOptionalResumption(mac.1);
    if id.0 == 0 || token.1 != [] then Failure(BadPacket)
    else Success(ServerHello(id.0, key.0, nonce.0, mac.0, token.0))
  }

  function EncodeRetry(t: RetryToken): seq<byte> { [RETRY] + EncodeRetryToken(t) }

  function ReadRetry(s: seq<byte>): Result<RetryToken> {
    var s0 :- ReadKind(s, RETRY);
    var t :- ReadRetryToken(s0);
    if t.1 != [] then Failure(BadPacket) else Success(t.0)
  }

  // ------------------------------------------- each reader inverts its encoding, exactly

  lemma BytesExact(s: seq<byte>, n: nat, x: seq<byte>, rest: seq<byte>)
    ensures ReadBytes(s, n) == Success((x, rest)) <==> s == x + rest && |x| == n
  {
  }

  lemma NumberExact(s: seq<byte>, v: nat, rest: seq<byte>)
    ensures ReadNumber(s, 8) == Success((v, rest)) <==> s == BigEndian(v, 8) + rest && v < U64_LIMIT
  {
    Widths();
    if s == BigEndian(v, 8) + rest && v < U64_LIMIT {
      ValueOfBigEndian(v, 8);
      assert s[..8] == BigEndian(v, 8);
    }
    if ReadNumber(s, 8) == Success((v, rest)) { BigEndianOfValue(s[..8]); }
  }

  lemma RetryTokenExact(s: seq<byte>, t: RetryToken, rest: seq<byte>)
    ensures ReadRetryToken(s) == Success((t, rest)) <==> s == EncodeRetryToken(t) + rest && t.Sized()
  {
    NumberExact(s, t.issuedAtMs, t.mac + rest);
    BytesExact(t.mac + rest, MAC_BYTES, t.mac, rest);
    assert EncodeRetryToken(t) + rest == BigEndian(t.issuedAtMs, 8) + (t.mac + rest);
    if ReadRetryToken(s) == Success((t, rest)) { BytesExact(ReadNumber(s, 8).value.1, MAC_BYTES, t.mac, rest); }
  }

  lemma ResumptionFieldsExact(s: seq<byte>, t: ResumptionToken, rest: seq<byte>)
    ensures ReadResumptionFields(s) == Success((t, rest)) <==> s == EncodeResumptionToken(t) + rest && t.Sized()
  {
    var s3 := t.mac + rest;
    var s2 := BigEndian(t.ticketId, 8) + s3;
    var s1 := BigEndian(t.expiresAtMs, 8) + s2;
    assert EncodeResumptionToken(t) + rest == BigEndian(t.issuedAtMs, 8) + s1;
    if ReadResumptionFields(s) == Success((t, rest)) {
      var r1 := ReadNumber(s, 8).value.1;
      var r2 := ReadNumber(r1, 8).value.1;
      var r3 := ReadNumber(r2, 8).value.1;
      BytesExact(r3, MAC_BYTES, t.mac, rest);
      NumberExact(r2, t.ticketId, r3);
      NumberExact(r1, t.expiresAtMs, r2);
      NumberExact(s, t.issuedAtMs, r1);
    }
    if s == EncodeResumptionToken(t) + rest && t.Sized() {
      NumberExact(s, t.issuedAtMs, s1);
      NumberExact(s1, t.expiresAtMs, s2);
      NumberExact(s2, t.ticketId, s3);
      BytesExact(s3, MAC_BYTES, t.mac, rest);
    }
  }

  lemma Assoc(a: seq<byte>, b: seq<byte>, c: seq<byte>)
    ensures a + b + c == a + (b + c)
  {
  }

  lemma FlagCut(s: seq<byte>, flag: byte, rest: seq<byte>)
    requires s != []
    ensures s == [flag] + rest <==> s[0] == flag && s[1..] == rest
  {
    assert s == [s[0]] + s[1..];
  }

  lemma ResumptionTokenExact(s: seq<byte>, t: ResumptionToken, rest: seq<byte>)
    ensures ReadResumptionToken(s) == Success((t, rest)) <==>
      s == EncodeResumptionToken(t) + rest && t.Sized() && t.Acceptable()
  {
    ResumptionFieldsExact(s, t, rest);
  }

  lemma OptionalRetryExact(s: seq<byte>, t: Option<RetryToken>, rest: seq<byte>)
    ensures ReadOptionalRetry(s) == Success((t, rest)) <==>
      s == EncodeOptionalRetry(t) + rest && (t.Some? ==> t.value.Sized())
  {
    if s != [] {
      FlagCut(s, 0, rest);
      if t.Some? {
        Assoc([1], EncodeRetryToken(t.value), rest);
        FlagCut(s, 1, EncodeRetryToken(t.value) + rest);
        RetryTokenExact(s[1..], t.value, rest);
      }
    }
  }

  lemma OptionalResumptionExact(s: seq<byte>, t: Option<ResumptionToken>, rest: seq<byte>)
    ensures ReadOptionalResumption(s) == Success((t, rest)) <==>
      s == EncodeOptionalResumption(t) + rest && (t.Some? ==> t.value.Sized() && t.value.Acceptable())
  {
    if s != [] {
      FlagCut(s, 0, rest);
      if t.Some? {
        Assoc([1], EncodeResumptionToken(t.value), rest);
        FlagCut(s, 1, EncodeResumptionToken(t.value) + rest);
        ResumptionTokenExact(s[1..], t.value, rest);
      }
    }
  }

  // read_client_hello accepts exactly the encodings of well-formed hellos.
  lemma ClientHelloExact(s: seq<byte>, h: ClientHello)
    ensures ReadClientHello(s) == Success(h) <==> s == EncodeClientHello(h) && h.Sized() && h.Acceptable()
  {
    var s3 := EncodeOptionalResumption(h.resumption);
    var s2 := EncodeOptionalRetry(h.retry) + s3;
    var s1 := h.nonce + s2;
    var s0 := h.publicKey + s1;
    if ReadClientHello(s) == Success(h) {
      var r0 := s[1..];
      var r1 := ReadBytes(r0, PUBLIC_KEY_BYTES).value.1;
      var r2 := ReadBytes(r1, NONCE_BYTES).value.1;
      var r3 := ReadOptionalRetry(r2).value.1;
      OptionalResumptionExact(r3, h.resumption, []);
      OptionalRetryExact(r2, h.retry, r3);
      assert r3 == s3 && r2 == s2 && r1 == s1 && r0 == s0;
    }
    if s == EncodeClientHello(h) && h.Sized() && h.Acceptable() {
      BytesExact(s0, PUBLIC_KEY_BYTES, h.publicKey, s1);
      BytesExact(s1, NONCE_BYTES, h.nonce, s2);
      OptionalRetryExact(s2, h.retry, s3);
      OptionalResumptionExact(s3, h.resumption, []);
      assert s3 + [] == s3;
    }
  }

  lemma ServerHelloExact(s: seq<byte>, h: ServerHello<seq<byte>>)
    ensures ReadServerHello(s) == Success(h) <==>
      s == EncodeServerHello(h) && h.Sized() && |h.mac| == MAC_BYTES && h.Acceptable()
  {
    var s4 := EncodeOptionalResumption(h.token);
    var s3 := h.mac + s4;
    var s2 := h.nonce + s3;
    var s1 := h.publicKey + s2;
    var s0 := BigEndian(h.connId, 8) + s1;
    if ReadServerHello(s) == Success(h) {
      var r0 := s[1..];
      var r1 := ReadNumber(r0, 8).value.1;
      var r2 := ReadBytes(r1, PUBLIC_KEY_BYTES).value.1;
      var r3 := ReadBytes(r2, NONCE_BYTES).value.1;
      var r4 := ReadBytes(r3, MAC_BYTES).value.1;
      OptionalResumptionExact(r4, h.token, []);
      NumberExact(r0, h.connId, r1);
      assert r4 == s4 && r3 == s3 && r2 == s2 && r1 == s1 && r0 == s0;
    }
    if s == EncodeServerHello(h) && h.Sized() && |h.mac| == MAC_BYTES && h.Acceptable() {
      NumberExact(s0, h.connId, s1);
      BytesExact(s1, PUBLIC_KEY_BYTES, h.publicKey, s2);
      BytesExact(s2, NONCE_BYTES, h.nonce, s3);
      BytesExact(s3, MAC_BYTES, h.mac, s4);
      OptionalResumptionExact(s4, h.token, []);
      assert s4 + [] == s4;
    }
  }

  lemma RetryExact(s: seq<byte>, t: RetryToken)
    ensures ReadRetry(s) == Success(t) <==> s == EncodeRetry(t) && t.Sized()
  {
    if s != [] { RetryTokenExact(s[1..], t, []); }
    assert EncodeRetryToken(t) + [] == EncodeRetryToken(t);
  }

  // The fixed buffers the encoders write into are never too small.
  lemma HelloBuffersSuffice(c: ClientHello, s: ServerHello<seq<byte>>)
    requires c.Sized() && s.Sized() && |s.mac| == MAC_BYTES
    ensures |EncodeClientHello(c)| <= 128 && |EncodeServerHello(s)| <= 192 && |Transcript(c, s)| <= 320
  {
  }

  // ------------------------------------------------------ the transcript is injective

  lemma Cut(a: seq<byte>, x: seq<byte>, b: seq<byte>, y: seq<byte>)
    requires a + x == b + y && |a| == |b|
    ensures a == b && x == y
  {
    assert a == (a + x)[..|a|] && b == (b + y)[..|b|] && x == (a + x)[|a|..] && y == (b + y)[|b|..];
  }

  lemma CutNumber(v: nat, x: seq<byte>, w: nat, y: seq<byte>)
    requires BigEndian(v, 8) + x == BigEndian(w, 8) + y && v < U64_LIMIT && w < U64_LIMIT
    ensures v == w && x == y
  {
    NumberExact(BigEndian(v, 8) + x, v, x);
    NumberExact(BigEndian(v, 8) + x, w, y);
  }

  lemma CutRetry(t: Option<RetryToken>, x: seq<byte>, u: Option<RetryToken>, y: seq<byte>)
    requires EncodeOptionalRetry(t) + x == EncodeOptionalRetry(u) + y
    requires (t.Some? ==> t.value.Sized()) && (u.Some? ==> u.value.Sized())
    ensures t == u && x == y
  {
    OptionalRetryExact(EncodeOptionalRetry(t) + x, t, x);
    OptionalRetryExact(EncodeOptionalRetry(t) + x, u, y);
  }

  lemma CutResumption(t: Option<ResumptionToken>, x: seq<byte>, u: Option<ResumptionToken>, y: seq<byte>)
    requires EncodeOptionalResumption(t) + x == EncodeOptionalResumption(u) + y
    requires (t.Some? ==> t.value.Sized()) && (u.Some? ==> u.value.Sized())
    ensures t == u && x == y
  {
    var whole := EncodeOptionalResumption(t) + x;
    FlaggedParts(t, x, whole);
    FlaggedParts(u, y, whole);
    if t.Some? {
      ResumptionFieldsExact(whole[1..], t.value, x);
      ResumptionFieldsExact(whole[1..], u.value, y);
    }
  }

  lemma FlaggedParts(t: Option<ResumptionToken>, x: seq<byte>, whole: seq<byte>)
    requires whole == EncodeOptionalResumption(t) + x
    ensures whole != [] && whole[0] == (if t.Some? then 1 else 0)
    ensures whole[1..] == if t.Some? then EncodeResumptionToken(t.value) + x else x
  {
    if t.Some? { Assoc([1], EncodeResumptionToken(t.value), x); }
  }

  // Equal transcripts mean equal hellos: every field of both, apart from the tag itself.
  lemma TranscriptInjective<T, U>(c: ClientHello, s: ServerHello<T>, c': ClientHello, s': ServerHello<U>)
    requires c.Sized() && s.Sized() && c'.Sized() && s'.Sized() && Transcript(c, s) == Transcript(c', s')
    ensures c == c'
    ensures s.connId == s'.connId && s.publicKey == s'.publicKey && s.nonce == s'.nonce && s.token == s'.token
  {
    var t7, u7 := EncodeOptionalResumption(s.token), EncodeOptionalResumption(s'.token);
    var t6, u6 := s.nonce + t7, s'.nonce + u7;
    var t5, u5 := s.publicKey + t6, s'.publicKey + u6;
    var t4, u4 := BigEndian(s.connId, 8) + t5, BigEndian(s'.connId, 8) + u5;
    var t3, u3 := EncodeOptionalResumption(c.resumption) + t4, EncodeOptionalResumption(c'.resumption) + u4;
    var t2, u2 := EncodeOptionalRetry(c.retry) + t3, EncodeOptionalRetry(c'.retry) + u3;
    var t1, u1 := c.nonce + t2, c'.nonce + u2;
    Cut(BigEndian(PROTOCOL_VERSION, 2), c.publicKey + t1, BigEndian(PROTOCOL_VERSION, 2), c'.publicKey + u1);
    Cut(c.publicKey, t1, c'.publicKey, u1);
    Cut(c.nonce, t2, c'.nonce, u2);
    CutRetry(c.retry, t3, c'.retry, u3);
    CutResumption(c.resumption, t4, c'.resumption, u4);
    CutNumber(s.connId, t5, s'.connId, u5);
    Cut(s.publicKey, t6, s'.publicKey, u6);
    Cut(s.nonce, t7, s'.nonce, u7);
    assert t7 + [] == t7 && u7 + [] == u7;
    CutResumption(s.token, [], s'.token, []);
  }
}
