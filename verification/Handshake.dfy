// Key agreement between any number of clients and one server over a network that may replay, drop,
// reorder and rewrite handshake messages, but cannot forge an authentication tag.
module Handshake {
  import opened Config
  import opened Hello

  // ----------------------------------------------------------------- ideal primitives

  datatype Direction = ToClient | ToServer

  // A session key is determined by both public keys and its direction.
  datatype Key = Key(client: seq<byte>, server: seq<byte>, direction: Direction)

  datatype Keys = Keys(rx: Key, tx: Key)

  function ClientKeys(own: seq<byte>, server: seq<byte>): Keys {
    Keys(Key(own, server, ToClient), Key(own, server, ToServer))
  }

  function ServerKeys(own: seq<byte>, client: seq<byte>): Keys {
    Keys(Key(client, own, ToServer), Key(client, own, ToClient))
  }

  predicate Mirrored(a: Keys, b: Keys) { a.rx == b.tx && a.tx == b.rx }

  // The keyed hash, injective in key and message.
  datatype Tag = Tag(key: Key, message: seq<byte>)

  // An encrypted packet: its key and the connection id authenticated with it.
  datatype Seal = Seal(key: Key, connId: nat)

  // -------------------------------------------------------------------- the two sides

  // What a client accepted, and whether it then encrypted its finishing packet.
  datatype Accepted = Accepted(hello: ClientHello, connId: nat, keys: Keys, sealed: bool)

  // One connect() of a client.
  datatype Client = Client(
    resumptionEnabled: bool, attempted: bool, publicKey: seq<byte>, nonce: seq<byte>,
    retry: Option<RetryToken>, saved: Option<ResumptionToken>,
    phase: Phase, connId: nat, keys: Option<Keys>,
    // history
    accepted: Option<Accepted>)

  // The hello a client sends, and the one it rebuilds when the answer comes.
  function Offer(c: Client): ClientHello {
    ClientHello(c.publicKey, c.nonce, c.retry,
                if c.resumptionEnabled && c.saved.Some? && c.retry.None? && c.attempted then c.saved else None)
  }

  // fail_connection
  function Fail(c: Client): Client { c.(phase := Closed, keys := None) }

  // handle_retry_packet
  function OnRetry(c: Client, token: RetryToken): (Client, Status) {
    if c.phase != Handshaking then (c, Err(StateError)) else (c.(retry := Some(token)), Ok)
  }

  // handle_server_hello_packet; `queued` tells whether the finishing keepalive found room.
  function OnServerHello(c: Client, h: ServerHello<Tag>, queued: bool): (Client, Status) {
    var keys := ClientKeys(c.publicKey, h.publicKey);
    if c.phase != Handshaking then (c, Err(StateError))
    else if h.mac != Tag(keys.rx, Transcript(Offer(c), h)) then (c, Err(AuthFailed))
    else (Accept(c, h, keys, queued), if queued then Ok else Err(QueueFull))
  }

  function Accept(c: Client, h: ServerHello<Tag>, keys: Keys, queued: bool): Client {
    var c' := c.(keys := Some(keys), connId := h.connId, saved := h.token,
                 accepted := Some(Accepted(Offer(c), h.connId, keys, queued)));
    if queued then c'.(phase := Established) else Fail(c')
  }

  // The end of handle_packet: a state or authentication error ends the connection.
  function Judge(c: Client, rc: Status): Client {
    if rc == Err(StateError) || rc == Err(AuthFailed) then Fail(c) else c
  }

  datatype Session = Session(
    connId: nat, clientKey: seq<byte>, clientNonce: seq<byte>, retry: Option<RetryToken>,
    resumption: Option<ResumptionToken>, publicKey: seq<byte>, nonce: seq<byte>, phase: Phase)
  {
    function Keys(): Keys { ServerKeys(publicKey, clientKey) }
    function Recorded(): ClientHello { ClientHello(clientKey, clientNonce, retry, resumption) }
    function Finish(): Seal { Seal(Keys().rx, connId) }
  }

  // The part of handle_client_hello that records the hello in a new session.
  function Admit(hello: ClientHello, resumed: bool, connId: nat, publicKey: seq<byte>, nonce: seq<byte>): Session {
    Session(connId, hello.publicKey, hello.nonce, if resumed then None else hello.retry,
            if resumed then hello.resumption else None, publicKey, nonce, Handshaking)
  }

  // queue_server_hello
  function Answer(s: Session, token: Option<ResumptionToken>): ServerHello<Tag> {
    var bare := ServerHello(s.connId, s.publicKey, s.nonce, (), token);
    ServerHello(s.connId, s.publicKey, s.nonce, Tag(s.Keys().tx, Transcript(s.Recorded(), bare)), token)
  }

  // handle_session_packet on a packet that may or may not decrypt, and what handle_packet makes of an error.
  function OnSealed(s: Session, seal: Seal): Session {
    if seal != s.Finish() then (if s.phase == Closed then s else s.(phase := Closing))
    else if s.phase == Handshaking then s.(phase := Established)
    else s
  }

  // A client accepts the answer built for a session exactly when the session recorded its current offer.
  lemma AnswerAcceptedIff(c: Client, s: Session, token: Option<ResumptionToken>)
    requires c.phase == Handshaking && Offer(c).Sized() && s.Recorded().Sized() && Answer(s, token).Sized()
    ensures OnServerHello(c, Answer(s, token), true).1 == Ok <==> s.Recorded() == Offer(c)
  {
    var bare := ServerHello(s.connId, s.publicKey, s.nonce, (), token);
    if Transcript(Offer(c), Answer(s, token)) == Transcript(s.Recorded(), bare) {
      TranscriptInjective(Offer(c), Answer(s, token), s.Recorded(), bare);
    }
  }

  // --------------------------------------------------------------------------- runs

  datatype World = World(clients: seq<Client>, sessions: seq<Session>,
    // history: every tag the server computed and every packet a client encrypted
    tags: set<Tag>, seals: set<Seal>)

  datatype Step =
    | Connect(client: Client)
    | GetRetry(i: nat, token: RetryToken)                     // any token: retries are not authenticated
    | GetClientHello(hello: ClientHello, resumed: bool, connId: nat, publicKey: seq<byte>, nonce: seq<byte>,
                     ticket: Option<ResumptionToken>)         // any hello, from anyone
    | GetServerHello(i: nat, answer: ServerHello<Tag>, queued: bool)
    | GetSealed(j: nat, seal: Seal)
    | LeaveClient(i: nat, phase: Phase)      // close(), a timeout, a drain, a remote close or fail_connection
    | LeaveSession(j: nat, phase: Phase)     // close_session, a timeout, a drain or an eviction

  // A client as connect() leaves it.
  predicate Fresh(c: Client) {
    && c.phase == Handshaking && c.retry.None? && c.keys.None? && c.accepted.None? && Offer(c).Sized()
    && (c.saved.Some? ==> c.saved.value.Sized())
  }

  // Key pairs are never drawn twice; tags are not forged; only the holders of a key encrypt under it.
  ghost predicate Legal(w: World, step: Step) {
    match step
    case Connect(c) => Fresh(c) && forall i | 0 <= i < |w.clients| :: w.clients[i].publicKey != c.publicKey
    case GetRetry(i, token) => i < |w.clients| && token.Sized()
    case GetClientHello(hello, resumed, connId, publicKey, nonce, token) =>
      && hello.Sized() && !(hello.retry.Some? && hello.resumption.Some?)
      && (if resumed then hello.resumption.Some? else hello.retry.Some?)
      && ServerHello(connId, publicKey, nonce, (), token).Sized() && connId != 0
      && (forall j | 0 <= j < |w.sessions| :: w.sessions[j].publicKey != publicKey)
    case GetServerHello(i, hello, _) => i < |w.clients| && hello.Sized() && hello.mac in w.tags
    case GetSealed(j, seal) => j < |w.sessions| && seal in w.seals
    case LeaveClient(i, phase) => i < |w.clients| && Leaves(w.clients[i].phase, phase)
    case LeaveSession(j, phase) => j < |w.sessions| && Leaves(w.sessions[j].phase, phase)
  }

  predicate Leaves(before: Phase, after: Phase) {
    (after == Closing || after == Closed) && before.Rank() < after.Rank()
  }

  function LeaveAs(c: Client, phase: Phase): Client { if phase == Closed then Fail(c) else c.(phase := phase) }

  ghost function Apply(w: World, step: Step): World
    requires Legal(w, step)
  {
    match step
    case Connect(c) => w.(clients := w.clients + [c])
    case GetRetry(i, token) =>
      var (c, rc) := OnRetry(w.clients[i], token);
      w.(clients := w.clients[i := Judge(c, rc)])
    case GetClientHello(hello, resumed, connId, publicKey, nonce, token) =>
      var s := Admit(hello, resumed, connId, publicKey, nonce);
      w.(sessions := w.sessions + [s], tags := w.tags + {Answer(s, token).mac})
    case GetServerHello(i, hello, queued) =>
      var (c, rc) := OnServerHello(w.clients[i], hello, queued);
      w.(clients := w.clients[i := Judge(c, rc)],
         seals := if rc.Ok? then w.seals + {Seal(c.keys.value.tx, c.connId)} else w.seals)
    case GetSealed(j, seal) => w.(sessions := w.sessions[j := OnSealed(w.sessions[j], seal)])
    case LeaveClient(i, phase) => w.(clients := w.clients[i := LeaveAs(w.clients[i], phase)])
    case LeaveSession(j, phase) => w.(sessions := w.sessions[j := w.sessions[j].(phase := phase)])
  }

  ghost predicate IsRun(worlds: seq<World>, steps: seq<Step>) {
    && |worlds| == |steps| + 1 && worlds[0] == World([], [], {}, {})
    && forall n | 0 <= n < |steps| :: Next(worlds[n], steps[n], worlds[n + 1])
  }

  ghost predicate Next(w: World, step: Step, w': World) { Legal(w, step) && w' == Apply(w, step) }

  // ---------------------------------------------------------------------- agreement

  // The client accepted, with this session: the same hello with its tokens, the same connection id and
  // mirrored keys.
  ghost predicate Agree(c: Client, s: Session) {
    && c.accepted.Some? && c.publicKey == s.clientKey
    && c.accepted.value.hello == s.Recorded() && c.accepted.value.connId == s.connId
    && Mirrored(c.accepted.value.keys, s.Keys())
  }

  ghost predicate TagMade(w: World, tag: Tag) {
    exists j, token :: 0 <= j < |w.sessions| && Made(w.sessions[j], token, tag)
  }

  ghost predicate Made(s: Session, token: Option<ResumptionToken>, tag: Tag) {
    Answer(s, token).Sized() && Answer(s, token).mac == tag
  }

  ghost predicate ClientOk(w: World, c: Client) {
    && |c.publicKey| == PUBLIC_KEY_BYTES && |c.nonce| == NONCE_BYTES
    && (c.retry.Some? ==> c.retry.value.Sized()) && (c.saved.Some? ==> c.saved.value.Sized())
    && (c.phase == Handshaking ==> c.accepted.None?)
    && (c.phase == Established ==>
          c.accepted.Some? && c.connId == c.accepted.value.connId && c.keys == Some(c.accepted.value.keys))
    && (c.accepted.Some? ==> exists j :: 0 <= j < |w.sessions| && Agree(c, w.sessions[j]))
  }

  ghost predicate SealOk(w: World, seal: Seal) {
    exists i :: 0 <= i < |w.clients| && SealedBy(w.clients[i], seal)
  }

  ghost predicate SealedBy(c: Client, seal: Seal) {
    c.accepted.Some? && c.accepted.value.sealed && seal == Seal(c.accepted.value.keys.tx, c.accepted.value.connId)
  }

  ghost predicate SessionOk(w: World, s: Session) {
    && s.Recorded().Sized() && s.connId != 0
    && (s.phase == Established ==> s.Finish() in w.seals)
  }

  ghost predicate Inv(w: World) {
    && (forall i | 0 <= i < |w.clients| :: ClientOk(w, w.clients[i]))
    && (forall j | 0 <= j < |w.sessions| :: SessionOk(w, w.sessions[j]))
    && (forall tag | tag in w.tags :: TagMade(w, tag))
    && (forall seal | seal in w.seals :: SealOk(w, seal))
    && (forall i, j | 0 <= i < j < |w.clients| :: w.clients[i].publicKey != w.clients[j].publicKey)
    && (forall i, j | 0 <= i < j < |w.sessions| :: w.sessions[i].publicKey != w.sessions[j].publicKey)
  }

  // A server hello that verifies was built for a session that recorded exactly this client's offer.
  lemma VerifiedMeansAgreed(w: World, c: Client, h: ServerHello<Tag>, queued: bool)
    requires (forall j | 0 <= j < |w.sessions| :: SessionOk(w, w.sessions[j]))
    requires ClientOk(w, c) && c.phase == Handshaking && h.Sized() && TagMade(w, h.mac)
    requires h.mac == Tag(ClientKeys(c.publicKey, h.publicKey).rx, Transcript(Offer(c), h))
    ensures var c' := Accept(c, h, ClientKeys(c.publicKey, h.publicKey), queued);
      exists j :: 0 <= j < |w.sessions| && Agree(c', w.sessions[j])
  {
    var j, token :| 0 <= j < |w.sessions| && Made(w.sessions[j], token, h.mac);
    assert SessionOk(w, w.sessions[j]);
    MadeMeansAgreed(c, h, queued, w.sessions[j], token);
  }

  lemma MadeMeansAgreed(c: Client, h: ServerHello<Tag>, queued: bool, s: Session, token: Option<ResumptionToken>)
    requires Offer(c).Sized() && h.Sized() && s.Recorded().Sized() && Made(s, token, h.mac)
    requires h.mac == Tag(ClientKeys(c.publicKey, h.publicKey).rx, Transcript(Offer(c), h))
    ensures Agree(Accept(c, h, ClientKeys(c.publicKey, h.publicKey), queued), s)
  {
    TranscriptInjective(Offer(c), h, s.Recorded(), ServerHello(s.connId, s.publicKey, s.nonce, (), token));
  }

  // Whatever a step does, sessions keep what they recorded.
  ghost predicate Kept(w: World, w': World) {
    && |w.sessions| <= |w'.sessions|
    && forall j | 0 <= j < |w.sessions| :: w'.sessions[j].(phase := Idle) == w.sessions[j].(phase := Idle)
  }

  lemma AgreeStays(w: World, w': World, c: Client)
    requires ClientOk(w, c) && Kept(w, w')
    ensures ClientOk(w', c)
  {
    if c.accepted.Some? {
      var j :| 0 <= j < |w.sessions| && Agree(c, w.sessions[j]);
      assert w'.sessions[j].(phase := Idle) == w.sessions[j].(phase := Idle);
      assert Agree(c, w'.sessions[j]);
    }
  }

  lemma TagStays(w: World, w': World, tag: Tag)
    requires TagMade(w, tag) && Kept(w, w')
    ensures TagMade(w', tag)
  {
    var j, token :| 0 <= j < |w.sessions| && Made(w.sessions[j], token, tag);
    assert w'.sessions[j].(phase := Idle) == w.sessions[j].(phase := Idle);
    assert Made(w'.sessions[j], token, tag);
  }

  // The server added a session or changed a session's phase.
  lemma ServerMoves(w: World, w': World)
    requires Inv(w) && Kept(w, w') && w'.clients == w.clients && w'.seals == w.seals
    requires forall j | 0 <= j < |w'.sessions| :: SessionOk(w', w'.sessions[j])
    requires forall tag | tag in w'.tags && tag !in w.tags :: TagMade(w', tag)
    requires forall i, j | 0 <= i < j < |w'.sessions| :: w'.sessions[i].publicKey != w'.sessions[j].publicKey
    ensures Inv(w')
  {
    forall i | 0 <= i < |w'.clients| ensures ClientOk(w', w'.clients[i]) { AgreeStays(w, w', w.clients[i]); }
    forall tag | tag in w'.tags ensures TagMade(w', tag) { if tag in w.tags { TagStays(w, w', tag); } }
    forall seal | seal in w'.seals ensures SealOk(w', seal) { assert SealOk(w, seal); }
  }

  lemma HelloKeeps(w: World, step: Step)
    requires Inv(w) && Legal(w, step) && step.GetClientHello?
    ensures Inv(Apply(w, step))
  {
    var w' := Apply(w, step);
    forall j | 0 <= j < |w'.sessions| ensures SessionOk(w', w'.sessions[j]) {
      if j < |w.sessions| { assert SessionOk(w, w.sessions[j]); }
    }
    forall tag | tag in w'.tags && tag !in w.tags ensures TagMade(w', tag) {
      assert Made(w'.sessions[|w.sessions|], step.ticket, tag);
    }
    ServerMoves(w, w');
  }

  lemma SealedKeeps(w: World, step: Step)
    requires Inv(w) && Legal(w, step) && (step.GetSealed? || step.LeaveSession?)
    ensures Inv(Apply(w, step))
  {
    var w' := Apply(w, step);
    forall j | 0 <= j < |w'.sessions| ensures SessionOk(w', w'.sessions[j]) { assert SessionOk(w, w.sessions[j]); }
    ServerMoves(w, w');
  }

  lemma SealStays(w: World, w': World, seal: Seal)
    requires SealOk(w, seal) && |w.clients| <= |w'.clients|
    requires forall i | 0 <= i < |w.clients| && w.clients[i].accepted.Some? ::
      w'.clients[i].accepted == w.clients[i].accepted
    ensures SealOk(w', seal)
  {
    var i :| 0 <= i < |w.clients| && SealedBy(w.clients[i], seal);
    assert SealedBy(w'.clients[i], seal);
  }

  ghost predicate AtClient(step: Step) { step.GetRetry? || step.GetServerHello? || step.LeaveClient? }

  lemma ClientStepOk(w: World, step: Step, c: Client)
    requires Inv(w) && Legal(w, step) && AtClient(step) && c == Apply(w, step).clients[step.i]
    ensures ClientOk(w, c) && c.publicKey == w.clients[step.i].publicKey
    ensures w.clients[step.i].accepted.Some? ==> c.accepted == w.clients[step.i].accepted
  {
    var before := w.clients[step.i];
    assert ClientOk(w, before);
    FailOk(w, before);
    if step.GetServerHello? { HelloOk(w, before, step.answer, step.queued); }
  }

  lemma FailOk(w: World, c: Client)
    requires ClientOk(w, c)
    ensures ClientOk(w, Fail(c)) && ClientOk(w, c.(phase := Closing)) && ClientOk(w, c.(phase := Closed))
  {
    if c.accepted.Some? {
      var j :| 0 <= j < |w.sessions| && Agree(c, w.sessions[j]);
      assert Agree(Fail(c), w.sessions[j]) && Agree(c.(phase := Closing), w.sessions[j]);
      assert Agree(c.(phase := Closed), w.sessions[j]);
    }
  }

  lemma AcceptOk(w: World, c: Client, h: ServerHello<Tag>, queued: bool, c': Client)
    requires (forall j | 0 <= j < |w.sessions| :: SessionOk(w, w.sessions[j]))
    requires ClientOk(w, c) && c.phase == Handshaking && h.Sized() && TagMade(w, h.mac)
    requires h.mac == Tag(ClientKeys(c.publicKey, h.publicKey).rx, Transcript(Offer(c), h))
    requires c' == Accept(c, h, ClientKeys(c.publicKey, h.publicKey), queued)
    ensures ClientOk(w, c')
  {
    VerifiedMeansAgreed(w, c, h, queued);
  }

  lemma HelloOk(w: World, c: Client, h: ServerHello<Tag>, queued: bool)
    requires (forall j | 0 <= j < |w.sessions| :: SessionOk(w, w.sessions[j]))
    requires ClientOk(w, c) && h.Sized() && TagMade(w, h.mac)
    ensures var (c', rc) := OnServerHello(c, h, queued);
      ClientOk(w, Judge(c', rc)) && c'.publicKey == c.publicKey && (c.accepted.Some? ==> c'.accepted == c.accepted)
  {
    if c.phase == Handshaking && h.mac == Tag(ClientKeys(c.publicKey, h.publicKey).rx, Transcript(Offer(c), h)) {
      AcceptOk(w, c, h, queued, OnServerHello(c, h, queued).0);
    } else {
      FailOk(w, c);
    }
  }

  lemma ReplaceKeeps(w: World, i: nat, c: Client, seals: set<Seal>, w': World)
    requires Inv(w) && i < |w.clients| && ClientOk(w, c) && c.publicKey == w.clients[i].publicKey
    requires w.clients[i].accepted.Some? ==> c.accepted == w.clients[i].accepted
    requires w.seals <= seals && forall seal | seal in seals && seal !in w.seals :: SealedBy(c, seal)
    requires w' == w.(clients := w.clients[i := c], seals := seals)
    ensures Inv(w')
  {
    forall k | 0 <= k < |w'.clients| ensures ClientOk(w', w'.clients[k]) {
      assert ClientOk(w, w'.clients[k]);
      AgreeStays(w, w', w'.clients[k]);
    }
    forall tag | tag in w'.tags ensures TagMade(w', tag) { TagStays(w, w', tag); }
    forall seal | seal in seals ensures SealOk(w', seal) {
      if seal in w.seals { SealStays(w, w', seal); } else { assert SealedBy(w'.clients[i], seal); }
    }
    forall j | 0 <= j < |w'.sessions| ensures SessionOk(w', w'.sessions[j]) { assert SessionOk(w, w.sessions[j]); }
  }

  lemma ClientSideKeeps(w: World, step: Step)
    requires Inv(w) && Legal(w, step) && AtClient(step)
    ensures Inv(Apply(w, step))
  {
    var w' := Apply(w, step);
    ClientStepOk(w, step, w'.clients[step.i]);
    ReplaceKeeps(w, step.i, w'.clients[step.i], w'.seals, w');
  }

  lemma ConnectKeeps(w: World, step: Step)
    requires Inv(w) && Legal(w, step) && step.Connect?
    ensures Inv(Apply(w, step))
  {
    var w' := Apply(w, step);
    forall i | 0 <= i < |w'.clients| ensures ClientOk(w', w'.clients[i]) {
      if i < |w.clients| { AgreeStays(w, w', w.clients[i]); }
    }
    forall tag | tag in w'.tags ensures TagMade(w', tag) { TagStays(w, w', tag); }
    forall seal | seal in w'.seals ensures SealOk(w', seal) { SealStays(w, w', seal); }
    forall j | 0 <= j < |w'.sessions| ensures SessionOk(w', w'.sessions[j]) { assert SessionOk(w, w.sessions[j]); }
  }

  lemma {:induction false} InvHolds(worlds: seq<World>, steps: seq<Step>)
    requires IsRun(worlds, steps)
    ensures Inv(worlds[|steps|])
    decreases |steps|
  {
    var n := |steps|;
    if n > 0 {
      InvHolds(worlds[..n], steps[..n - 1]);
      var w, step := worlds[n - 1], steps[n - 1];
      assert Next(w, step, worlds[n - 1 + 1]);
      if step.Connect? { ConnectKeeps(w, step); }
      else if AtClient(step) { ClientSideKeeps(w, step); }
      else if step.GetClientHello? { HelloKeeps(w, step); }
      else { SealedKeeps(w, step); }
    }
  }

  // A client that ever accepted did so with a session the server created from that client's own hello, and
  // while it is Established it holds that session's connection id, not 0, and the mirrored keys.
  lemma ClientAgreement(worlds: seq<World>, steps: seq<Step>, i: nat)
    requires IsRun(worlds, steps) && i < |worlds[|steps|].clients|
    ensures var c := worlds[|steps|].clients[i];
      c.phase == Established ==>
        c.accepted.Some? && c.connId == c.accepted.value.connId != 0 && c.keys == Some(c.accepted.value.keys)
    ensures var w := worlds[|steps|];
      w.clients[i].accepted.Some? ==> exists j :: 0 <= j < |w.sessions| && Agree(w.clients[i], w.sessions[j])
  {
    InvHolds(worlds, steps);
    var w := worlds[|steps|];
    assert ClientOk(w, w.clients[i]);
    if w.clients[i].accepted.Some? {
      var j :| 0 <= j < |w.sessions| && Agree(w.clients[i], w.sessions[j]);
      assert SessionOk(w, w.sessions[j]);
    }
  }

  // A session is Established only when some client accepted the answer built for that session and encrypted
  // its finishing packet under the mirrored key, whatever became of that client since.
  lemma ServerAgreement(worlds: seq<World>, steps: seq<Step>, j: nat)
    requires IsRun(worlds, steps) && j < |worlds[|steps|].sessions| && worlds[|steps|].sessions[j].phase == Established
    ensures var w := worlds[|steps|];
      exists i ::
        && 0 <= i < |w.clients| && Agree(w.clients[i], w.sessions[j])
        && SealedBy(w.clients[i], w.sessions[j].Finish())
  {
    InvHolds(worlds, steps);
    var w := worlds[|steps|];
    var s := w.sessions[j];
    assert SessionOk(w, s) && SealOk(w, s.Finish());
    var i :| 0 <= i < |w.clients| && SealedBy(w.clients[i], s.Finish());
    assert ClientOk(w, w.clients[i]);
    var k :| 0 <= k < |w.sessions| && Agree(w.clients[i], w.sessions[k]);
    assert w.sessions[k].publicKey == s.publicKey;
    assert k == j;
  }

  // Some session is Established and no client is.
  ghost predicate Orphaned(w: World) {
    && (exists j :: 0 <= j < |w.sessions| && w.sessions[j].phase == Established)
    && forall i | 0 <= i < |w.clients| :: w.clients[i].phase != Established
  }

  lemma Extend(worlds: seq<World>, steps: seq<Step>, step: Step, w: World)
    requires IsRun(worlds, steps) && Next(worlds[|steps|], step, w)
    ensures IsRun(worlds + [w], steps + [step])
  {
    var more, list := worlds + [w], steps + [step];
    forall n | 0 <= n < |list| ensures Next(more[n], list[n], more[n + 1]) {
      if n < |steps| { assert Next(worlds[n], steps[n], worlds[n + 1]); }
    }
  }

  // A client connects, is asked to retry, ...
  lemma RetryRun(c: Client, token: RetryToken) returns (worlds: seq<World>, steps: seq<Step>)
    requires Fresh(c) && token.Sized()
    ensures IsRun(worlds, steps) && worlds[|steps|] == World([c.(retry := Some(token))], [], {}, {})
  {
    var w0, w1, w2 := World([], [], {}, {}), World([c], [], {}, {}), World([c.(retry := Some(token))], [], {}, {});
    worlds, steps := [w0], [];
    assert Next(w0, Connect(c), w1);
    Extend(worlds, steps, Connect(c), w1);
    worlds, steps := worlds + [w1], steps + [Connect(c)];
    assert Next(w1, GetRetry(0, token), w2);
    Extend(worlds, steps, GetRetry(0, token), w2);
    worlds, steps := worlds + [w2], steps + [GetRetry(0, token)];
  }

  // ... the server answers its second hello, ...
  lemma AnswerRun(c: Client, token: RetryToken, s: Session) returns (worlds: seq<World>, steps: seq<Step>)
    requires Fresh(c) && token.Sized() && s.connId != 0 && Answer(s, None).Sized()
    requires s == Admit(Offer(c.(retry := Some(token))), false, s.connId, s.publicKey, s.nonce)
    ensures IsRun(worlds, steps)
    ensures worlds[|steps|] == World([c.(retry := Some(token))], [s], {Answer(s, None).mac}, {})
  {
    var c1 := c.(retry := Some(token));
    worlds, steps := RetryRun(c, token);
    var step := GetClientHello(Offer(c1), false, s.connId, s.publicKey, s.nonce, None);
    var w := World([c1], [s], {Answer(s, None).mac}, {});
    assert Next(worlds[|steps|], step, w);
    Extend(worlds, steps, step, w);
    worlds, steps := worlds + [w], steps + [step];
  }

  // ... it accepts, closes, and then its finishing packet arrives.
  lemma CloseRun(worlds: seq<World>, steps: seq<Step>, c: Client, s: Session)
    returns (worlds': seq<World>, steps': seq<Step>)
    requires IsRun(worlds, steps) && c.phase == Handshaking && s.phase == Handshaking
    requires worlds[|steps|] == World([c], [s], {Answer(s, None).mac}, {})
    requires Offer(c) == s.Recorded() && Answer(s, None).Sized()
    ensures IsRun(worlds', steps') && Orphaned(worlds'[|steps'|])
  {
    var h := Answer(s, None);
    var c2 := OnServerHello(c, h, true).0;
    var tags, seals := {h.mac}, {s.Finish()};
    var w4, w5 := World([c2], [s], tags, seals), World([Fail(c2)], [s], tags, seals);
    var w6 := World([Fail(c2)], [s.(phase := Established)], tags, seals);
    assert Next(worlds[|steps|], GetServerHello(0, h, true), w4);
    Extend(worlds, steps, GetServerHello(0, h, true), w4);
    worlds', steps' := worlds + [w4], steps + [GetServerHello(0, h, true)];
    assert Next(w4, LeaveClient(0, Closed), w5);
    Extend(worlds', steps', LeaveClient(0, Closed), w5);
    worlds', steps' := worlds' + [w5], steps' + [LeaveClient(0, Closed)];
    assert Next(w5, GetSealed(0, s.Finish()), w6);
    Extend(worlds', steps', GetSealed(0, s.Finish()), w6);
    worlds', steps' := worlds' + [w6], steps' + [GetSealed(0, s.Finish())];
    assert w6.sessions[0].phase == Established;
  }

  // That client need not be Established any more: it may have closed while its finishing packet was on its way.
  lemma FinishAfterClose(c: Client, token: RetryToken, connId: nat, publicKey: seq<byte>, nonce: seq<byte>)
    requires Fresh(c) && token.Sized() && connId != 0 && ServerHello(connId, publicKey, nonce, (), None).Sized()
    ensures exists worlds: seq<World>, steps: seq<Step> :: IsRun(worlds, steps) && Orphaned(worlds[|steps|])
  {
    var c1 := c.(retry := Some(token));
    var s := Admit(Offer(c1), false, connId, publicKey, nonce);
    var worlds, steps := AnswerRun(c, token, s);
    var worlds', steps' := CloseRun(worlds, steps, c1, s);
  }

  // ---------------------------------------------------------------------- completion

  // The token a hello is admitted by: the resumption token, or the retry token.
  predicate AdmittedBy(hello: ClientHello, resumed: bool) {
    if resumed then hello.resumption.Some? else hello.retry.Some?
  }

  // A session admitted from a client's own offer, by either token, recorded exactly this offer.
  lemma AdmitRecords(c: Client, resumed: bool, connId: nat, publicKey: seq<byte>, nonce: seq<byte>)
    requires AdmittedBy(Offer(c), resumed)
    ensures var s := Admit(Offer(c), resumed, connId, publicKey, nonce);
      s.Recorded() == Offer(c) && s.connId == connId && s.publicKey == publicKey && s.phase == Handshaking
  {
  }

  // The token of the last Retry, whichever came before, is the one a client in its handshake offers next, with its
  // key and nonce and without a resumption token; so a server that admits by it answers this client.
  lemma LastRetryIsOffered(w: World, i: nat, token: RetryToken)
    requires Legal(w, GetRetry(i, token)) && w.clients[i].phase == Handshaking
    ensures var c, c' := w.clients[i], Apply(w, GetRetry(i, token)).clients[i];
      && Offer(c') == ClientHello(c.publicKey, c.nonce, Some(token), None)
      && c'.phase == Handshaking && AdmittedBy(Offer(c'), false)
  {
  }

  // The client accepts the answer to its own offer ...
  lemma OwnAnswerAccepted(c: Client, resumed: bool, connId: nat, publicKey: seq<byte>, nonce: seq<byte>,
                          ticket: Option<ResumptionToken>)
    requires c.phase == Handshaking && AdmittedBy(Offer(c), resumed)
    ensures var s := Admit(Offer(c), resumed, connId, publicKey, nonce);
      var (c', rc) := OnServerHello(c, Answer(s, ticket), true);
      && rc == Ok && c'.phase == Established && c'.connId == connId && c'.saved == ticket && Agree(c', s)
      && c'.keys.Some? && Seal(c'.keys.value.tx, connId) == s.Finish()
  {
    AdmitRecords(c, resumed, connId, publicKey, nonce);
  }

  // ... so that in any world, whatever came before, three deliveries complete a handshake: the client's present offer
  // to the server, the answer to the client, its finishing packet to the session. Both are then established and
  // agree.
  lemma HandshakeCompletes(w: World, i: nat, hello: Step) returns (w1: World, w2: World, w3: World)
    requires hello.GetClientHello? && Legal(w, hello) && i < |w.clients| && w.clients[i].phase == Handshaking
    requires hello.hello == Offer(w.clients[i])
    ensures Next(w, hello, w1) && |w1.sessions| == |w.sessions| + 1
    ensures var j := |w.sessions|;
      && Next(w1, GetServerHello(i, Answer(w1.sessions[j], hello.ticket), true), w2)
      && Next(w2, GetSealed(j, w1.sessions[j].Finish()), w3)
      && |w3.clients| == |w.clients| && |w3.sessions| == j + 1
      && w3.clients[i].phase == w3.sessions[j].phase == Established && Agree(w3.clients[i], w3.sessions[j])
      && w3.clients[i].connId == w3.sessions[j].connId == hello.connId
  {
    var c, j := w.clients[i], |w.sessions|;
    OwnAnswerAccepted(c, hello.resumed, hello.connId, hello.publicKey, hello.nonce, hello.ticket);
    var s := Admit(Offer(c), hello.resumed, hello.connId, hello.publicKey, hello.nonce);
    w1 := Apply(w, hello);
    assert w1.sessions[j] == s && w1.clients == w.clients;
    w2 := Apply(w1, GetServerHello(i, Answer(s, hello.ticket), true));
    assert w2.sessions == w1.sessions && w2.clients[i] == OnServerHello(c, Answer(s, hello.ticket), true).0;
    w3 := Apply(w2, GetSealed(j, s.Finish()));
    assert w3.clients == w2.clients;
  }

  // In every run an encrypted packet establishes a session in its handshake exactly when a client that agrees with it
  // sealed it; the same packet does nothing more to it later, and one from anyone else ends a session that is not
  // closed.
  lemma SealedMoves(worlds: seq<World>, steps: seq<Step>, j: nat, seal: Seal)
    requires IsRun(worlds, steps) && Legal(worlds[|steps|], GetSealed(j, seal))
    ensures var w := worlds[|steps|];
      var s, s' := w.sessions[j], Apply(w, GetSealed(j, seal)).sessions[j];
      var ours := exists i :: 0 <= i < |w.clients| && SealedBy(w.clients[i], seal) && Agree(w.clients[i], s);
      s' == s.(phase := if ours then (if s.phase == Handshaking then Established else s.phase)
                        else if s.phase == Closed then Closed else Closing)
  {
    InvHolds(worlds, steps);
    var w := worlds[|steps|];
    var i :| 0 <= i < |w.clients| && SealedBy(w.clients[i], seal);
    OwnSeal(w, i, j, seal);
  }

  lemma OwnSeal(w: World, i: nat, j: nat, seal: Seal)
    requires Inv(w) && i < |w.clients| && j < |w.sessions| && SealedBy(w.clients[i], seal)
    ensures seal == w.sessions[j].Finish() <==>
      exists i :: 0 <= i < |w.clients| && SealedBy(w.clients[i], seal) && Agree(w.clients[i], w.sessions[j])
  {
    var c, s := w.clients[i], w.sessions[j];
    assert ClientOk(w, c);
    var k :| 0 <= k < |w.sessions| && Agree(c, w.sessions[k]);
    assert k != j ==> w.sessions[k].publicKey != s.publicKey;
  }

  // No two clients share a session, and no client agrees with two.
  lemma AgreementIsOneToOne(worlds: seq<World>, steps: seq<Step>, i: nat, i': nat, j: nat, j': nat)
    requires IsRun(worlds, steps)
    requires var w := worlds[|steps|];
      && i < |w.clients| && i' < |w.clients| && j < |w.sessions| && j' < |w.sessions|
      && Agree(w.clients[i], w.sessions[j]) && Agree(w.clients[i'], w.sessions[j'])
    ensures i == i' <==> j == j'
  {
    InvHolds(worlds, steps);
    var w := worlds[|steps|];
    assert i != i' ==> w.clients[i].publicKey != w.clients[i'].publicKey;
    assert j != j' ==> w.sessions[j].publicKey != w.sessions[j'].publicKey;
  }
}
