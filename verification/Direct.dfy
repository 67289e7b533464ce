/**
  Direct sessions: the signed key exchange and the password exchange
  (crates/rivetlink-sdk/src/direct.rs), as functions of what the stream delivers.

  Signatures are ideal: a signature verifies exactly when that key signed that message. The
  field hash is any function to 32 bytes; results that rest on it name the collision that
  would break them.
 */
module Direct {
  import opened Common
  import opened Bytes
  import opened Crypto
  import opened Transcripts
  import Base64
  import opened Sealed

  const MAX_FRAME := 16 * 1024
  const ENCAPSULATION_KEY_LEN := 1184
  const CIPHERTEXT_LEN := 1088
  const CONFIRM_TOKEN: seq<byte> := Ascii("rivetlink-direct-confirm-v1")

  // ---- who signed what ----

  /** Everything one identity key signs, here and in the relay protocols. */
  datatype Signing =
    | HostHello(key: seq<byte>, version: nat, client: KexFields, pq: Option<seq<byte>>, eph: seq<byte>)
    | ClientHello(key: seq<byte>, version: nat, pq: Option<seq<byte>>, eph: seq<byte>)
    | RelayKex(key: seq<byte>, session: seq<byte>, role: seq<byte>, identity: seq<byte>, eph: seq<byte>)
    | DeviceAuth(key: seq<byte>, device: seq<byte>, nonce: seq<byte>)

  const RELAY_DOMAIN: seq<byte> := Ascii("rivetlink-relay-v2")
  const DEVICE_AUTH_DOMAIN: seq<byte> := Ascii("rivetlink-relay-device-auth-v2")

  type Hash = h: seq<byte> -> seq<byte> | forall x :: |h(x)| == 32 witness (x: seq<byte>) => BigEndian(0, 32)

  function HostBinding(h: Hash, key: seq<byte>, version: nat, client: KexFields, pq: Option<seq<byte>>): seq<byte> {
    HostKexBinding(version, key, h(ClientFields(client)), pq)
  }

  function Message(h: Hash, s: Signing): seq<byte> {
    match s
    case HostHello(key, version, client, pq, eph) => SignatureMessage(HostBinding(h, key, version, client, pq), eph)
    case ClientHello(key, version, pq, eph) => SignatureMessage(ClientKexBinding(version, key, pq), eph)
    case RelayKex(key, session, role, identity, eph) => SignatureMessage(RELAY_DOMAIN + session + role + identity, eph)
    case DeviceAuth(key, device, nonce) => DEVICE_AUTH_DOMAIN + BigEndian(2, 2) + device + nonce
  }

  datatype Signed = Signed(what: Signing, signature: seq<byte>)

  predicate Verifies(h: Hash, log: seq<Signed>, key: seq<byte>, message: seq<byte>, signature: seq<byte>) {
    exists s | s in log :: s.what.key == key && s.signature == signature && Message(h, s.what) == message
  }

  /** Both sides sign only what passed the version check; lengths fit a 64-bit count. */
  predicate Honest(h: Hash, s: Signing) {
    && |Message(h, s)| < U64
    && match s
       case HostHello(key, version, client, pq, eph) =>
         && RequireVersion(version, client.pq) && RequireVersion(version, pq)
         && |key| == 32 && AddressableFields(client) && AddressableOption(pq)
       case ClientHello(key, version, pq, eph) => RequireVersion(version, pq) && |key| == 32 && AddressableOption(pq)
       case _ => true
  }

  predicate HonestLog(h: Hash, log: seq<Signed>) {
    forall s | s in log :: Honest(h, s.what)
  }

  // ---- messages and failures ----

  datatype IoKind = UnexpectedEof | ConnectionReset | ConnectionAborted | BrokenPipe | OtherIo

  datatype SdkError = Io(kind: IoKind) | Refused

  datatype Wire =
    | Pake(v: nat, msg: seq<byte>, pq: Option<seq<byte>>)
    | Kex(v: nat, fields: KexFields)
    | Confirm(sealed: seq<byte>)
    | Reject

  /** `read_msg` refuses longer frames. */
  predicate FitsFrame(k: KexFields) {
    |k.eph| <= MAX_FRAME && |k.id| <= MAX_FRAME && |k.sig| <= MAX_FRAME && (k.pq.Some? ==> |k.pq.value| <= MAX_FRAME)
  }

  /** What `read_msg` gives: a message, a frame that is no message, or an I/O failure. */
  datatype Reading = Got(wire: Wire) | Garbled | Fails(kind: IoKind)

  /** What happens to the two writes and two reads of a client. */
  datatype Script = Script(hello: Option<IoKind>, answer: Reading, confirm: Option<IoKind>, confirmation: Reading)

  // ---- the key exchange ----

  /** What a client brings: its identity, its ephemeral key and signature over its hello, and
      its ML-KEM key when it runs the hybrid handshake. */
  datatype Client = Client(identity: seq<byte>, eph: seq<byte>, signature: seq<byte>, kem: Option<seq<byte>>) {
    function Version(): nat {
      VersionOf(kem)
    }

    function Hello(): KexFields {
      KexFields(Base64.Encode(eph), Base64.Encode(identity), Base64.Encode(signature), Encoded(kem))
    }
  }

  function VersionOf(kem: Option<seq<byte>>): nat {
    if kem.Some? then HYBRID_VERSION else CLASSIC_VERSION
  }

  function Encoded(kem: Option<seq<byte>>): Option<seq<byte>> {
    if kem.Some? then Some(Base64.Encode(kem.value)) else None
  }

  /** `ClientPq::finish`: the answer must be in the version asked for, and its ciphertext is
      decapsulated. `None` is a refusal. */
  function FinishPq(kem: Option<seq<byte>>, version: nat, ciphertext: Option<seq<byte>>): Option<Option<KemSecret>> {
    if !RequireVersion(version, ciphertext) then None
    else if kem.None? && ciphertext.None? then Some(None)
    else if kem.Some? && ciphertext.Some? then
      var raw := Base64.Decode(Base64.Trim(ciphertext.value));
      if raw.Some? && |raw.value| == CIPHERTEXT_LEN then Some(Some(MlKem(kem.value, raw.value))) else None
    else None
  }

  function Combine(kem: Option<KemSecret>, classical: Secret): Secret {
    if kem.Some? then Hybrid(kem.value, classical) else classical
  }

  function OpenToken(c: Channel, r: Reading, aead: seq<Sealing>): Option<Channel> {
    if !r.Got? || !r.wire.Confirm? then None
    else
      var raw := Base64.Decode(Base64.Trim(r.wire.sealed));
      if raw.None? then None
      else
        var o := Open(c, raw.value, aead);
        if o.r == Ok(CONFIRM_TOKEN) then Some(o.c) else None
  }

  /** Sealing the confirmation token is the first use of a new channel. */
  function TokenSent(c: Channel): Channel {
    c.(nextSend := 1)
  }

  function ClientKeyChannel(me: Client, v: nat, host: KexFields): Option<Channel> {
    var hostEph := Base64.DecodeN(host.eph, 32);
    var kem := FinishPq(me.kem, v, host.pq);
    if hostEph.None? || kem.None? then None
    else Some(FromHandshakeSecret(Combine(kem.value, X25519({me.eph, hostEph.value})),
                                  KexTranscript(me.Version(), me.Hello(), host), Initiator))
  }

  /** The checks on the host's decoded answer. */
  predicate AcceptsAnswer(h: Hash, log: seq<Signed>, pinned: seq<byte>, v: nat, hello: KexFields, pq: Option<seq<byte>>,
                          id: Option<seq<byte>>, eph: Option<seq<byte>>, signature: Option<seq<byte>>)
  {
    && RequireVersion(v, pq) && id == Some(pinned) && eph.Some? && signature.Some?
    && Verifies(h, log, pinned, SignatureMessage(HostBinding(h, pinned, v, hello, pq), eph.value), signature.value)
  }

  /** The signature is checked before the ciphertext is touched. */
  function ClientDerive(h: Hash, log: seq<Signed>, me: Client, pinned: seq<byte>, v: nat, host: KexFields): Option<Channel> {
    if AcceptsAnswer(h, log, pinned, v, me.Hello(), host.pq,
                     Base64.DecodeN(host.id, 32), Base64.DecodeN(host.eph, 32), Base64.DecodeN(host.sig, 64))
    then ClientKeyChannel(me, v, host) else None
  }

  /** From here on a closed connection is a failed handshake, not an old host. */
  function ClientConfirm(c: Option<Channel>, script: Script, aead: seq<Sealing>): Result<Channel, SdkError> {
    if c.None? || script.confirm.Some? then Err(Refused)
    else
      var confirmed := OpenToken(TokenSent(c.value), script.confirmation, aead);
      if confirmed.None? then Err(Refused) else Ok(confirmed.value)
  }

  /** `client_connect_key`. */
  function ClientConnectKey(h: Hash, log: seq<Signed>, aead: seq<Sealing>, me: Client, pinned: Option<seq<byte>>, script: Script)
    : Result<Channel, SdkError>
  {
    if pinned.None? then Err(Refused)
    else if script.hello.Some? then Err(Io(script.hello.value))
    else if script.answer.Fails? then Err(Io(script.answer.kind))
    else if script.answer.Garbled? || !script.answer.wire.Kex? then Err(Refused)
    else ClientConfirm(ClientDerive(h, log, me, pinned.value, script.answer.wire.v, script.answer.wire.fields), script, aead)
  }

  /** What a host brings; `ciphertext` is what encapsulating to the client's key yields. */
  datatype Host = Host(identity: seq<byte>, eph: seq<byte>, signature: seq<byte>, ciphertext: seq<byte>) {
    function Answer(client: KexFields): KexFields {
      KexFields(Base64.Encode(eph), Base64.Encode(identity), Base64.Encode(signature), Answered(ciphertext, client.pq))
    }
  }

  function Answered(ciphertext: seq<byte>, pq: Option<seq<byte>>): Option<seq<byte>> {
    if pq.Some? then Some(Base64.Encode(ciphertext)) else None
  }

  /** `host_pq`: a secret shared with whoever holds the client's key; a key of the wrong size
      is refused. */
  function Encapsulated(ciphertext: seq<byte>, pq: Option<seq<byte>>): Option<Option<KemSecret>> {
    if pq.None? then Some(None)
    else
      var raw := Base64.Decode(Base64.Trim(pq.value));
      if raw.Some? && |raw.value| == ENCAPSULATION_KEY_LEN then Some(Some(MlKem(raw.value, ciphertext))) else None
  }

  function HostKeyChannel(me: Host, v: nat, client: KexFields): Option<Channel> {
    var clientEph := Base64.DecodeN(client.eph, 32);
    var kem := Encapsulated(me.ciphertext, client.pq);
    if !RequireVersion(v, client.pq) || clientEph.None? || kem.None? then None
    else Some(FromHandshakeSecret(Combine(kem.value, X25519({me.eph, clientEph.value})),
                                  KexTranscript(v, client, me.Answer(client)), Responder))
  }

  /** The host's checks on a client's hello; `trust` is the caller's decision on its identity. */
  function HostDerive(h: Hash, log: seq<Signed>, me: Host, trust: bool, v: nat, client: KexFields): Option<Channel> {
    if AcceptsHello(h, log, v, client.pq, Base64.DecodeN(client.id, 32), Base64.DecodeN(client.eph, 32), Base64.DecodeN(client.sig, 64)) && trust
    then HostKeyChannel(me, v, client) else None
  }

  predicate AcceptsHello(h: Hash, log: seq<Signed>, v: nat, pq: Option<seq<byte>>,
                         id: Option<seq<byte>>, eph: Option<seq<byte>>, signature: Option<seq<byte>>)
  {
    && RequireVersion(v, pq) && id.Some? && eph.Some? && signature.Some?
    && Verifies(h, log, id.value, SignatureMessage(ClientKexBinding(v, id.value, pq), eph.value), signature.value)
  }

  /** What happens to the answer's write, the confirmation's read and the confirmation's write. */
  datatype HostScript = HostScript(answer: Option<IoKind>, confirmation: Reading, confirm: Option<IoKind>)

  /** Both host modes end the same way: answer, check the client's token, send one. */
  function HostConfirm(c: Option<Channel>, script: HostScript, aead: seq<Sealing>): Result<Channel, SdkError> {
    if c.None? then Err(Refused)
    else if script.answer.Some? then Err(Io(script.answer.value))
    else if script.confirmation.Fails? then Err(Io(script.confirmation.kind))
    else
      var confirmed := OpenToken(c.value, script.confirmation, aead);
      if confirmed.None? then Err(Refused)
      else if script.confirm.Some? then Err(Io(script.confirm.value))
      else Ok(TokenSent(confirmed.value))
  }

  /** `host_key_continue`. */
  function HostAcceptKey(h: Hash, log: seq<Signed>, aead: seq<Sealing>, me: Host, trust: bool, v: nat, client: KexFields, script: HostScript)
    : Result<Channel, SdkError>
  {
    HostConfirm(HostDerive(h, log, me, trust, v, client), script, aead)
  }

  // ---- the password exchange ----

  /** `mine` is this side's SPAKE2 message, `msg` and `pq` what arrived. */
  function ClientPasswordChannel(password: seq<byte>, mine: seq<byte>, kem: Option<seq<byte>>, v: nat, msg: seq<byte>, pq: Option<seq<byte>>)
    : Option<Channel>
  {
    var secret := FinishPq(kem, v, pq);
    var theirs := Base64.Decode(Base64.Trim(msg));
    if secret.None? || theirs.None? then None
    else Some(FromHandshakeSecret(Combine(secret.value, Spake2(password, {mine, theirs.value})),
                                  PakeTranscript(VersionOf(kem), mine, theirs.value, Encoded(kem), pq), Initiator))
  }

  function HostPasswordChannel(password: seq<byte>, mine: seq<byte>, ciphertext: seq<byte>, v: nat, msg: seq<byte>, pq: Option<seq<byte>>)
    : Option<Channel>
  {
    var secret := Encapsulated(ciphertext, pq);
    var theirs := Base64.Decode(Base64.Trim(msg));
    if !RequireVersion(v, pq) || secret.None? || theirs.None? then None
    else Some(FromHandshakeSecret(Combine(secret.value, Spake2(password, {theirs.value, mine})),
                                  PakeTranscript(v, theirs.value, mine, pq, Answered(ciphertext, pq)), Responder))
  }

  /** `client_connect_password`. */
  function ClientConnectPassword(aead: seq<Sealing>, password: seq<byte>, mine: seq<byte>, kem: Option<seq<byte>>, script: Script)
    : Result<Channel, SdkError>
  {
    if script.hello.Some? then Err(Io(script.hello.value))
    else if script.answer.Fails? then Err(Io(script.answer.kind))
    else if script.answer.Garbled? || !script.answer.wire.Pake? then Err(Refused)
    else ClientConfirm(ClientPasswordChannel(password, mine, kem, script.answer.wire.v, script.answer.wire.msg, script.answer.wire.pq),
                       script, aead)
  }

  /** `host_accept_password` once the client's message has been read. */
  function HostAcceptPassword(aead: seq<Sealing>, password: seq<byte>, mine: seq<byte>, ciphertext: seq<byte>,
                              v: nat, msg: seq<byte>, pq: Option<seq<byte>>, script: HostScript)
    : Result<Channel, SdkError>
  {
    HostConfirm(HostPasswordChannel(password, mine, ciphertext, v, msg, pq), script, aead)
  }

  // ---- agreement ----

  predicate Collision(h: Hash, a: KexFields, b: KexFields) {
    ClientFields(a) != ClientFields(b) && h(ClientFields(a)) == h(ClientFields(b))
  }

  // Byte 10 tells the domains apart.

  lemma DeviceAuthIsNoKex(device: seq<byte>, nonce: seq<byte>, binding: seq<byte>, eph: seq<byte>)
    ensures DEVICE_AUTH_DOMAIN + BigEndian(2, 2) + device + nonce != SignatureMessage(binding, eph)
  {
    assert "rivetlink-relay-device-auth-v2"[10] == 'r' && "rivetlink-authenticated-kex-v2"[10] == 'a';
    assert (DEVICE_AUTH_DOMAIN + BigEndian(2, 2) + device + nonce)[10] == DEVICE_AUTH_DOMAIN[10];
    assert SignatureMessage(binding, eph)[10] == SIGNATURE_DOMAIN[10];
  }

  lemma RelayIsNotDirect(session: seq<byte>, role: seq<byte>, identity: seq<byte>, version: nat, kind: Kind, fields: seq<seq<byte>>)
    ensures RELAY_DOMAIN + session + role + identity != Tagged(version, kind, fields)
  {
    assert "rivetlink-relay-v2"[10] == 'r' && "rivetlink-direct-v2"[10] == 'd';
    assert (RELAY_DOMAIN + session + role + identity)[10] == RELAY_DOMAIN[10];
    assert Tagged(version, kind, fields)[10] == DIRECT_DOMAIN[10];
  }

  lemma FieldsCons(a: seq<byte>, rest: seq<seq<byte>>)
    ensures Fields([a] + rest) == Field(a) + Fields(rest)
  {
    assert ([a] + rest)[1..] == rest;
  }

  lemma KeyFieldLength(key: seq<byte>, rest: seq<seq<byte>>)
    requires |key| == 32
    ensures |Fields([key] + rest)| == 40 + |Fields(rest)|
  {
    FieldsCons(key, rest);
  }

  lemma GivenLength(pq: Option<seq<byte>>)
    requires pq.Some? ==> |pq.value| <= MAX_FRAME
    ensures |Fields(Given(pq))| <= 8 + MAX_FRAME
  {
    if pq.Some? {
      assert Given(pq) == [pq.value] + [];
      FieldsCons(pq.value, []);
    }
  }

  lemma HostBindingLength(version: nat, key: seq<byte>, hash: seq<byte>, pq: Option<seq<byte>>)
    requires |key| == 32 && |hash| == 32 && (pq.Some? ==> |pq.value| <= MAX_FRAME)
    ensures Addressable1(HostKexBinding(version, key, hash, pq))
  {
    assert [key, hash] + Given(pq) == [key] + ([hash] + Given(pq));
    KeyFieldLength(key, [hash] + Given(pq));
    KeyFieldLength(hash, Given(pq));
    GivenLength(pq);
  }

  lemma ClientBindingLength(version: nat, key: seq<byte>, pq: Option<seq<byte>>)
    requires |key| == 32 && (pq.Some? ==> |pq.value| <= MAX_FRAME)
    ensures Addressable1(ClientKexBinding(version, key, pq))
  {
    KeyFieldLength(key, Given(pq));
    GivenLength(pq);
  }

  lemma KindsAreSignedApart(version: nat, a: Kind, x: seq<seq<byte>>, e: seq<byte>, v: nat, b: Kind, y: seq<seq<byte>>, eph: seq<byte>)
    requires a != b && version < 65536 && v < 65536 && Addressable(x) && Addressable(y)
    requires Addressable1(Tagged(version, a, x)) && Addressable1(Tagged(v, b, y))
    ensures SignatureMessage(Tagged(version, a, x), e) != SignatureMessage(Tagged(v, b, y), eph)
  {
    if SignatureMessage(Tagged(version, a, x), e) == SignatureMessage(Tagged(v, b, y), eph) {
      SignatureMessageInjective(Tagged(version, a, x), e, Tagged(v, b, y), eph);
      TaggedInjective(version, a, x, v, b, y);
      assert false;
    }
  }

  lemma RelayIsSignedApart(session: seq<byte>, role: seq<byte>, identity: seq<byte>, e: seq<byte>,
                           v: nat, kind: Kind, fields: seq<seq<byte>>, eph: seq<byte>)
    requires Addressable1(RELAY_DOMAIN + session + role + identity) && Addressable1(Tagged(v, kind, fields))
    ensures SignatureMessage(RELAY_DOMAIN + session + role + identity, e) != SignatureMessage(Tagged(v, kind, fields), eph)
  {
    RelayIsNotDirect(session, role, identity, v, kind, fields);
    if SignatureMessage(RELAY_DOMAIN + session + role + identity, e) == SignatureMessage(Tagged(v, kind, fields), eph) {
      SignatureMessageInjective(RELAY_DOMAIN + session + role + identity, e, Tagged(v, kind, fields), eph);
      assert false;
    }
  }

  lemma HelloIsNoAnswer(version: nat, k: seq<byte>, p: Option<seq<byte>>, e: seq<byte>,
                        v: nat, key: seq<byte>, hash: seq<byte>, pq: Option<seq<byte>>, eph: seq<byte>)
    requires RequireVersion(version, p) && |k| == 32 && AddressableOption(p) && Addressable1(ClientKexBinding(version, k, p))
    requires RequireVersion(v, pq) && |key| == 32 && |hash| == 32 && AddressableOption(pq) && Addressable1(HostKexBinding(v, key, hash, pq))
    ensures SignatureMessage(ClientKexBinding(version, k, p), e) != SignatureMessage(HostKexBinding(v, key, hash, pq), eph)
  {
    KindsAreSignedApart(version, ClientKex, [k] + Given(p), e, v, HostKex, [key, hash] + Given(pq), eph);
  }

  lemma RelayIsNoAnswer(session: seq<byte>, role: seq<byte>, identity: seq<byte>, e: seq<byte>,
                        v: nat, key: seq<byte>, hash: seq<byte>, pq: Option<seq<byte>>, eph: seq<byte>)
    requires Addressable1(RELAY_DOMAIN + session + role + identity) && Addressable1(HostKexBinding(v, key, hash, pq))
    ensures SignatureMessage(RELAY_DOMAIN + session + role + identity, e) != SignatureMessage(HostKexBinding(v, key, hash, pq), eph)
  {
    RelayIsSignedApart(session, role, identity, e, v, HostKex, [key, hash] + Given(pq), eph);
  }

  lemma RelayIsNoHello(session: seq<byte>, role: seq<byte>, identity: seq<byte>, e: seq<byte>,
                       v: nat, key: seq<byte>, pq: Option<seq<byte>>, eph: seq<byte>)
    requires Addressable1(RELAY_DOMAIN + session + role + identity) && Addressable1(ClientKexBinding(v, key, pq))
    ensures SignatureMessage(RELAY_DOMAIN + session + role + identity, e) != SignatureMessage(ClientKexBinding(v, key, pq), eph)
  {
    RelayIsSignedApart(session, role, identity, e, v, ClientKex, [key] + Given(pq), eph);
  }

  lemma SameAnswer(version: nat, k: seq<byte>, x: seq<byte>, p: Option<seq<byte>>, e: seq<byte>,
                   v: nat, key: seq<byte>, hash: seq<byte>, pq: Option<seq<byte>>, eph: seq<byte>)
    requires RequireVersion(version, p) && |k| == 32 && |x| == 32 && AddressableOption(p) && Addressable1(HostKexBinding(version, k, x, p))
    requires RequireVersion(v, pq) && |key| == 32 && |hash| == 32 && (pq.Some? ==> |pq.value| <= MAX_FRAME)
    requires SignatureMessage(HostKexBinding(version, k, x, p), e) == SignatureMessage(HostKexBinding(v, key, hash, pq), eph)
    ensures (version, k, x, p, e) == (v, key, hash, pq, eph)
  {
    HostBindingLength(v, key, hash, pq);
    SignatureMessageInjective(HostKexBinding(version, k, x, p), e, HostKexBinding(v, key, hash, pq), eph);
    HostKexBindingInjective(version, k, x, p, v, key, hash, pq);
  }

  lemma BindingIsShorter(binding: seq<byte>, eph: seq<byte>)
    ensures |binding| <= |SignatureMessage(binding, eph)|
  {
  }

  /** A message that reads as a host's answer was signed as one, with the same content. */
  lemma AnswersAreUnambiguous(h: Hash, s: Signing, key: seq<byte>, v: nat, hash: seq<byte>, pq: Option<seq<byte>>, eph: seq<byte>)
    requires Honest(h, s) && RequireVersion(v, pq) && |key| == 32 && |hash| == 32 && (pq.Some? ==> |pq.value| <= MAX_FRAME)
    requires Message(h, s) == SignatureMessage(HostKexBinding(v, key, hash, pq), eph)
    ensures s.HostHello? && s.version == v && s.key == key && s.pq == pq && s.eph == eph
    ensures h(ClientFields(s.client)) == hash
  {
    HostBindingLength(v, key, hash, pq);
    match s {
      case HostHello(k, version, client, p, e) =>
        BindingIsShorter(HostKexBinding(version, k, h(ClientFields(client)), p), e);
        SameAnswer(version, k, h(ClientFields(client)), p, e, v, key, hash, pq, eph);
      case ClientHello(k, version, p, e) =>
        BindingIsShorter(ClientKexBinding(version, k, p), e);
        HelloIsNoAnswer(version, k, p, e, v, key, hash, pq, eph);
      case RelayKex(k, session, role, identity, e) =>
        BindingIsShorter(RELAY_DOMAIN + session + role + identity, e);
        RelayIsNoAnswer(session, role, identity, e, v, key, hash, pq, eph);
      case DeviceAuth(k, device, nonce) =>
        DeviceAuthIsNoKex(device, nonce, HostKexBinding(v, key, hash, pq), eph);
    }
  }

  lemma SameHello(version: nat, k: seq<byte>, p: Option<seq<byte>>, e: seq<byte>, v: nat, key: seq<byte>, pq: Option<seq<byte>>, eph: seq<byte>)
    requires RequireVersion(version, p) && |k| == 32 && AddressableOption(p) && Addressable1(ClientKexBinding(version, k, p))
    requires RequireVersion(v, pq) && |key| == 32 && (pq.Some? ==> |pq.value| <= MAX_FRAME)
    requires SignatureMessage(ClientKexBinding(version, k, p), e) == SignatureMessage(ClientKexBinding(v, key, pq), eph)
    ensures (version, k, p, e) == (v, key, pq, eph)
  {
    ClientBindingLength(v, key, pq);
    SignatureMessageInjective(ClientKexBinding(version, k, p), e, ClientKexBinding(v, key, pq), eph);
    ClientKexBindingInjective(version, k, p, v, key, pq);
  }

  /** A message that reads as a client's hello was signed as one, with the same content. */
  lemma HellosAreUnambiguous(h: Hash, s: Signing, key: seq<byte>, v: nat, pq: Option<seq<byte>>, eph: seq<byte>)
    requires Honest(h, s) && RequireVersion(v, pq) && |key| == 32 && (pq.Some? ==> |pq.value| <= MAX_FRAME)
    requires Message(h, s) == SignatureMessage(ClientKexBinding(v, key, pq), eph)
    ensures s == ClientHello(key, v, pq, eph)
  {
    ClientBindingLength(v, key, pq);
    match s {
      case HostHello(k, version, client, p, e) =>
        var hash := h(ClientFields(client));
        BindingIsShorter(HostKexBinding(version, k, hash, p), e);
        HelloIsNoAnswer(v, key, pq, eph, version, k, hash, p, e);
      case ClientHello(k, version, p, e) =>
        BindingIsShorter(ClientKexBinding(version, k, p), e);
        SameHello(version, k, p, e, v, key, pq, eph);
      case RelayKex(k, session, role, identity, e) =>
        BindingIsShorter(RELAY_DOMAIN + session + role + identity, e);
        RelayIsNoHello(session, role, identity, e, v, key, pq, eph);
      case DeviceAuth(k, device, nonce) =>
        DeviceAuthIsNoKex(device, nonce, ClientKexBinding(v, key, pq), eph);
    }
  }

  /** `s` is the pinned host answering `hello` with this version, ciphertext and ephemeral key. */
  predicate AnswersHello(h: Hash, s: Signing, pinned: seq<byte>, v: nat, hello: KexFields, pq: Option<seq<byte>>, eph: seq<byte>) {
    && s.HostHello? && s.key == pinned && s.version == v && s.pq == pq && s.eph == eph
    && (s.client == hello || Collision(h, s.client, hello))
  }

  /** The pinned host signed an answer to this client's hello with the content of `host`. */
  predicate Agreed(h: Hash, log: seq<Signed>, me: Client, pinned: seq<byte>, host: KexFields) {
    && Base64.DecodeN(host.eph, 32).Some?
    && exists s | s in log :: AnswersHello(h, s.what, pinned, me.Version(), me.Hello(), host.pq, Base64.DecodeN(host.eph, 32).value)
  }

  lemma AnswerWasSigned(h: Hash, log: seq<Signed>, pinned: seq<byte>, v: nat, hello: KexFields, pq: Option<seq<byte>>, eph: seq<byte>, signature: seq<byte>)
    requires HonestLog(h, log) && AddressableFields(hello) && RequireVersion(v, pq) && |pinned| == 32 && (pq.Some? ==> |pq.value| <= MAX_FRAME)
    requires Verifies(h, log, pinned, SignatureMessage(HostBinding(h, pinned, v, hello, pq), eph), signature)
    ensures exists s | s in log :: AnswersHello(h, s.what, pinned, v, hello, pq, eph)
  {
    var hash := h(ClientFields(hello));
    var s :| s in log && s.what.key == pinned && Message(h, s.what) == SignatureMessage(HostKexBinding(v, pinned, hash, pq), eph);
    AnswersAreUnambiguous(h, s.what, pinned, v, hash, pq, eph);
    if ClientFields(s.what.client) == ClientFields(hello) {
      ClientFieldsInjective(s.what.client, hello);
    }
    assert AnswersHello(h, s.what, pinned, v, hello, pq, eph);
  }

  /** If the client gets as far as a channel, the holder of the pinned key answered exactly
      this hello, in this version, with the ephemeral key and ciphertext the client uses. The
      only other way is a collision of the field hash. */
  lemma AnswerIsForThisHello(h: Hash, log: seq<Signed>, me: Client, pinned: seq<byte>, v: nat, host: KexFields)
    requires HonestLog(h, log) && AddressableFields(me.Hello()) && FitsFrame(host)
    requires ClientDerive(h, log, me, pinned, v, host).Some?
    ensures v == me.Version() && Agreed(h, log, me, pinned, host)
  {
    var eph := Base64.DecodeN(host.eph, 32).value;
    var signature := Base64.DecodeN(host.sig, 64).value;
    assert |pinned| == 32 && RequireVersion(v, host.pq);
    AnswerWasSigned(h, log, pinned, v, me.Hello(), host.pq, eph, signature);
  }

  lemma TokenOpens(c: Channel, r: Reading, aead: seq<Sealing>)
    ensures OpenToken(c, r, aead).Some? ==> OpenToken(c, r, aead).value == c.(nextRecv := c.nextRecv + 1)
  {
    if OpenToken(c, r, aead).Some? {
      OpenChangesOnlyOnSuccess(c, Base64.Decode(Base64.Trim(r.wire.sealed)).value, aead);
    }
  }

  lemma KeyChannelIsFresh(me: Client, v: nat, host: KexFields)
    requires ClientKeyChannel(me, v, host).Some?
    ensures var c := ClientKeyChannel(me, v, host).value;
            && c.nextSend == 0 && c.nextRecv == 0 && (c.sendKey.ikm.Hybrid? <==> me.kem.Some?)
            && c.binding == Sha256(KexTranscript(me.Version(), me.Hello(), host))
  {
  }

  lemma ClientConfirmed(c: Option<Channel>, script: Script, aead: seq<Sealing>, d: Channel)
    requires ClientConfirm(c, script, aead) == Ok(d)
    ensures c.Some? && d == c.value.(nextSend := 1, nextRecv := c.value.nextRecv + 1)
  {
    TokenOpens(TokenSent(c.value), script.confirmation, aead);
  }

  /** `d` has sealed and opened `n` records, is hybrid exactly for a hybrid client and bound to
      the whole exchange. */
  predicate Bound(me: Client, host: KexFields, d: Channel, n: nat) {
    && d.nextSend == n && d.nextRecv == n && (d.sendKey.ikm.Hybrid? <==> me.kem.Some?)
    && d.binding == Sha256(KexTranscript(me.Version(), me.Hello(), host))
  }

  lemma DerivedClient(h: Hash, log: seq<Signed>, me: Client, pinned: seq<byte>, v: nat, host: KexFields)
    ensures var d := ClientDerive(h, log, me, pinned, v, host);
            d.Some? ==> Bound(me, host, d.value, 0)
  {
    if ClientKeyChannel(me, v, host).Some? {
      KeyChannelIsFresh(me, v, host);
    }
  }

  /** A connect that succeeds has read an answer and derived a channel from it. */
  lemma ConnectedClientRead(h: Hash, log: seq<Signed>, aead: seq<Sealing>, me: Client, pinned: Option<seq<byte>>, script: Script)
    requires ClientConnectKey(h, log, aead, me, pinned, script).Ok?
    ensures pinned.Some? && script.answer.Got? && script.answer.wire.Kex?
    ensures ClientConnectKey(h, log, aead, me, pinned, script)
            == ClientConfirm(ClientDerive(h, log, me, pinned.value, script.answer.wire.v, script.answer.wire.fields), script, aead)
  {
  }

  lemma ConnectedClientDerived(h: Hash, log: seq<Signed>, aead: seq<Sealing>, me: Client, pinned: Option<seq<byte>>, script: Script, c: Channel)
    returns (d: Channel)
    requires ClientConnectKey(h, log, aead, me, pinned, script) == Ok(c)
    ensures pinned.Some? && script.answer.Got? && script.answer.wire.Kex?
    ensures ClientDerive(h, log, me, pinned.value, script.answer.wire.v, script.answer.wire.fields) == Some(d)
    ensures c == d.(nextSend := 1, nextRecv := d.nextRecv + 1)
  {
    ConnectedClientRead(h, log, aead, me, pinned, script);
    var derived := ClientDerive(h, log, me, pinned.value, script.answer.wire.v, script.answer.wire.fields);
    ClientConfirmed(derived, script, aead, c);
    d := derived.value;
  }

  lemma ConfirmedIsBound(d: Option<Channel>, me: Client, host: KexFields, script: Script, aead: seq<Sealing>, c: Channel)
    requires ClientConfirm(d, script, aead) == Ok(c) && (d.Some? ==> Bound(me, host, d.value, 0))
    ensures Bound(me, host, c, 1)
  {
    ClientConfirmed(d, script, aead, c);
  }

  /** A connected client has confirmed its key, which is hybrid exactly for a hybrid client and
      bound to the whole exchange. */
  lemma ConnectedClientIsBound(h: Hash, log: seq<Signed>, aead: seq<Sealing>, me: Client, pinned: Option<seq<byte>>, script: Script, c: Channel)
    requires ClientConnectKey(h, log, aead, me, pinned, script) == Ok(c)
    ensures pinned.Some? && script.answer.Got? && script.answer.wire.Kex?
    ensures Bound(me, script.answer.wire.fields, c, 1)
  {
    ConnectedClientRead(h, log, aead, me, pinned, script);
    var v, host := script.answer.wire.v, script.answer.wire.fields;
    DerivedClient(h, log, me, pinned.value, v, host);
    ConfirmedIsBound(ClientDerive(h, log, me, pinned.value, v, host), me, host, script, aead, c);
  }

  /** Success means the holder of the pinned key answered exactly this hello. */
  lemma ConnectedClientAgrees(h: Hash, log: seq<Signed>, aead: seq<Sealing>, me: Client, pinned: Option<seq<byte>>, script: Script, c: Channel)
    requires HonestLog(h, log) && AddressableFields(me.Hello())
    requires script.answer.Got? && script.answer.wire.Kex? ==> FitsFrame(script.answer.wire.fields)
    requires ClientConnectKey(h, log, aead, me, pinned, script) == Ok(c)
    ensures pinned.Some? && script.answer.Got? && script.answer.wire.Kex?
    ensures Agreed(h, log, me, pinned.value, script.answer.wire.fields)
  {
    var d := ConnectedClientDerived(h, log, aead, me, pinned, script, c);
    AnswerIsForThisHello(h, log, me, pinned.value, script.answer.wire.v, script.answer.wire.fields);
  }

  /** The identity a hello names signed it with this version, ephemeral and ML-KEM key. */
  predicate HelloSigned(log: seq<Signed>, v: nat, client: KexFields) {
    SignedHello(log, v, client.pq, Base64.DecodeN(client.id, 32), Base64.DecodeN(client.eph, 32), Base64.DecodeN(client.sig, 64))
  }

  predicate SignedHello(log: seq<Signed>, v: nat, pq: Option<seq<byte>>,
                        id: Option<seq<byte>>, eph: Option<seq<byte>>, signature: Option<seq<byte>>)
  {
    id.Some? && eph.Some? && signature.Some? && Signed(ClientHello(id.value, v, pq, eph.value), signature.value) in log
  }

  lemma HelloWasSigned(h: Hash, log: seq<Signed>, v: nat, pq: Option<seq<byte>>, id: seq<byte>, eph: seq<byte>, signature: seq<byte>)
    requires HonestLog(h, log) && RequireVersion(v, pq) && |id| == 32 && (pq.Some? ==> |pq.value| <= MAX_FRAME)
    ensures Verifies(h, log, id, SignatureMessage(ClientKexBinding(v, id, pq), eph), signature)
            <==> Signed(ClientHello(id, v, pq, eph), signature) in log
  {
    if Verifies(h, log, id, SignatureMessage(ClientKexBinding(v, id, pq), eph), signature) {
      var s :| s in log && s.signature == signature && Message(h, s.what) == SignatureMessage(ClientKexBinding(v, id, pq), eph);
      HellosAreUnambiguous(h, s.what, id, v, pq, eph);
    }
  }

  lemma AcceptedHelloWasSigned(h: Hash, log: seq<Signed>, v: nat, pq: Option<seq<byte>>,
                               id: Option<seq<byte>>, eph: Option<seq<byte>>, signature: Option<seq<byte>>)
    requires HonestLog(h, log) && (id.Some? ==> |id.value| == 32) && (pq.Some? ==> |pq.value| <= MAX_FRAME)
    ensures AcceptsHello(h, log, v, pq, id, eph, signature) <==> RequireVersion(v, pq) && SignedHello(log, v, pq, id, eph, signature)
  {
    if RequireVersion(v, pq) && id.Some? && eph.Some? && signature.Some? {
      HelloWasSigned(h, log, v, pq, id.value, eph.value, signature.value);
    }
  }

  lemma HostChannelExists(me: Host, v: nat, client: KexFields)
    ensures HostKeyChannel(me, v, client).Some?
            <==> RequireVersion(v, client.pq) && Base64.DecodeN(client.eph, 32).Some? && Encapsulated(me.ciphertext, client.pq).Some?
  {
  }

  /** The host gets as far as a channel exactly when it trusts the identity, the identity
      signed this hello in this version, and the ML-KEM key has its size. */
  lemma HostTakesOnlySignedHellos(h: Hash, log: seq<Signed>, me: Host, trust: bool, v: nat, client: KexFields)
    requires HonestLog(h, log) && FitsFrame(client)
    ensures HostDerive(h, log, me, trust, v, client).Some?
            <==> trust && RequireVersion(v, client.pq) && HelloSigned(log, v, client) && Encapsulated(me.ciphertext, client.pq).Some?
  {
    HostChannelExists(me, v, client);
    AcceptedHelloWasSigned(h, log, v, client.pq, Base64.DecodeN(client.id, 32), Base64.DecodeN(client.eph, 32), Base64.DecodeN(client.sig, 64));
  }

  /** Only a connection that broke before the host's answer was read looks like an old host. */
  lemma IoErrorMeansNoAnswer(h: Hash, log: seq<Signed>, aead: seq<Sealing>, me: Client, pinned: Option<seq<byte>>, script: Script)
    ensures var r := ClientConnectKey(h, log, aead, me, pinned, script);
            (r.Err? && r.error.Io?) <==> pinned.Some? && (script.hello.Some? || script.answer.Fails?)
  {
  }

  /** What was read is the base64 text of the channel's next record, with the token in it. */
  ghost predicate TokenArrives(c: Channel, r: Reading, aead: seq<Sealing>) {
    && r.Got? && r.wire.Confirm?
    && exists packet, ciphertext :: Base64.Trim(r.wire.sealed) == Base64.Encode(packet) && Arrives(c, packet, ciphertext, CONFIRM_TOKEN, aead)
  }

  lemma TokenOpensExactly(c: Channel, r: Reading, aead: seq<Sealing>)
    ensures OpenToken(c, r, aead).Some? <==> TokenArrives(c, r, aead)
  {
    if r.Got? && r.wire.Confirm? {
      var text := Base64.Trim(r.wire.sealed);
      if OpenToken(c, r, aead).Some? {
        var packet := Base64.Decode(text).value;
        Base64.EncodeOfDecode(text);
        OpensExactly(c, packet, CONFIRM_TOKEN, aead);
        var ciphertext :| Arrives(c, packet, ciphertext, CONFIRM_TOKEN, aead);
      }
      if packet, ciphertext :| text == Base64.Encode(packet) && Arrives(c, packet, ciphertext, CONFIRM_TOKEN, aead) {
        Base64.RoundTrip(packet);
        OpensExactly(c, packet, CONFIRM_TOKEN, aead);
      }
    }
  }

  /** Either side is done exactly when it has a channel, all its writes went out, and what it
      read is the first record of the other side's key for this exchange, with the token in it;
      a host's failed reads and writes are reported as such. */
  lemma SidesFinishExactly(c: Option<Channel>, client: Script, host: HostScript, aead: seq<Sealing>)
    ensures ClientConfirm(c, client, aead).Ok?
            <==> c.Some? && client.confirm.None? && TokenArrives(TokenSent(c.value), client.confirmation, aead)
    ensures HostConfirm(c, host, aead).Ok?
            <==> c.Some? && host.answer.None? && host.confirm.None? && TokenArrives(c.value, host.confirmation, aead)
    ensures var r := HostConfirm(c, host, aead);
            (r.Err? && r.error.Io?)
            <==> c.Some? && (|| host.answer.Some? || host.confirmation.Fails?
                             || (host.confirm.Some? && TokenArrives(c.value, host.confirmation, aead)))
  {
    if c.Some? {
      TokenOpensExactly(TokenSent(c.value), client.confirmation, aead);
      TokenOpensExactly(c.value, host.confirmation, aead);
    }
  }
}
