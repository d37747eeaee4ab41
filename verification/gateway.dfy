/**
  The gateway session of the game client (src/managers/WebsocketManager.ts):
  classification of inbound binary frames by their tag byte, dispatch of the
  decoded command envelope, tracking of the request-id counter, the
  hello/authorize handshake replies and the heartbeat timer.

  The socket, the event emitter and the timers are effects: every one of
  them is appended, in the order the source performs it, to one log of
  `Effect`s. The MessagePack decoder is a parameter `decode` about which
  nothing is assumed.
 */
module Gateway {
  import opened Wrappers
  import opened Json

  newtype byte = x: int | 0 <= x < 256

  // Tag bytes of inbound frames.
  const StandardTag: byte := 0x45
  const ExtractedIdTag: byte := 0xAE
  const BatchTag: byte := 0x58
  const ExtensionTag: byte := 0xB0

  /** The sequence id an extracted-id frame always reports. */
  const ExtractedId: int := 174
  /** The width, in bytes, that a batch frame records for its length fields. */
  const BatchLengths: nat := 4

  /** Body of an extension frame that asks for a heartbeat. */
  const HeartbeatRequest: seq<byte> := [0x0C]
  /** The raw, unencoded heartbeat ping. */
  const HeartbeatPing: seq<byte> := [0xB0, 0x0B]
  /** Delay of every heartbeat timer, in milliseconds. */
  const HeartbeatMs: nat := 5000
  /** Build identifier sent in the authorize signature. */
  const CommitId: string := "2d05c95"

  datatype Handling = Handling(arr: string, das: string, sdf: string, safelock: bool)

  /** What the session reads from its client: credentials and input handling. */
  datatype Client = Client(token: string, handling: Handling)

  /** A decoded command envelope; `id` is absent when the server sent none. */
  datatype Envelope = Envelope(command: string, data: Value, id: Option<int>)

  /** MessagePack decoding of a byte range; `None` when the codec throws. */
  type Decoder = seq<byte> -> Option<Envelope>

  /** A classified frame that is handed on to dispatch. */
  datatype Packet = Packet(kind: byte, id: Option<int>, lengths: Option<nat>, data: Envelope)

  datatype Inbound =
    | Command(packet: Packet)
    | Extension(body: seq<byte>)

  /** Why the handler of one frame throws before it has any effect. */
  datatype ReceiveError =
    | EmptyFrame           // no tag byte: the placeholder packet has null data
    | UnknownTag(tag: byte) // same: the placeholder packet is dereferenced
    | Malformed(tag: byte)  // the codec threw on the payload

  /** Outbound command envelopes; all of them go through the codec. */
  datatype Message =
    | New
    | Authorize(id: int, token: string, handling: Handling, commit: string)
    | SocialPresence(status: string, detail: string)

  /** One observable action of the session, in the order performed. */
  datatype Effect =
    | Emitted(command: string, data: Value) // client.emit to subscribers
    | Sent(msg: Message)                    // socket send of an encoded message
    | SentRaw(bytes: seq<byte>)             // socket send of raw bytes
    | Armed(ms: nat)                        // a heartbeat timer was started

  /** New request-id counter and the effects of handling one frame. */
  datatype Outcome = Outcome(id: int, effects: seq<Effect>)

  predicate IsKnownTag(tag: byte)
  {
    tag == StandardTag || tag == ExtractedIdTag || tag == BatchTag || tag == ExtensionTag
  }

  /** `Buffer.slice(start)`: the bytes from `start` on, empty past the end. */
  function Slice(msg: seq<byte>, start: nat): seq<byte>
  {
    if start <= |msg| then msg[start..] else []
  }

  function Decoded(tag: byte, kind: byte, id: Option<int>, lengths: Option<nat>,
                   payload: seq<byte>, decode: Decoder): Result<Inbound, ReceiveError>
  {
    match decode(payload)
    case None => Failure(Malformed(tag))
    case Some(env) => Success(Command(Packet(kind, id, lengths, env)))
  }

  /**
    The switch on the tag byte: which bytes are decoded and how the packet
    is labelled. Only an extension frame bypasses the codec, and no packet
    handed to dispatch is labelled as a batch or an extension.
   */
  function Classify(msg: seq<byte>, decode: Decoder): (r: Result<Inbound, ReceiveError>)
    ensures msg == [] ==> r == Failure(EmptyFrame)
    ensures msg != [] && !IsKnownTag(msg[0]) ==> r == Failure(UnknownTag(msg[0]))
    ensures r.Success? && r.value.Extension? <==> msg != [] && msg[0] == ExtensionTag
    ensures r.Success? && r.value.Command? ==>
              r.value.packet.kind == StandardTag || r.value.packet.kind == ExtractedIdTag
    ensures r.Failure? && r.error.Malformed? ==> msg != [] && msg[0] != ExtensionTag
  {
    if msg == [] then Failure(EmptyFrame)
    else if msg[0] == StandardTag then
      Decoded(msg[0], StandardTag, None, None, Slice(msg, 1), decode)
    else if msg[0] == ExtractedIdTag then
      Decoded(msg[0], ExtractedIdTag, Some(ExtractedId), None, Slice(msg, 5), decode)
    else if msg[0] == BatchTag then
      Decoded(msg[0], StandardTag, None, Some(BatchLengths), Slice(msg, 1), decode)
    else if msg[0] == ExtensionTag then
      Success(Extension(msg[1..]))
    else
      Failure(UnknownTag(msg[0]))
  }

  /** A standard frame decodes everything after its tag byte. */
  lemma StandardFrame(body: seq<byte>, decode: Decoder)
    ensures Classify([StandardTag] + body, decode) ==
              match decode(body)
              case Some(env) => Success(Command(Packet(StandardTag, None, None, env)))
              case None => Failure(Malformed(StandardTag))
  {
  }

  /**
    An extracted-id frame skips exactly the four header bytes after its tag,
    whatever they hold, and always reports id 174.
   */
  lemma ExtractedIdFrame(header: seq<byte>, body: seq<byte>, decode: Decoder)
    requires |header| == 4
    ensures Classify([ExtractedIdTag] + header + body, decode) ==
              match decode(body)
              case Some(env) => Success(Command(Packet(ExtractedIdTag, Some(ExtractedId), None, env)))
              case None => Failure(Malformed(ExtractedIdTag))
  {
  }

  /**
    A batch frame decodes everything after its tag as one payload and is
    relabelled as a standard packet that records 4-byte lengths.
   */
  lemma BatchFrame(body: seq<byte>, decode: Decoder)
    ensures Classify([BatchTag] + body, decode) ==
              match decode(body)
              case Some(env) => Success(Command(Packet(StandardTag, None, Some(BatchLengths), env)))
              case None => Failure(Malformed(BatchTag))
  {
  }

  predicate Truthy(id: Option<int>)
  {
    id.Some? && id.value != 0
  }

  /** The handshake reply to a command, sent with the counter `id`. */
  function Reply(command: string, id: int, client: Client): seq<Effect>
  {
    if command == "hello" then
      [Sent(Authorize(id, client.token, client.handling, CommitId))]
    else if command == "authorize" then
      [Sent(SocialPresence("online", ""))]
    else
      []
  }

  /**
    Dispatch of one decoded envelope: the emit comes first, then the counter
    becomes the envelope's truthy id plus one (whatever it was before), and
    only then is the handshake reply built, with the updated counter.
   */
  function Dispatch(id: int, client: Client, env: Envelope): (r: Outcome)
    ensures r.effects != [] && r.effects[0] == Emitted(env.command, env.data)
    ensures Truthy(env.id) ==> r.id == env.id.value + 1
    ensures !Truthy(env.id) ==> r.id == id
    ensures env.command == "hello" ==>
              r.effects[1..] == [Sent(Authorize(r.id, client.token, client.handling, CommitId))]
    ensures env.command == "authorize" ==>
              r.effects[1..] == [Sent(SocialPresence("online", ""))]
    ensures env.command != "hello" && env.command != "authorize" ==> |r.effects| == 1
  {
    var next := if Truthy(env.id) then env.id.value + 1 else id;
    Outcome(next, [Emitted(env.command, env.data)] + Reply(env.command, next, client))
  }

  /** The whole handler of one inbound frame, from the counter before it. */
  function ReceiveStep(id: int, client: Client, msg: seq<byte>, decode: Decoder): (r: Result<Outcome, ReceiveError>)
    ensures msg != [] && msg[0] == ExtensionTag ==>
              r.Success? && r.value.id == id &&
              r.value.effects == if msg == [ExtensionTag, 0x0C] then [Armed(HeartbeatMs)] else []
    ensures r.Success? ==> Pings(r.value.effects) == 0
    ensures r.Success? ==> Arms(r.value.effects) == if msg == [ExtensionTag, 0x0C] then 1 else 0
    ensures r.Success? && msg != [] && msg[0] != ExtensionTag ==>
              r.value.effects != [] && r.value.effects[0].Emitted? &&
              forall k :: 1 <= k < |r.value.effects| ==> r.value.effects[k].Sent?
  {
    match Classify(msg, decode)
    case Failure(e) => Failure(e)
    case Success(Extension(body)) =>
      Success(Outcome(id, if body == HeartbeatRequest then [Armed(HeartbeatMs)] else []))
    case Success(Command(p)) =>
      var o := Dispatch(id, client, p.data);
      NoTimerEffects(o.effects);
      Success(o)
  }

  /**
    Handles frames in arrival order, threading the counter through. The
    first frame whose handler throws ends the run.
   */
  function Run(id: int, client: Client, msgs: seq<seq<byte>>, decode: Decoder): Outcome
    decreases |msgs|
  {
    if msgs == [] then Outcome(id, [])
    else
      match ReceiveStep(id, client, msgs[0], decode)
      case Failure(_) => Outcome(id, [])
      case Success(o) =>
        var rest := Run(o.id, client, msgs[1..], decode);
        Outcome(rest.id, o.effects + rest.effects)
  }

  /** True when the frame dispatches an envelope with a truthy id. */
  predicate CarriesId(msg: seq<byte>, decode: Decoder)
  {
    var c := Classify(msg, decode);
    c.Success? && c.value.Command? && Truthy(c.value.packet.data.id)
  }

  /**
    The counter is only ever set from a server-supplied id: frames without
    one leave it where it was, however many messages they cause to be sent.
   */
  lemma {:induction false} RunKeepsIdWithoutServerIds(id: int, client: Client, msgs: seq<seq<byte>>, decode: Decoder)
    requires forall i :: 0 <= i < |msgs| ==> !CarriesId(msgs[i], decode)
    ensures Run(id, client, msgs, decode).id == id
    decreases |msgs|
  {
    if msgs != [] {
      match ReceiveStep(id, client, msgs[0], decode)
      case Failure(_) =>
      case Success(o) =>
        assert !CarriesId(msgs[0], decode);
        assert o.id == id;
        RunKeepsIdWithoutServerIds(id, client, msgs[1..], decode);
    }
  }

  /**
    A server id lower than the current counter moves the counter down: the
    counter is not monotonic.
   */
  lemma CounterCanDecrease(id: int, client: Client, body: seq<byte>, decode: Decoder, env: Envelope)
    requires decode(body) == Some(env) && Truthy(env.id) && env.id.value + 1 < id
    ensures ReceiveStep(id, client, [StandardTag] + body, decode).Success?
    ensures ReceiveStep(id, client, [StandardTag] + body, decode).value.id < id
  {
  }

  /**
    The id 174 that an extracted-id frame reports is never used for the
    counter: only the envelope's own id is.
   */
  lemma ExtractedIdLeavesCounter(id: int, client: Client, header: seq<byte>, body: seq<byte>,
                                 decode: Decoder, env: Envelope)
    requires |header| == 4 && decode(body) == Some(env) && !Truthy(env.id)
    ensures ReceiveStep(id, client, [ExtractedIdTag] + header + body, decode).Success?
    ensures ReceiveStep(id, client, [ExtractedIdTag] + header + body, decode).value.id == id
  {
  }

  /**
    The handshake on a fresh session: a `hello` then an `authorize`, both
    without ids, produce the two emits and exactly the two replies, in
    order; the authorize message carries the initial counter 1 and the
    client's token and handling verbatim.
   */
  lemma HandshakeFromHello(client: Client, hello: seq<byte>, authorize: seq<byte>, decode: Decoder,
                           helloData: Value, authData: Value)
    requires decode(hello) == Some(Envelope("hello", helloData, None))
    requires decode(authorize) == Some(Envelope("authorize", authData, None))
    ensures Run(1, client, [[StandardTag] + hello, [StandardTag] + authorize], decode).effects ==
              [ Emitted("hello", helloData),
                Sent(Authorize(1, client.token, client.handling, CommitId)),
                Emitted("authorize", authData),
                Sent(SocialPresence("online", "")) ]
  {
    var msgs := [[StandardTag] + hello, [StandardTag] + authorize];
    var helloEnv := Envelope("hello", helloData, None);
    var authEnv := Envelope("authorize", authData, None);
    var first := [Emitted("hello", helloData), Sent(Authorize(1, client.token, client.handling, CommitId))];
    var second := [Emitted("authorize", authData), Sent(SocialPresence("online", ""))];
    StandardFrame(hello, decode);
    StandardFrame(authorize, decode);
    assert "authorize" != "hello" by { assert |"authorize"| != |"hello"|; }
    assert Dispatch(1, client, helloEnv) == Outcome(1, first);
    assert Dispatch(1, client, authEnv) == Outcome(1, second);
    assert ReceiveStep(1, client, msgs[0], decode) == Success(Outcome(1, first));
    assert ReceiveStep(1, client, msgs[1], decode) == Success(Outcome(1, second));
    assert msgs[1..][1..] == [];
    assert Run(1, client, msgs[1..], decode).effects == second;
  }

  /** Number of heartbeat timers started in a log. */
  function Arms(es: seq<Effect>): nat
  {
    if es == [] then 0 else (if es[0].Armed? then 1 else 0) + Arms(es[1..])
  }

  /** Number of heartbeat pings sent in a log. */
  function Pings(es: seq<Effect>): nat
  {
    if es == [] then 0 else (if es[0] == SentRaw(HeartbeatPing) then 1 else 0) + Pings(es[1..])
  }

  /** A log of emits and encoded sends starts no timer and sends no ping. */
  lemma {:induction false} NoTimerEffects(es: seq<Effect>)
    requires forall k :: 0 <= k < |es| ==> es[k].Emitted? || es[k].Sent?
    ensures Arms(es) == 0 && Pings(es) == 0
    decreases |es|
  {
    if es != [] {
      NoTimerEffects(es[1..]);
    }
  }

  lemma {:induction false} TallyAppend(a: seq<Effect>, b: seq<Effect>)
    ensures Arms(a + b) == Arms(a) + Arms(b)
    ensures Pings(a + b) == Pings(a) + Pings(b)
    decreases |a|
  {
    if a != [] {
      assert (a + b)[0] == a[0];
      assert (a + b)[1..] == a[1..] + b;
      TallyAppend(a[1..], b);
    } else {
      assert a + b == b;
    }
  }

  class WebsocketManager {
    /** Request-id counter: the id the next authorize will carry. */
    var id: int
    /** Everything the session has done, oldest first. */
    var effects: seq<Effect>
    /** Heartbeat timers started and not yet fired. */
    var pendingHeartbeats: nat
    const client: Client

    /** Every ping sent was preceded by the start of its own timer. */
    ghost predicate Valid()
      reads this
    {
      pendingHeartbeats + Pings(effects) == Arms(effects)
    }

    constructor (client: Client)
      ensures Valid()
      ensures id == 1 && effects == [] && pendingHeartbeats == 0 && this.client == client
    {
      id := 1;
      effects := [];
      pendingHeartbeats := 0;
      this.client := client;
    }

    /** Records one effect that neither starts nor fires a heartbeat timer. */
    method Perform(e: Effect)
      requires Valid() && !e.Armed? && e != SentRaw(HeartbeatPing)
      modifies this
      ensures Valid()
      ensures effects == old(effects) + [e]
      ensures id == old(id) && pendingHeartbeats == old(pendingHeartbeats)
    {
      TallyAppend(effects, [e]);
      effects := effects + [e];
    }

    /** Encodes and sends a message. */
    method Send(msg: Message)
      requires Valid()
      modifies this
      ensures Valid()
      ensures effects == old(effects) + [Sent(msg)]
      ensures id == old(id) && pendingHeartbeats == old(pendingHeartbeats)
    {
      Perform(Sent(msg));
    }

    /** Starts one more heartbeat timer; earlier ones stay pending. */
    method Heartbeat(ms: nat)
      requires Valid()
      modifies this
      ensures Valid()
      ensures effects == old(effects) + [Armed(ms)]
      ensures pendingHeartbeats == old(pendingHeartbeats) + 1 && id == old(id)
    {
      TallyAppend(effects, [Armed(ms)]);
      effects := effects + [Armed(ms)];
      pendingHeartbeats := pendingHeartbeats + 1;
    }

    /** A pending heartbeat timer fires and sends the raw ping. */
    method HeartbeatFires()
      requires Valid() && pendingHeartbeats > 0
      modifies this
      ensures Valid()
      ensures effects == old(effects) + [SentRaw(HeartbeatPing)]
      ensures pendingHeartbeats == old(pendingHeartbeats) - 1 && id == old(id)
    {
      TallyAppend(effects, [SentRaw(HeartbeatPing)]);
      effects := effects + [SentRaw(HeartbeatPing)];
      pendingHeartbeats := pendingHeartbeats - 1;
    }

    /** Sends the authorize message with the current counter. */
    method Identify(token: string, handling: Handling)
      requires Valid()
      modifies this
      ensures Valid()
      ensures effects == old(effects) + [Sent(Authorize(id, token, handling, CommitId))]
      ensures id == old(id) && pendingHeartbeats == old(pendingHeartbeats)
    {
      Send(Authorize(id, token, handling, CommitId));
    }

    /** The socket has opened: ask for a new session, then start a heartbeat. */
    method OnOpen()
      requires Valid()
      modifies this
      ensures Valid()
      ensures effects == old(effects) + [Sent(New), Armed(HeartbeatMs)]
      ensures pendingHeartbeats == old(pendingHeartbeats) + 1 && id == old(id)
    {
      Send(New);
      Heartbeat(HeartbeatMs);
    }

    /**
      Handles one inbound binary frame. On an error the handler throws
      before any effect; otherwise the counter and the log move as
      `ReceiveStep` says.
     */
    method Receive(msg: seq<byte>, decode: Decoder) returns (err: Option<ReceiveError>)
      requires Valid()
      modifies this
      ensures Valid()
      ensures ReceiveStep(old(id), client, msg, decode).Failure? ==>
                err == Some(ReceiveStep(old(id), client, msg, decode).error) &&
                id == old(id) && effects == old(effects) &&
                pendingHeartbeats == old(pendingHeartbeats)
      ensures ReceiveStep(old(id), client, msg, decode).Success? ==>
                err == None &&
                id == ReceiveStep(old(id), client, msg, decode).value.id &&
                effects == old(effects) + ReceiveStep(old(id), client, msg, decode).value.effects &&
                pendingHeartbeats == old(pendingHeartbeats) + Arms(ReceiveStep(old(id), client, msg, decode).value.effects)
    {
      if msg == [] {
        return Some(EmptyFrame);
      }
      var tag := msg[0];
      var packet: Packet;
      if tag == StandardTag {
        var data := decode(Slice(msg, 1));
        if data.None? {
          return Some(Malformed(tag));
        }
        packet := Packet(StandardTag, None, None, data.value);
      } else if tag == ExtractedIdTag {
        var data := decode(Slice(msg, 5));
        if data.None? {
          return Some(Malformed(tag));
        }
        packet := Packet(ExtractedIdTag, Some(ExtractedId), None, data.value);
      } else if tag == BatchTag {
        var data := decode(Slice(msg, 1));
        if data.None? {
          return Some(Malformed(tag));
        }
        packet := Packet(StandardTag, None, Some(BatchLengths), data.value);
      } else if tag == ExtensionTag {
        if msg[1..] == HeartbeatRequest {
          Heartbeat(HeartbeatMs);
        }
        return None;
      } else {
        return Some(UnknownTag(tag));
      }

      Perform(Emitted(packet.data.command, packet.data.data));

      if Truthy(packet.data.id) {
        id := packet.data.id.value + 1;
      }

      if packet.data.command == "hello" {
        Identify(client.token, client.handling);
      } else if packet.data.command == "authorize" {
        Send(SocialPresence("online", ""));
      }
      err := None;
    }
  }
}
