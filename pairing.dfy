/** What one pass of the app's main loop does, as values: the connect state
    machine over the link observations and the SW4 button, then the serial
    handshake that answers id requests and takes the partner's id. */
module Pairing {
  import opened Wrappers
  import opened Bytes

  /** Opcode that asks the peer for its id. */
  const RequestId: byte := 0x01
  /** Opcode that carries an id in the two bytes after it. */
  const IdReply: byte := 0x02

  /** What the app learns from the hardware in one pass of its loop: whether a
      cable is present, whether the link is up, what a connect attempt would
      return, and whether SW4 is held. */
  datatype Observation = Observation(present: bool, linkUp: bool, connectOk: bool, sw4: bool)

  /** The four fields the loop maintains. `connectFailed` is `None` while a
      connect attempt is allowed; `partner` is the id learnt from the peer. */
  datatype AppState = AppState(present: bool, connected: bool, connectFailed: Option<bool>, partner: Option<int>)

  /** The connect part of one pass: the new link fields, whether `try_connect`
      was called and the bytes sent. */
  datatype ConnectOutcome = ConnectOutcome(present: bool, connected: bool, failed: Option<bool>, attempted: bool, sent: seq<byte>)

  /** The handshake part of one pass: the new partner, the bytes sent and how
      many received bytes were consumed. */
  datatype Exchange = Exchange(partner: Option<int>, sent: seq<byte>, consumed: nat)

  /** One whole pass of the loop. */
  datatype TickResult = TickResult(state: AppState, attempted: bool, sent: seq<byte>, consumed: nat)

  /** The state right after the app opens, given the partner read back from storage. */
  function Opened(stored: Option<int>): (s: AppState)
  {
    AppState(false, false, None, stored)
  }

  function Connect(failed: Option<bool>, obs: Observation): (c: ConnectOutcome)
  {
    var present := obs.present;
    var connected := present && obs.linkUp;
    var attempted := present && !connected && failed.None?;
    var settled := if attempted then Some(!obs.connectOk) else failed;
    var sent := if attempted && obs.connectOk then [RequestId] else [];
    ConnectOutcome(present, connected, if obs.sw4 then None else settled, attempted, sent)
  }

  /** `id[-2:]` in Python: the last two bytes, or the whole id when it is shorter. */
  function LastTwo(id: seq<byte>): (tail: seq<byte>)
  {
    if |id| >= 2 then id[|id| - 2..] else id
  }

  /** The answer to an id request: the reply opcode and the last two id bytes. */
  function Reply(id: seq<byte>): (frame: seq<byte>)
  {
    [IdReply] + LastTwo(id)
  }

  /** The 16-bit device id carried by the last two bytes of a hardware id. */
  function DeviceId(id: seq<byte>): (d: nat)
    requires |id| >= 2
  {
    id[|id| - 2] as nat * 256 + id[|id| - 1] as nat
  }

  /** The id read that follows a reply opcode can finish: when a byte is ready
      and it is the reply opcode, the two id bytes do arrive. */
  predicate ReadCompletes(ready: bool, stream: seq<byte>)
  {
    ready ==> stream != [] && (stream[0] == IdReply ==> |stream| >= 3)
  }

  /** The handshake step, given whether a byte is ready now and every byte the
      peer has sent that is still unread. */
  function Serve(ready: bool, stream: seq<byte>, id: seq<byte>, partner: Option<int>): (e: Exchange)
    requires ReadCompletes(ready, stream)
  {
    if !ready then Exchange(partner, [], 0)
    else if stream[0] == RequestId then Exchange(partner, Reply(id), 1)
    else if stream[0] == IdReply then Exchange(Some(FromBigEndian(stream[1..3])), [], 3)
    else Exchange(partner, [], 1)
  }

  function Tick(s: AppState, obs: Observation, ready: bool, stream: seq<byte>, id: seq<byte>): (t: TickResult)
    requires obs.present && obs.linkUp ==> ReadCompletes(ready, stream)
  {
    var c := Connect(s.connectFailed, obs);
    if c.connected then
      var e := Serve(ready, stream, id, s.partner);
      TickResult(AppState(c.present, c.connected, c.failed, e.partner), c.attempted, c.sent + e.sent, e.consumed)
    else
      TickResult(AppState(c.present, c.connected, c.failed, s.partner), c.attempted, c.sent, 0)
  }

  /** The number of `try_connect` calls over consecutive passes, starting from `failed`. */
  function Attempts(failed: Option<bool>, ticks: seq<Observation>): (count: nat)
    decreases |ticks|
  {
    if ticks == [] then 0
    else
      var c := Connect(failed, ticks[0]);
      (if c.attempted then 1 else 0) + Attempts(c.failed, ticks[1..])
  }

  // ---------------------------------------------------------------------
  // One pass of the loop

  /** After every pass the link counts as connected only while the cable is present. */
  lemma ConnectedOnlyWhenPresent(s: AppState, obs: Observation, ready: bool, stream: seq<byte>, id: seq<byte>)
    requires obs.present && obs.linkUp ==> ReadCompletes(ready, stream)
    ensures var t := Tick(s, obs, ready, stream, id);
      t.state.present == obs.present && (t.state.connected <==> obs.present && obs.linkUp)
  {
  }

  /** A connect attempt is made exactly when the cable is present, the link is
      down and no earlier attempt is still on record. */
  lemma AttemptOnlyWhenArmed(s: AppState, obs: Observation, ready: bool, stream: seq<byte>, id: seq<byte>)
    requires obs.present && obs.linkUp ==> ReadCompletes(ready, stream)
    ensures var t := Tick(s, obs, ready, stream, id);
      t.attempted <==> t.state.present && !t.state.connected && s.connectFailed.None?
  {
  }

  /** An attempt records its outcome, unless SW4 clears it in the same pass;
      the pass that attempts does not touch the handshake. */
  lemma AttemptIsRecorded(s: AppState, obs: Observation, ready: bool, stream: seq<byte>, id: seq<byte>)
    requires obs.present && obs.linkUp ==> ReadCompletes(ready, stream)
    ensures var t := Tick(s, obs, ready, stream, id);
      t.attempted ==>
        t.state.connectFailed == (if obs.sw4 then None else Some(!obs.connectOk))
        && t.consumed == 0 && t.state.partner == s.partner
  {
  }

  /** The request byte goes out exactly when this pass's attempt succeeds, and a
      pass without a link sends nothing else: a failed attempt sends nothing. */
  lemma RequestSentIffConnected(s: AppState, obs: Observation, ready: bool, stream: seq<byte>, id: seq<byte>)
    requires obs.present && obs.linkUp ==> ReadCompletes(ready, stream)
    ensures var t := Tick(s, obs, ready, stream, id);
      (t.sent == [RequestId]) <==> (t.attempted && obs.connectOk)
    ensures var t := Tick(s, obs, ready, stream, id);
      !t.state.connected ==> t.sent == (if t.attempted && obs.connectOk then [RequestId] else [])
  {
    var c := Connect(s.connectFailed, obs);
    if c.connected {
      var e := Serve(ready, stream, id, s.partner);
      assert e.sent == [] || e.sent[0] == IdReply;
      assert Tick(s, obs, ready, stream, id).sent == e.sent;
      assert e.sent != [RequestId];
    }
  }

  /** SW4 re-arms connecting; without it and without an attempt the record stays as it was. */
  lemma Sw4Rearms(s: AppState, obs: Observation, ready: bool, stream: seq<byte>, id: seq<byte>)
    requires obs.present && obs.linkUp ==> ReadCompletes(ready, stream)
    ensures var t := Tick(s, obs, ready, stream, id);
      && (obs.sw4 ==> t.state.connectFailed.None?)
      && (!obs.sw4 && !t.attempted ==> t.state.connectFailed == s.connectFailed)
  {
  }

  /** Without a link the handshake is not run: nothing is read and the partner stays. */
  lemma HandshakeOnlyWhenConnected(s: AppState, obs: Observation, ready: bool, stream: seq<byte>, id: seq<byte>)
    requires obs.present && obs.linkUp ==> ReadCompletes(ready, stream)
    ensures var t := Tick(s, obs, ready, stream, id);
      !t.state.connected ==>
        t.consumed == 0 && t.state.partner == s.partner
        && t.sent == (if t.attempted && obs.connectOk then [RequestId] else [])
  {
  }

  // ---------------------------------------------------------------------
  // The handshake

  /** An id request is answered with the reply opcode and the last two id bytes. */
  lemma RequestAnswered(stream: seq<byte>, id: seq<byte>, partner: Option<int>)
    requires stream != [] && stream[0] == RequestId && |id| >= 2
    ensures Serve(true, stream, id, partner) == Exchange(partner, [IdReply, id[|id| - 2], id[|id| - 1]], 1)
  {
  }

  /** A reply sets the partner to the two bytes after it read big-endian, a 16-bit value. */
  lemma {:induction false} ReplyTakesPartner(stream: seq<byte>, id: seq<byte>, partner: Option<int>)
    requires |stream| >= 3 && stream[0] == IdReply
    ensures var e := Serve(true, stream, id, partner);
      && e.partner == Some(stream[1] as int * 256 + stream[2] as int)
      && 0 <= e.partner.value < 65536
      && e.sent == [] && e.consumed == 3
  {
    assert stream[1..3] == [stream[1], stream[2]];
    FromBigEndianPair(stream[1], stream[2]);
  }

  /** Nothing ready, or an unknown opcode: nothing is sent, the partner stays,
      and at most the opcode byte is consumed. */
  lemma OtherInputIgnored(ready: bool, stream: seq<byte>, id: seq<byte>, partner: Option<int>)
    requires ReadCompletes(ready, stream)
    requires ready ==> stream[0] != RequestId && stream[0] != IdReply
    ensures Serve(ready, stream, id, partner) == Exchange(partner, [], if ready then 1 else 0)
  {
  }

  /** The last two id bytes are exactly the big-endian encoding of the device id. */
  lemma {:induction false} DeviceIdBytes(id: seq<byte>)
    requires |id| >= 2
    ensures DeviceId(id) < 65536
    ensures ToBigEndian(DeviceId(id), 2) == LastTwo(id)
  {
    var tail := LastTwo(id);
    assert tail == [id[|id| - 2], id[|id| - 1]];
    FromBigEndianPair(id[|id| - 2], id[|id| - 1]);
    ToFromBigEndian(tail);
  }

  /** Round trip: a peer running the same code that reads our reply learns our device id. */
  lemma {:induction false} PeerLearnsOurId(id: seq<byte>, rest: seq<byte>, peerId: seq<byte>, peerPartner: Option<int>)
    requires |id| >= 2
    ensures Serve(true, Reply(id) + rest, peerId, peerPartner) == Exchange(Some(DeviceId(id)), [], 3)
  {
    var stream := Reply(id) + rest;
    assert stream[0] == IdReply && stream[1] == id[|id| - 2] && stream[2] == id[|id| - 1];
    ReplyTakesPartner(stream, peerId, peerPartner);
  }

  /** Two devices A and B: A connects and sends the request, B answers it, and
      on its next pass A holds B's device id as its partner. */
  lemma {:induction false} Handshake(a: AppState, b: AppState, idA: seq<byte>, idB: seq<byte>)
    requires a.connectFailed.None? && |idB| >= 2
    ensures
      var connecting := Observation(true, false, true, false);
      var linked := Observation(true, true, false, false);
      var t1 := Tick(a, connecting, false, [], idA);
      t1.sent == [RequestId]
      && var t2 := Tick(b, linked, true, t1.sent, idB);
      t2.sent == Reply(idB)
      && var t3 := Tick(t1.state, linked, true, t2.sent, idA);
      t3.state.partner == Some(DeviceId(idB)) && t3.state.connected && t3.sent == []
  {
    PeerLearnsOurId(idB, [], idA, a.partner);
    assert Reply(idB) + [] == Reply(idB);
  }

  // ---------------------------------------------------------------------
  // Many passes

  /** Without SW4, at most one connect attempt is made, and none once an
      outcome is on record. */
  lemma {:induction false} OneAttemptPerArming(failed: Option<bool>, ticks: seq<Observation>)
    requires forall i :: 0 <= i < |ticks| ==> !ticks[i].sw4
    ensures Attempts(failed, ticks) <= (if failed.None? then 1 else 0)
    decreases |ticks|
  {
    if ticks != [] {
      var c := Connect(failed, ticks[0]);
      assert !ticks[0].sw4;
      OneAttemptPerArming(c.failed, ticks[1..]);
    }
  }
}
