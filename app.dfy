/** The badge app (`App` in main.py): four fields that one pass of `Loop`
    recomputes from the serial link, SW4 and the bytes the peer sends. */
module Badge {
  import opened Wrappers
  import opened Bytes
  import opened Transport
  import opened Pairing

  class App {
    var present: bool
    var connected: bool
    var connectFailed: Option<bool>
    var partner: Option<int>
    /** The serial link (`badge.uart`). */
    const uart: Uart
    /** The hardware id (`machine.unique_id()`). */
    const uniqueId: seq<byte>

    /** The fields as a value. */
    function State(): AppState
      reads this
    {
      AppState(present, connected, connectFailed, partner)
    }

    /** The invariant every pass promises: the link counts as connected only
        while the cable is present. */
    ghost predicate Valid()
      reads this
    {
      connected ==> present
    }

    /** `on_open`: nothing seen yet, connecting armed, and the partner read back
        from storage (`None` when reading or parsing it failed). */
    constructor (uart: Uart, uniqueId: seq<byte>, stored: Option<int>)
      ensures Valid()
      ensures State() == Opened(stored)
      ensures this.uart == uart && this.uniqueId == uniqueId
    {
      this.uart := uart;
      this.uniqueId := uniqueId;
      present := false;
      connected := false;
      connectFailed := None;
      partner := stored;
    }

    /** `loop`: one pass over the link, the connect attempt, SW4 and, when
        connected, the handshake. */
    method Loop(obs: Observation)
      requires obs.present && obs.linkUp ==> ReadCompletes(uart.rx != [], uart.Stream())
      modifies this, uart
      ensures Valid()
      ensures var t := Tick(old(State()), obs, old(uart.rx) != [], old(uart.Stream()), uniqueId);
        && State() == t.state
        && uart.tx == old(uart.tx) + t.sent
        && uart.Stream() == old(uart.Stream())[t.consumed..]
        && uart.connectCalls == old(uart.connectCalls) + (if t.attempted then 1 else 0)
    {
      present := obs.present;
      connected := present && obs.linkUp;
      if present && !connected && connectFailed.None? {
        var ok := uart.TryConnect(obs.connectOk);
        connectFailed := Some(!ok);
        if !connectFailed.value {
          uart.Send([RequestId]);
        }
      }
      if obs.sw4 {
        connectFailed := None;
      }
      if connected {
        HandleUart();
      }
    }

    /** `_handle_uart`: reads one opcode byte if one is ready; answers an id
        request with our id, or reads the peer's id after a reply opcode. */
    method HandleUart()
      requires ReadCompletes(uart.rx != [], uart.Stream())
      modifies this`partner, uart
      ensures var e := Serve(old(uart.rx) != [], old(uart.Stream()), uniqueId, old(partner));
        && partner == e.partner
        && uart.tx == old(uart.tx) + e.sent
        && uart.Stream() == old(uart.Stream())[e.consumed..]
        && uart.connectCalls == old(uart.connectCalls)
    {
      ghost var stream := uart.Stream();
      var opcode := uart.Receive(1);
      if opcode != [] {
        if opcode[0] == RequestId {
          uart.Send(Reply(uniqueId));
        } else if opcode[0] == IdReply {
          assert uart.Stream() == stream[1..];
          var data := BlockingRead(2);
          assert data == stream[1..3];
          partner := Some(FromBigEndian(data));
        }
      }
    }

    /** `_blocking_read`: gathers chunks, waiting whenever none is ready, until
        exactly `size` bytes are held; they are the next `size` bytes of the stream. */
    method BlockingRead(size: nat) returns (data: seq<byte>)
      requires size <= |uart.Stream()|
      modifies uart`rx, uart`incoming
      ensures |data| == size
      ensures data + uart.Stream() == old(uart.Stream())
    {
      data := [];
      while |data| < size
        invariant |data| <= size
        invariant data + uart.Stream() == old(uart.Stream())
        decreases size - |data|, |uart.incoming|
      {
        var chunk := uart.Receive(size - |data|);
        if chunk != [] {
          data := data + chunk;
        } else {
          uart.Wait();
        }
      }
    }
  }
}
