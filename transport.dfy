/** The serial link as the app sees it (`badge.uart`), reduced to its byte
    streams: what has already been received, what will arrive later, and
    everything sent so far. */
module Transport {
  import opened Bytes

  /** The bytes of a sequence of batches, in order. */
  function Flatten(batches: seq<seq<byte>>): (s: seq<byte>)
  {
    if batches == [] then [] else batches[0] + Flatten(batches[1..])
  }

  function Min(a: nat, b: nat): (m: nat) { if a <= b then a else b }

  class Uart {
    /** Bytes received and buffered, not yet read by the app. */
    var rx: seq<byte>
    /** Batches still on their way; one batch lands in `rx` each time the app waits. */
    var incoming: seq<seq<byte>>
    /** Every byte the app has sent, oldest first. */
    var tx: seq<byte>
    /** How many times the app has called `try_connect`. */
    var connectCalls: nat

    constructor (buffered: seq<byte>, later: seq<seq<byte>>)
      ensures rx == buffered && incoming == later && tx == [] && connectCalls == 0
    {
      rx := buffered;
      incoming := later;
      tx := [];
      connectCalls := 0;
    }

    /** All bytes the peer has sent that the app has not read yet, in wire order. */
    function Stream(): (s: seq<byte>)
      reads this
    {
      rx + Flatten(incoming)
    }

    /** `receive(n)`: takes up to `n` buffered bytes off the front; empty when nothing is buffered. */
    method Receive(n: nat) returns (chunk: seq<byte>)
      modifies this`rx
      ensures |chunk| <= n
      ensures n > 0 && old(rx) != [] ==> chunk != []
      ensures old(rx) == chunk + rx
    {
      var k := Min(n, |rx|);
      chunk := rx[..k];
      rx := rx[k..];
    }

    /** `send(bytes)`: appends to what has gone out on the wire. */
    method Send(bytes: seq<byte>)
      modifies this`tx
      ensures tx == old(tx) + bytes
    {
      tx := tx + bytes;
    }

    /** `try_connect()`: one more connect call, whose result `ok` the link decides. */
    method TryConnect(ok: bool) returns (r: bool)
      modifies this`connectCalls
      ensures r == ok
      ensures connectCalls == old(connectCalls) + 1
    {
      connectCalls := connectCalls + 1;
      r := ok;
    }

    /** Time passes (`time.sleep`): the next batch, if any, lands in the buffer. */
    method Wait()
      modifies this`rx, this`incoming
      ensures old(incoming) != [] ==> rx == old(rx) + old(incoming)[0] && incoming == old(incoming)[1..]
      ensures old(incoming) == [] ==> rx == old(rx) && incoming == []
      ensures Stream() == old(Stream())
    {
      if incoming != [] {
        assert Flatten(incoming) == incoming[0] + Flatten(incoming[1..]);
        rx := rx + incoming[0];
        incoming := incoming[1..];
      }
    }
  }
}
