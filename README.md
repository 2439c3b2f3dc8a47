# Badge buddy: serial pairing loop

A model of the pairing app in `main.py` of the badge-buddy repository. The
app runs on a wearable badge. Each pass of its `loop` does four things:

- It samples whether a serial cable is present and whether the link is up.
- It makes at most one connect attempt until SW4 re-arms it.
- It sends the request byte `0x01` after a successful attempt.
- While connected, it serves a three-byte handshake. Opcode `0x01` asks for our
  id and is answered with `0x02` and the last two bytes of the hardware id.
  Opcode `0x02` is followed by two bytes, read big-endian, which become `partner`.

Files:

- `wrappers.dfy`: `Option`, standing for Python's `None` or a value.
- `bytes.dfy`: bytes, big-endian decoding (`int.from_bytes(…, 'big')`) and its
  inverse, with both round trips.
- `transport.dfy`: the serial link `Uart`. It holds the buffered bytes `rx`,
  the batches still on their way (`incoming`, one batch landing per wait),
  the log of sent bytes `tx` and the number of `try_connect` calls.
- `pairing.dfy`: one pass of the loop as a function of the old fields and what
  the pass observes (`Tick`, built from `Connect` and `Serve`), with lemmas
  about single passes, the two-device handshake and runs of many passes.
- `app.dfy`: the class `App` with the four fields. `Loop`, `HandleUart` and
  `BlockingRead` are proved against `Tick`, `Serve` and the stream of unread
  bytes (`Uart.Stream()`) respectively. `Valid()`
  (connected implies present) is re-established by every pass.

Three facts about the code shape the model:

- The id exchange is a `0x01` request answered by a three-byte `0x02` frame.
- `partner` is read from storage when the app opens and never written back.
- `_blocking_read` has no timeout and spins until its bytes arrive.

## Model

| member | source | states |
|---|---|---|
| Badge.App.constructor | main.py:7-17 | `on_open`: not present, not connected, connecting armed (`connect_failed` is `None`), partner as read from storage; the connected-implies-present invariant holds |
| Badge.App.Loop | main.py:19-47 | the new fields, the bytes sent and the bytes consumed are exactly those of `Tick` on the old fields; `try_connect` is called once when `Tick` attempts and not otherwise; connected implies present afterwards, whatever the state before |
| Badge.App.HandleUart | main.py:49-56 | partner, sent bytes and consumed bytes are exactly those of `Serve` on the stream of unread bytes |
| Badge.App.BlockingRead | main.py:58-66 | returns exactly `size` bytes, and they are the next `size` bytes of the stream in order; `len(data) <= size` is a loop invariant; terminates once the stream holds `size` bytes |
| Transport.Uart.Receive | main.py:61 | `receive(n)` returns at most `n` leading buffered bytes, at least one when any is buffered and `n > 0`, and removes them |
| Transport.Uart.Send | main.py:25 | `send` appends its bytes to the sent log |
| Transport.Uart.TryConnect | main.py:23 | `try_connect` returns the link's answer and counts one more connect call |
| Transport.Uart.Wait | main.py:65 | waiting moves the next pending batch, if any, to the end of the buffer and drops it from the pending batches; with nothing pending it changes nothing; the stream of unread bytes is unchanged |
| Bytes.FromBigEndian | main.py:56 | an `n`-byte big-endian value is below `256^n` |
| Bytes.FromBigEndianPair | main.py:56 | two bytes read big-endian give `hi*256 + lo`, below 65536 |
| Bytes.FromToBigEndian | main.py:56 | decoding the big-endian encoding of a value gives the value |
| Bytes.ToFromBigEndian | main.py:56 | encoding a decoded value at the same width gives back the bytes |
| Pairing.ConnectedOnlyWhenPresent | main.py:20-21 | after every pass, `present` is what was observed and `connected` holds exactly when present and the link is up |
| Pairing.AttemptOnlyWhenArmed | main.py:22-23 | a pass attempts (and so, by `Badge.App.Loop`, calls `try_connect` once) exactly when present, not connected and `connect_failed` is `None` (both directions) |
| Pairing.AttemptIsRecorded | main.py:22-27 | after an attempt, `connect_failed` is a bool (the negated result) unless SW4 clears it in the same pass; that pass reads nothing and keeps the partner |
| Pairing.RequestSentIffConnected | main.py:22-25 | the pass sends exactly `[0x01]` if and only if it attempted and the attempt succeeded; a pass that is not connected sends `[0x01]` after a successful attempt and nothing otherwise, so a failed attempt sends nothing |
| Pairing.Sw4Rearms | main.py:26-27 | SW4 leaves `connect_failed` as `None`; without SW4 and without an attempt it is unchanged |
| Pairing.HandshakeOnlyWhenConnected | main.py:46-47 | when not connected, the pass reads no byte, keeps the partner, and sends only the request byte of a successful attempt |
| Pairing.RequestAnswered | main.py:50-53 | opcode `0x01` is answered with `[0x02, id[-2], id[-1]]`, consumes one byte and keeps the partner |
| Pairing.ReplyTakesPartner | main.py:54-56 | opcode `0x02` followed by `hi, lo` sets the partner to `hi*256 + lo`, in `0..65535`, sends nothing and consumes three bytes |
| Pairing.OtherInputIgnored | main.py:50-54 | with nothing ready, or an unknown opcode, nothing is sent, the partner stays and at most the opcode byte is consumed (none when nothing is ready) |
| Pairing.DeviceIdBytes | main.py:53 | the two id bytes we send are exactly the 16-bit big-endian encoding of our device id |
| Pairing.PeerLearnsOurId | main.py:53-56 | round trip: a peer running the same code that reads our reply sets its partner to our device id |
| Pairing.Handshake | main.py:19-56 | two devices: A's successful connect sends `0x01`, B answers with its reply, and on A's next connected pass A's partner is B's device id |
| Pairing.OneAttemptPerArming | main.py:22-27 | over any run of passes without SW4, at most one connect attempt happens, and none if an outcome is already on record |

## Left out

- Display rendering and the hash that triggers a redraw (main.py:28-45, 68-69): user interface only; they change no modelled field. The `hash` field is not modelled.
- Reading `partner.txt` and parsing it with `int` (main.py:12-17): file I/O. The constructor takes the result as an `Option`, `None` standing for any failure.
- The `badge.uart` primitives and `machine.unique_id`: foreign calls. `present`, `is_connected`, the answer `try_connect` would give and the SW4 state are the fields of one `Observation` per pass. `receive`, `send` and `time.sleep` act on the `Uart` byte streams. The hardware id is a constant byte sequence.
- Badge.App.Loop: `is_connected` is called only when the code reaches it, but the model receives its result as an input every pass. `try_connect` calls are counted, but their side effects on the link are not modelled, only their result.
- Transport.Uart.Receive: `receive(n)` is taken to return at least one byte whenever one is buffered and `n > 0`.
- Badge.App.BlockingRead: `_blocking_read` spins forever when the peer never sends enough bytes. The model requires the stream of unread bytes to hold at least `size` bytes, so a read that never ends is not modelled.
- Badge.App.HandleUart: requires that a ready `0x02` opcode is followed, sooner or later, by its two id bytes, for the same reason.
- Badge.App.Loop: requires the same when the pass observes a connected link.
- image.py and image_button.py: asset loading and drawing, and a plain record without behaviour.
