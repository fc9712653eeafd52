# Serial bridge relay and co-processor boot — a Dafny model

The firmware bridges two serial links on a microcontroller. One link goes to an
ESP co-processor (`esp`). The other goes to the host's virtual COM port (`vcom`).
Before relaying, it power-cycles the co-processor, with its boot-strap pins set
for either normal boot or programming ("flash") mode. This project models the
two pieces of sequential logic in `src/main.rs`:

- **The relay loop.** There are two 128-byte queues, `to_esp` and `to_vcom`, each with
  `head`/`tail` indices. Each loop iteration does four things:
  - reads one byte from each link and appends it, silently dropping the newest byte on overflow;
  - applies the optional CR/LF normalisation on the host-to-co-processor direction;
  - offers one byte per queue to the opposite link, resetting both indices to 0 once a queue empties;
  - drives the busy LED.
- **The boot pin sequence.** It puts `en` and `reset` low, waits 100 ms, sets `gpio0`/`gpio2`
  to the levels for the requested mode, and then puts `en` and `reset` high. The status LED
  set-up just before it is modelled too.

Hardware is abstracted. A serial read becomes an `Option<bv8>` input (no byte and a read
error are the same thing to the loop). A write becomes a success flag. Pin writes and the
delay become events in a trace.

Modules:

- `Wrappers` (`wrappers.dfy`): `Option`.
- `Pins` (`pins.dfy`): levels, lines, trace events, and the level a line holds after a trace.
- `ByteQueue` (`byte_queue.dfy`): one direction's buffer. Its abstract view is
  `Contents(q) = buf[head..tail]`.
- `Relay` (`relay.dfy`): the translation rule, the all-or-nothing admission rule, ingress,
  egress and one loop iteration.
- `RelayRun` (`relay_run.dfy`): finite runs of the loop, FIFO order and CR/LF pairing.
- `Boot` (`boot.dfy`): the boot procedure and the LED set-up.

Reference definitions the contracts are stated against:

- `Relay.Translate` says what a host byte should become.
- `Relay.Admitted` says a chunk is appended whole if it fits before the end of the buffer,
  and dropped whole otherwise.
- The ingress functions follow the source's `match` guards and index checks, and their
  contracts prove them equal to these references.
- `Pins.LevelAfter` gives a trace its meaning as pin levels. The boot lemmas are stated in
  terms of it.

## Model

| member | source | states |
|---|---|---|
| ByteQueue.Init | src/main.rs:218-225 | The initial queue satisfies `head <= tail <= 128`, is at index 0 and holds nothing. |
| ByteQueue.Push | src/main.rs:243-248 | With a slot free, the byte is appended to the contents, `head` is unchanged and the bytes before `tail` are not touched. With `tail == 128`, the queue is unchanged. The index invariant and reset-on-empty are kept. |
| ByteQueue.PushPair | src/main.rs:235-241 | With `tail + 1 < 128`, exactly the two bytes are appended in order. Otherwise the queue is unchanged, so no partial pair is written. |
| ByteQueue.Drain | src/main.rs:263-288 | A byte is sent iff the queue is non-empty and the write succeeds. The byte sent is the oldest pending one, and the contents lose exactly that byte. A failed or skipped write changes nothing. A queue emptied by a send sits at `head == tail == 0`. A send that leaves bytes queued only advances `head`; `tail` and the buffer are unchanged, so live data is never moved. The index invariant is kept. |
| ByteQueue.RoomIsOnlyAfterTail | src/main.rs:244-247 | Free space is only what lies after `tail`: a queue with 28 pending bytes and `tail == 128` still drops a new byte. |
| Relay.IngressVcom | src/main.rs:234-250 | The host-side read appends exactly `Admitted(Translate(byte))`. That is the translated chunk when it fits and nothing otherwise. `tail` advances by the number of bytes appended, and the bytes before the old `tail` are untouched. A read that adds nothing leaves the queue completely unchanged. The invariants are kept. |
| Relay.IngressEsp | src/main.rs:251-259 | The co-processor read appends the byte unmodified when a slot is free, advancing `tail` by one. Otherwise, or when nothing is read, the queue is unchanged. |
| Relay.CrExpandsAtomically | src/main.rs:235-241 | Under normalisation, CR queues CR LF when two slots are free. Otherwise the queue stays exactly as it was, so a lone CR is never queued. |
| Relay.LfDiscarded | src/main.rs:242 | Under normalisation, an LF from the host leaves the queue unchanged. |
| Relay.VerbatimWhenNotTranslating | src/main.rs:235-248 | In flash mode, or with the build switch off, host ingress is identical to the untranslated path. CR and LF are appended like any other byte. |
| Relay.Start | src/main.rs:218-225 | Both queues start valid, at index 0 and empty. |
| Relay.Ingress | src/main.rs:234-259 | After the two reads, each queue's contents are its old contents plus what the admission rule accepts. `head` is unchanged, and `tail` grows by the number of accepted bytes. |
| Relay.Egress | src/main.rs:261-294 | Each link receives the oldest pending byte and the rest stay queued in order. A byte goes out iff one is pending and the write succeeds. A failed or skipped write leaves the queue unchanged. A send only advances `head`, or resets both indices when it empties the queue. `busy` holds iff either queue was non-empty before egress, whatever the write outcome. The LED level equals `busy`. |
| Relay.Step | src/main.rs:233-295 | One iteration: sent byte plus remaining contents equal old contents plus admitted bytes, for each direction. The send and busy conditions are as for egress. The LED follows `busy`. Each new `tail` is the old `tail` plus the admitted bytes, and each new `head` is the old `head` plus the bytes sent, except that both are 0 after a send that empties the queue. The index invariant and reset-on-empty are preserved. |
| RelayRun.Run | src/main.rs:233-295 | Over any finite schedule of I/O outcomes, for each link: bytes received plus bytes still queued equal bytes initially queued plus bytes accepted. So order is FIFO and nothing is altered or lost after acceptance. The invariants hold throughout. |
| RelayRun.RunAcceptsWholeChunks | src/main.rs:234-259 | The bytes each queue accepts are the offered reads with whole chunks left out. In the co-processor-to-host direction these are single raw bytes, so that stream is a subsequence of the bytes read. |
| RelayRun.HostInputFits | src/main.rs:251-258 | A byte is dropped only when it does not fit after `tail`. When all the co-processor input of a run fits between the host queue's `tail` and the end of the buffer, every byte is accepted in order, whatever the write outcomes. |
| RelayRun.CoprocessorInputFits | src/main.rs:234-250 | The same for the co-processor direction after translation. When all translated host input fits after the co-processor queue's `tail`, every chunk is accepted whole and in order. |
| RelayRun.HostKeepsUp | src/main.rs:251-274 | If the host link accepts every write, start from an empty host queue at index 0. Then every byte read from the co-processor is accepted and written to the host, in order, with none dropped, and the queue stays at index 0. |
| RelayRun.CoprocessorKeepsUp | src/main.rs:234-288 | The same for the co-processor direction, without normalisation: if the co-processor link accepts every write, every byte read from the host reaches it unmodified and in order. |
| RelayRun.AcceptedPaired | src/main.rs:235-242 | Under normalisation, in the accepted host-to-co-processor stream every CR is immediately followed by LF, and every LF immediately follows a CR. |
| RelayRun.CoprocessorStreamPaired | src/main.rs:235-242 | Under normalisation, take what the co-processor has received followed by what is still queued for it. In that stream no CR stands alone and no LF is bare. |
| RelayRun.FifoFromStart | src/main.rs:218-295 | From the initial state, each link has received a prefix of the bytes its queue accepted, in acceptance order. Reset-on-empty holds. |
| Boot.BootSequence | src/main.rs:180-198 | The trace is, in order: `en` low, `reset` low, a 100 ms delay, `gpio0` low in flash mode and high otherwise, `gpio2` high, `en` high, `reset` high. |
| Boot.BootPrefixes | src/main.rs:180-198 | Facts at selected prefixes of the boot trace. Before any event, `en` and `reset` are undriven. After the first two events they are low and no time has passed. They are still low after the delay (100 ms elapsed) and after the `gpio0` write. From the `gpio2` write on, the strap pins hold the mode's levels. After all seven events, `en` and `reset` are high and 100 ms have passed. |
| Boot.BootOutcome | src/main.rs:186-198 | After boot, `en` and `reset` are high, the strap pins hold the levels the mode requests, and exactly 100 ms have passed. |
| Boot.BootOrdering | src/main.rs:179-198 | The delay and the strap configuration happen while `en` and `reset` are low. The straps are set only after 100 ms. `en` and `reset` go high only once the straps hold the requested levels. |
| Boot.Indicators | src/main.rs:160-175 | The busy LED ends low. A flash LED, where the board has one, ends lit exactly in flash mode. No other line is driven. |
| Boot.StartupOutcome | src/main.rs:160-198 | `Startup` is the LED set-up followed by the boot. After it, the co-processor is powered in the requested mode, and the LED levels are those the set-up chose. |

## Left out

- Peripheral and clock set-up, pin-mux selection and serial configuration (src/main.rs:40-70, 79-158, 202-216): hardware plumbing over crates that are not part of this model.
- How `flash_mode` is sampled from the user button (src/main.rs:97 and 99): the polarity differs per board, so the mode is a parameter of `Config` and `Boot`.
- Which board variant has a flash LED (src/main.rs:148-158): a parameter (`hasFlashLed`).
- RTT logging (`rprintln!`) and the `unwrap()` panics when acquiring peripherals or driving pins: diagnostics and fatal set-up paths. Pin writes are modelled as infallible, and the busy-LED write's ignored error (`.ok()`) as no effect.
- Real serial reads and writes: a read is an `Option<bv8>` input, and a write outcome is a boolean input that is only consulted when a byte is offered.
- Real-time delay: a `DelayMs(100)` trace event.
- Relay.Step: the infinite `loop` is not modelled as non-terminating. One iteration is a step, and `RelayRun.Run` covers any finite number of iterations.
- The busy flag means a byte was pending at egress, not that one was sent, so a failed write still lights the LED (src/main.rs:263-264, 276-277).
- Free space in a queue is `LEN - tail`, not `LEN - |contents|`. Live data is never shifted down, so bytes can be dropped while the queue is far from full (`ByteQueue.RoomIsOnlyAfterTail`; `ByteQueue.Drain` states that a send only advances `head`). This is the code's behaviour and is kept.
