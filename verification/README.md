# libsodchan in Dafny

libsodchan is an SSH-like multiplexed session written as a step machine: bytes
in, bytes out, events out, no callbacks and no system calls.  This project
models the whole machine - the wire codecs, the handshake and authentication,
the channel multiplexer with its credit windows, and the byte buffers - and
proves what holds of one session against any peer and of two honest sessions
joined by their bytes.

`dafny verify dfyconfig.toml` checks everything.

## How it is built

| layer | files | what it is |
|---|---|---|
| wire | `Wire`, `WirePdu`, `Transcript`, `WireLayout`, `Encoder`, `Decoder` | byte layouts as functions with their inverses and offsets, and the encoders and decoders as methods over the caller's buffer |
| decisions | `Mux`, `Table` | what each host call and each received PDU decides (`DoOpen` ... `DoDisconnect`, `Handle`), and the sixteen channel slots it changes |
| PDU pair | `Net`, `NetBinding`, `NetDelivery`, `NetCredit`, `NetSafety`, `NetLimits`, `NetExact`, `NetRefusals`, `NetLaws`, `NetTerms`, `NetAnnounce`, `Partings` | two multiplexers joined by two FIFO queues of PDUs; the invariants over both ends and everything in flight |
| one session | `Crypto`, `Engine`, `EngineInput`, `EngineLife`, `EngineCalls`, `EngineKeys`, `EngineProof`, `EngineTable`, `HostView` | `sodchan_ctx` as a value, every entry point as a function of it, and what every run keeps whatever the peer sends |
| step by step | `CallLaws`, `PduLaws`, `AuthLaws` | for every host call, received PDU and decision: exactly when it is granted, and what joins the output, changes in the slots and is told, over the fields alone |
| byte pair | `Pair`, `PairRun`, `Handshake`, `Agreement`, `Lifetime`, `Leaving`, `Rejection`, `Restart` | two sessions joined byte for byte; refinement to the PDU pair, the handshake's phases, what the two agree on in any run, the whole life from creation, when a side may leave, what a rejection does, and the life after a reset |
| the object | `Buffers`, `EventRing`, `ChannelTable`, `Allow`, `Sequenced`, `Session` | `sodchan_ctx` as a class with its fields, buffers, slots and ring updated in place, loop by loop; each method is proved to do what `Engine` says |

`Session.Session.Core()` is the value the object stands for, and every method
ensures that the new value is the function of the old one that `Engine` gives;
so the theorems about `Engine`, `Pair` and `Net` are theorems about the object.

Cryptography is ideal (`Crypto`): a signature verifies under its own key, both
sides of a key exchange derive the same two keys crossed, and a sealed record
opens at its own stream position and is 17 bytes longer.  `IdealExists` shows
that the laws can be met together.  The run theorems about one session use the
record law alone.

## What turned out

- **Three rules make an honest pair safe, and a host can check each before the
  call.**  Close a channel only when it is pending or its peer has sent EOF; do
  not overflow a receive window; do not disconnect in AUTH.
  `Lifetime.HonestLife` asks the hosts for nothing else, except that a decision
  on the device, when it is taken, accepts it.  The rules bind the calls that
  are granted: one that is refused sends nothing and changes no channel.
- **What each rule guards against is exact, with the peer in view.**
  - Closing an open channel is safe if and only if no DATA to it is in flight
    and the peer can send it none (`NetExact.CloseIsSafeExactly`); otherwise
    that DATA, or an empty chunk sent later, ends in ERROR.
  - Overflowing a window is safe if and only if the peer can send no more on
    the channel and what is in flight fits what is left
    (`NetExact.OverflowIsSafeExactly`).  A peer that can send holds, as credit
    and in flight, the whole of the old window, and that is more than is left:
    from a window of 2^32 - 1 and a credit of 2^31, ERROR takes it more than
    2^31 - 1 bytes, but nothing stops it.
  - A disconnect is safe if and only if the caller is not in AUTH, or is a
    server whose client has closed (`Leaving.DisconnectIsSafeExactly`).  Before
    AUTH it goes to CLOSED and sends nothing.  In AUTH it sends a DISCONNECT,
    which a peer in AUTH refuses with ERROR; and if AUTH_OK is already on its
    way, that arrives in DRAINING, where it is an unknown mux PDU.

  `NetExact.HarmHappens` leads a careful pair to where the first two do harm.
- **A host can know its channels** (`HostView.HostKnowsItsChannels`): granted
  calls and events are enough to keep an exact copy of every live slot, its
  windows included, whatever the peer sends.
- **A reset is a new beginning** (`Restart.SecondLife`): only identity and pin
  survive, and a pair that was reset completes and agrees as a fresh one does.
- **Agreement needs no rules** (`Lifetime.SessionsAgree`): one transcript, one
  pair of keys and the right device hold in every run, with early disconnects,
  rejections and failures.
- **A frame that leads to ERROR is not taken out of the input buffer**
  (`process_input` returns before the `memmove`), so a chunk is off the link
  exactly when it has been offered to the host.
- **DRAINING serves OPEN.**  After a disconnect in AUTH a PENDING channel can
  exist on a session that was never authenticated
  (`EngineCalls.PendingNeedsNoAuth`); OPENING and OPEN channels cannot.
- **Fewer than four residual bytes need not begin a legal frame.**
  `process_input` waits for four bytes before it looks at the length;
  `EngineInput.ShortResidue` says exactly when they do, and
  `EngineInput.CanWaitInVain` gives a byte that does not.
- **Credit is exact until an adjust overflows** and modulo 2^32 after that,
  on both ends; the sender's sum never overflows while it is exact.
- **A DATA of 2^32 bytes or more is accepted by its decoder**, and no encoder
  writes it (`WirePdu.EncodeDecode`); the record limit keeps it from a session.
- **A PONG is accepted whatever follows its type byte**; every other mux PDU
  is decoded in full.
- Where the design notes and the code differ the model follows the code: no
  TAG_FINAL on disconnect, no rekeying by the sender, no move from DRAINING to
  CLOSED without the peer, no per-channel data budget.

## Assumptions in the statements

Pair theorems assume fewer than 2^32 channel ids taken on each side
(`IdsLeft`; the byte pair counts them exactly; agreement does not need it), at most sixteen channels, and
record limits that let each side read what the other sends.  `Matching`
describes a server and a client configured for each other.  Sums of sizes do
not wrap.

## Model

| member | source | states |
|---|---|---|
| Lifetime.HonestLife | src/sodchan.c:1108-1158 | From creation, in every run of the bytes of a matching pair (any calls, any interleaving, any sizes of output and input) in which every call that is granted keeps the three rules, neither side enters ERROR; a refused call is free |
| Leaving.DisconnectIsSafeExactly | src/sodchan.c:1681-1691 | On every careful run from creation: a disconnect of the client is followed by no ERROR, on any careful run, if and only if it is not in AUTH; one of the server if and only if it is not in AUTH or its client has closed |
| Leaving.ServerLeavingIsFatal | src/sodchan.c:1681-1688 | A server that disconnects in AUTH: delivering what is in flight, which breaks no rule, ends a client that is still there in ERROR |
| Leaving.ClientLeavingIsFatal | src/sodchan.c:1681-1688 | A client that disconnects in AUTH before it is accepted: delivering what is in flight, which breaks no rule, ends the server in ERROR |
| Leaving.AcceptedLeavingIsFatal | src/sodchan.c:1681-1688 | A client that disconnects in AUTH with AUTH_OK on its way, whatever follows it: delivering what is in flight, which breaks no rule, ends the client in ERROR |
| Leaving.AloneIsSafe | src/sodchan.c:1681-1688 | A server whose client has closed may disconnect in AUTH: nothing that follows leads to ERROR |
| Lifetime.BytesDeliver | src/sodchan.c:624-956 | From creation, in every run whatever the hosts do: either no host was told of a pair and no chunk was accepted or delivered, as when the client is never accepted; or, in both directions, for each pair the hosts were told of, the chunks channel_send accepted are the chunks given to the peer's host, then the DATA sealed in the bytes in flight, in order; recv_window = send_window + DATA + credit in flight mod 2^32, exactly unless an adjust really overflowed; pairs are one to one; no record fails to open |
| Lifetime.AcceptedDelivers | src/sodchan.c:1380-1391 | From the server's acceptance on, in every run, it is always the second: channels deliver in order both ways |
| Lifetime.ChannelsOrNone | src/sodchan.c:1358-1401 | From any phase of the handshake, every run comes to the channel layer, with its streams and queues, or never pairs a channel |
| Agreement.DriftRun | src/sodchan.c:1358-1401 | Once a side has left AUTH before the client took its acceptance, by a disconnect or a rejection, no channel is ever paired, no chunk accepted and none delivered, in any run |
| Lifetime.DeliveredInOrder | src/sodchan.c:805-848 | In every run from creation what a host was given on a channel is a prefix of what channel_send accepted on its peer, and all of it once no byte is in flight, both ways |
| Lifetime.FreshPairCompletes | src/sodchan.c:958-1106 | Liveness from creation: deliveries in pieces of any size and one acceptance end within a bound, and can only end with both sides READY in one agreed session |
| Lifetime.SessionsAgree | src/sodchan.c:169-213 | From creation, in every run whatever the hosts do: once both are past HELLO they hold one transcript and the same direction keys; a device the server has is this client's, by key, user and device name; a READY client was accepted; no signature and no record ever fails |
| Lifetime.ReadyClientWasAccepted | src/sodchan.c:1380-1391 | In every run, if the client is READY the server verified its AUTH_DEVICE over the shared transcript, told its host exactly this client's key, user and device and no other, its host accepted, and both hold the same keys |
| Lifetime.ServerHeardClient | src/sodchan.c:519-580 | In every run, when the server of an honest pair has a device, one of the frames its feeds took - behind the HELLO, the header and n records, and opened as message n - is an AUTH_DEVICE with this client's key, user and device, verified over the server's own transcript; it is decided at most once |
| Lifetime.RunIsOps | src/sodchan.c:1289-1401 | What a run of the pair does to the server is a run of that session alone, so every result about one session holds in the pair |
| Agreement.RunAgrees | src/sodchan.c:958-1106 | From any phase before the server's header, in every run whatever the hosts do, the two agree, and the server is authenticated only if its host accepted |
| Agreement.LateRun | src/sodchan.c:624-692 | From the server's header on, in every run: what is in flight is sealed in order at the stream positions both ends hold, AUTH_OK only from a server that accepted, AUTH_DEVICE only as the client signs it |
| Agreement.ServerRecord | src/sodchan.c:624-692 | A record of the client's opens at the server, and leaves it with this client's device or none |
| Agreement.ClientRecord | src/sodchan.c:582-603 | A record of the server's opens at the client, and makes it READY only if the server accepted |
| Lifetime.FreshStarts | src/sodchan.c:1160-1178 | Two fresh matching sessions are in phase 0: the client HELLO is in flight and nothing else |
| Handshake.PhaseStep | src/sodchan.c:1108-1158 | Every step of a shaking pair, short of a rejection or a disconnect in AUTH, stays in its phase or enters the next; nothing else can happen |
| Lifetime.OpeningBegins | src/sodchan.c:1380-1391 | The moment the server accepts, the bytes in flight are the one sealed AUTH_OK and the channel layer begins |
| HostView.HostKnowsItsChannels | src/sodchan.c:694-956 | Any peer, any run, below 2^32 ids: a copy of the channels kept from the host's own granted calls and the events offered to it, and nothing else, is exactly the live slots, field by field; and every event is one the copy expects: opened once, data within its window, each id once |
| HostView.WindowsAreAccounted | src/sodchan.c:829-868 | Any peer, any run: an open channel's send window is the window announced plus the credit told in its events less the bytes channel_send accepted, and its receive window the configured one plus the credit granted less the bytes given, mod 2^32 |
| HostView.RunSeen | src/sodchan.c:694-956 | The copy stays exact along every run, whatever it started from |
| HostView.SeeBooked | src/sodchan.c:829-868 | Each note keeps the account of every channel |
| NetAnnounce.HostsAreToldTheTerms | src/sodchan.c:718-778 | In every run of the pair the window and packet limit told with a channel are the peer's configured ones (or one's own limit where it has none), and with a channel the host accepted, its own |
| NetAnnounce.RunInForce | src/sodchan.c:718-778 | The terms in flight and the terms told stay the configured ones along every run |
| Partings.CloseReachesThePeer | src/sodchan.c:1625-1631 | In every run: once what is in flight is delivered after a channel_close whose CLOSE fits, the peer has stopped, or its end is gone and its host was told by CHANNEL_CLOSE |
| Partings.DisconnectReachesThePeer | src/sodchan.c:1681-1691 | In every run: once what is in flight is delivered after a disconnect in READY whose DISCONNECT fits, the peer has failed, or is CLOSED and its host was told the reason |
| Rejection.RejectionReachesTheClient | src/sodchan.c:1392-1400 | A rejection of the device ends the server, told AUTH_FAILED by policy and REJECTED; what is then in flight, delivered, ends the client waiting in AUTH, told AUTH_FAILED and REJECTED |
| CallLaws.SendLaw | src/sodchan.c:1513-1560 | channel_send returns OK if and only if READY, an open channel without EOF sent, and the length within packet limit, 65536, credit, record limit and free output; each other code exactly when; then one DATA and the credit spent, or nothing |
| CallLaws.OpenLaw | src/sodchan.c:1408-1452 | channel_open: exactly when OK and each refusal; one OPEN with the next id and the configured terms, and an opening slot |
| CallLaws.AcceptLaw | src/sodchan.c:1454-1511 | channel_accept, yes: exactly when OK and each refusal; one CONFIRM, an open slot, and the event with the terms announced |
| CallLaws.RejectLaw | src/sodchan.c:1454-1511 | channel_accept, no: exactly when OK and each refusal; one OPEN_FAIL, and the slot gone |
| CallLaws.EofLaw | src/sodchan.c:1578-1606 | channel_eof: exactly when OK and each refusal; the first sends EOF and marks the slot, a second is OK and does nothing |
| CallLaws.AdjustLaw | src/sodchan.c:1635-1661 | channel_window_adjust: exactly when OK and each refusal; one WINDOW, and the window grown mod 2^32 |
| CallLaws.CloseLaw | src/sodchan.c:1608-1633 | channel_close: OK for every live channel in READY or DRAINING; the slot is gone, and one CLOSE is sent exactly if the channel is open and a CLOSE fits |
| CallLaws.DisconnectLaw | src/sodchan.c:1663-1693 | disconnect: always OK; DRAINING with one DISCONNECT exactly if one fits, from AUTH on; CLOSED and silent otherwise |
| CallLaws.SendVerdict | src/sodchan.c:341-361 | ss_send_pdu refuses for a stream that is not up, a record over the limit or an output without room, in this order, and for nothing else |
| PduLaws.OpenIsHeard | src/sodchan.c:700-748 | CHANNEL_OPEN: refused for its name, with text, or for want of a slot, without; or pending on the peer's terms, and told so |
| PduLaws.ConfirmIsHeard | src/sodchan.c:749-779 | CONFIRM: opens an opening channel on the peer's terms, and tells them; for any other it is fatal |
| PduLaws.OpenFailIsHeard | src/sodchan.c:780-804 | OPEN_FAIL: an opening channel is gone, and its name told; for any other it is nothing |
| PduLaws.DataIsHeard | src/sodchan.c:805-848 | DATA: told and spent within an open channel's window; otherwise fatal |
| PduLaws.WindowIsHeard | src/sodchan.c:849-870 | WINDOW: an open channel's send window grows mod 2^32; the one event says what was added and then what may be sent; for any other it is nothing |
| PduLaws.EofIsHeard | src/sodchan.c:871-890 | EOF: any live channel is marked and it is told |
| PduLaws.CloseIsHeard | src/sodchan.c:891-910 | CLOSE: any live channel is gone and it is told |
| PduLaws.PingIsHeard | src/sodchan.c:911-931 | PING is told and answered with its own word if the answer fits; PONG is nothing |
| PduLaws.DisconnectIsHeard | src/sodchan.c:932-951 | DISCONNECT closes the session and tells the reason; the channels stay as they were |
| PduLaws.AuthIsNoMux | src/sodchan.c:952-956 | An AUTH PDU in READY or DRAINING is fatal |
| PduLaws.TooLongIsFatal | src/sodchan.c:641-645 | A record over the limit is fatal unopened |
| PduLaws.RecordsOpen | src/sodchan.c:624-661 | Which ciphertexts are fatal, close the session, or are passed over, and what is left of the stream position |
| PduLaws.JunkIsFatal | src/sodchan.c:661-698 | A message that decodes to nothing is fatal, save behind the type byte of a PONG |
| AuthLaws.ClientMeetsHello | src/sodchan.c:969-1031 | A client goes on exactly if the HELLO is a server's, its key trusted, its signature valid over the transcript, the exchange good and the header fits; what each refusal leaves and tells |
| AuthLaws.ServerMeetsHello | src/sodchan.c:1033-1060 | A server goes on exactly if the HELLO is a client's, its own fits and the exchange is good; the signed HELLO it sends |
| AuthLaws.BadHelloIsFatal | src/sodchan.c:958-968 | What is no legal HELLO is refused by both, and changes nothing else |
| AuthLaws.ClientMeetsHeader | src/sodchan.c:1071-1087 | A client reads from message 0 and sends the AUTH_DEVICE it owes, if it has a device; if that does not fit it fails |
| AuthLaws.ServerMeetsHeader | src/sodchan.c:1089-1105 | A server reads from message 0 and sends its header, or fails for want of room |
| AuthLaws.BadHeaderIsFatal | src/sodchan.c:1063-1069 | A header of another length is fatal |
| AuthLaws.DeviceIsHeard | src/sodchan.c:519-580 | AUTH_DEVICE awaits a decision exactly if due and signed; a bad signature is answered AUTH_FAIL, told, and fatal |
| AuthLaws.OkIsHeard | src/sodchan.c:582-603 | AUTH_OK makes a client READY, and is fatal to a server |
| AuthLaws.FailIsHeard | src/sodchan.c:605-620 | AUTH_FAIL ends either, told AUTH_FAILED and then REJECTED |
| AuthLaws.MuxIsNoAuth | src/sodchan.c:670-683 | No mux PDU has a place in AUTH |
| AuthLaws.DecisionIsDue | src/sodchan.c:1358-1378 | auth_decide is refused exactly where no decision is due or the claims are too long, and changes nothing |
| AuthLaws.AcceptanceIsSent | src/sodchan.c:1380-1391 | An acceptance sends one AUTH_OK with the claims and is READY, or does not fit and fails |
| AuthLaws.RejectionIsSent | src/sodchan.c:1392-1400 | A rejection sends one AUTH_FAIL, tells the host and fails, or does not fit and fails for that |
| Restart.ResetIsCreation | src/sodchan.c:1256-1287 | Identity and pin survive a reset, and nothing else: the session is the one sodchan_create makes of them |
| Restart.ResetAfterAnyRun | src/sodchan.c:1256-1287 | Any peer, any run, then a reset: the pin is the created one (or, accepting any, the last met), and every invariant of created sessions holds |
| Restart.RejoinedIsFresh | src/sodchan.c:1256-1287 | Two sessions made for each other, both reset after any run, are a fresh pair made for each other |
| Restart.SecondLife | src/sodchan.c:1256-1287 | So the second life agrees in every run and completes as the first |
| Restart.CreationNeedsKeys | src/sodchan.c:1180-1216 | Creation fails exactly for want of a key pair, or of a pin |
| Handshake.HandshakeCompletes | src/sodchan.c:958-1106 | From any phase, productive steps strictly decrease a measure, so they are bounded, and they are stuck only when both sides are READY and agree |
| Handshake.Progress | src/sodchan.c:958-1106 | Each productive step either leaves less to move in its phase or ends the phase |
| Handshake.NeverStuck | src/sodchan.c:1108-1158 | Before both are READY some byte can move or the host can decide: a whole frame is never left unhandled |
| Handshake.TakeFrame | src/sodchan.c:1108-1158 | The only frame in flight, in any number of pieces: a prefix waits and changes nothing, the whole is handled once and leaves nothing |
| Handshake.ServerTakesHello | src/sodchan.c:1033-1060 | The server's answer to an honest client HELLO: transcript, keys and a signed HELLO frame |
| Handshake.ClientTakesHello | src/sodchan.c:969-1031 | The client verifies an honest server HELLO, derives the crossed keys, and sends its header |
| Handshake.ServerTakesHeader | src/sodchan.c:1089-1105 | The server pulls with the client's header and sends its own |
| Handshake.ClientTakesHeader | src/sodchan.c:1071-1087 | The client pulls with the server's header and sends AUTH_DEVICE as record 0 |
| Handshake.DeviceVerifies | src/sodchan.c:463-487 | The signature in an honest AUTH_DEVICE verifies over the transcript the receiver rebuilds from the PDU |
| Handshake.ServerTakesDevice | src/sodchan.c:519-580 | An honest AUTH_DEVICE is verified and awaits a decision; nothing is sent |
| Handshake.ServerDecides | src/sodchan.c:1358-1391 | An accepting decision with claims that fit cannot fail: READY, complete, AUTH_OK as record 0 |
| Handshake.ClientTakesOk | src/sodchan.c:582-603 | AUTH_OK makes the client READY |
| Handshake.EarlyCallsRefused | src/sodchan.c:1419-1421 | Before READY every channel call is refused and changes nothing |
| Handshake.KeysMatch | src/sodchan.c:169-213 | Client and server derive the same two direction keys from the crossed kx keys |
| PairRun.RunFollows | src/sodchan.c:341-373 | Refinement: every run of two byte-joined sessions, any sizes, any calls, any failures, is a run of the PDU FIFOs with the same host calls in the same order, ending with the same channels, the same events, the same accepted chunks and the PDUs sealed in the bytes in flight; it breaks a rule only where a host does |
| PairRun.ProcessFollows | src/sodchan.c:1108-1158 | Processing a buffer is as many PDU deliveries as it holds whole frames, up to the first failure |
| PairRun.ActFollows | src/sodchan.c:1289-1334 | Each host call of a side is that very call on the PDU side, input of any size is a list of deliveries to the same side, and output and decisions are no step; events and accepted chunks grow alike |
| PairRun.HeadFrameIs | src/sodchan_wire.c:61-85 | The first frame of a sealed link, when whole, is exactly the oldest PDU in flight; a frame over the limit is a PDU over the limit |
| PairRun.BadFollows | src/sodchan.c:1133-1136 | A frame over the phase limit fails exactly as the PDU it carries would |
| Pair.RecordFollows | src/sodchan.c:624-692 | A sealed PDU opens at its position and is handled as the PDU layer says, with the same reply, events and table change |
| Pair.CallFollows | src/sodchan.c:1408-1661 | A host call decides the same on the slots as on the channel map, and adds the frame of the PDU it decided to send |
| Pair.SealedSnoc | src/sodchan.c:363-371 | Sending appends the next frame at the next stream position |
| Pair.SealedOpens | src/sodchan.c:633-668 | A sealed PDU opens in place unless it is too long to be looked at |
| EngineInput.ChunkingDoesNotMatter | src/sodchan.c:1289-1311 | Feeding x then y equals feeding x + y, up to unread bytes of a stopped session, although the frame limit changes on the way |
| EngineInput.ProcessMore | src/sodchan.c:1108-1158 | Processing and then being given more is being given it all at once |
| EngineInput.ProcessSettles | src/sodchan.c:1108-1158 | The loop ends only when stopped or waiting for the rest of one frame |
| EngineInput.ResidueIsShort | src/sodchan.c:1118-1132 | At a boundary the residue is below the buffer size and, from four bytes on, a proper prefix of one legal frame |
| EngineInput.ShortResidue | src/sodchan.c:1118-1120 | Below four bytes the session always waits, and the bytes start a legal frame if and only if the least length they allow is within the limit |
| EngineInput.CanWaitInVain | src/sodchan.c:1118-1120 | A created session fed the one byte 255 keeps it and waits, and no legal frame starts with it |
| EngineInput.NeverWedged | src/sodchan.c:1300-1310 | A running session takes at least one byte of every non-empty feed and settles again |
| EngineInput.FrontDecides | src/sodchan.c:1108-1158 | A bad length fails before its body is there, a whole frame is handled and leaves the buffer unless it fails, anything less waits; the limit is 512 bytes in the handshake and then record plus tag within the buffer |
| EngineInput.FeedTakesWhatFits | src/sodchan.c:1289-1311 | A running session takes all it is fed or fills its buffer; a stopped one takes nothing |
| EngineInput.OutputGivesTheOldest | src/sodchan.c:1313-1334 | get_output hands out the oldest bytes, as many as asked for and there |
| EngineProof.Authentication | src/sodchan.c:969-1031 | Any peer, any run: a client past HELLO took as its first frame a HELLO of its pinned server whose own signature verifies over a transcript with the client's ephemeral; a server awaiting, decided or READY took a HELLO frame, a header frame, n record frames and then the frame that opened, as message n, to an AUTH_DEVICE whose signature verifies over its transcript, and told its host that key, user and device; auth_decide succeeds at most once, and READY takes exactly one accept; OPENING and OPEN imply authentication |
| EngineProof.RunProves | src/sodchan.c:1289-1311 | In every run the frames taken are accounted for one by one, and the evidence for the peer's identity is one of them |
| EngineProof.HelloProves | src/sodchan.c:969-1031 | An accepted HELLO is the evidence: its own signature verified, over this session's transcript |
| EngineProof.DeviceProves | src/sodchan.c:519-580 | An AUTH_DEVICE is evidence exactly when its own signature verifies: the frame next in line, its opening, the names told to the host |
| EngineLife.RunsKeep | src/sodchan.c:1358-1401 | Any peer, any run: the state only moves up the life cycle, a decision and the pin never change; auth_decide returns OK at most once, to accept or reject, and each success turns decided on; decided without a success means the session failed; a server is authenticated as often as its host accepted |
| EngineLife.DoKeeps | src/sodchan.c:1289-1401 | Each operation keeps the invariant; a decision succeeds only where none was made and then one is; only an accepting decision completes a server's authentication |
| EngineLife.CreatedIsSound | src/sodchan.c:1180-1239 | A created session satisfies the invariant, in HELLO, unauthenticated |
| EngineLife.ClientHelloKeeps | src/sodchan.c:969-1031 | The client's half of HELLO keeps the life cycle, the flags, the table and the output bound, whatever the HELLO |
| EngineLife.ServerHelloKeeps | src/sodchan.c:1033-1060 | The server's half of HELLO keeps the invariant |
| EngineLife.DeviceKeeps | src/sodchan.c:519-580 | AUTH_DEVICE keeps the life cycle, the flags, the table and the output bound, whatever the PDU |
| EngineLife.DecideKeeps | src/sodchan.c:1358-1401 | auth_decide keeps the invariant; it returns OK only where a decision was awaited and none made, and then one is; refused it changes nothing, failed it decides and ends in ERROR |
| EngineLife.SettleKeeps | src/sodchan.c:694-956 | Every multiplexer operation keeps the invariant: table counted, output within its buffer, no channel open without authentication |
| EngineKeys.TranscriptFixesKeys | src/sodchan.c:169-258 | A client run and a server run, each against anyone, with equal transcripts hold each other's ephemerals and equal keys |
| EngineKeys.RunDerives | src/sodchan.c:169-258 | In every run, past HELLO, transcript and keys are the ones derived from the ephemerals held |
| EngineTable.TableIntegrity | src/sodchan.c:377-416 | Any peer, any run: the count is the number of live slots within the limit, allocation fails only on the limit, and below 2^32 ids live ids are distinct and under the counter |
| EngineTable.RunNumbered | src/sodchan.c:389-405 | Ids taken are counted exactly, and keep live ids distinct |
| EngineCalls.RefusedCallChangesNothing | src/sodchan.c:1408-1661 | A call that does not return OK changes nothing; a failed open uses up at most its id |
| EngineCalls.GrantedCallSendsOneFrame | src/sodchan.c:1408-1661 | A granted call that owes the peer a PDU appends exactly the frame of that PDU; the counter moves exactly with a frame |
| EngineCalls.SendIsAllOrNothing | src/sodchan.c:341-373 | ss_send_pdu appends one whole frame within the limit and advances the counter, or leaves everything alone |
| EngineCalls.PendingNeedsNoAuth | src/sodchan.c:1681-1688 | A disconnect in AUTH leads to DRAINING, where an OPEN leaves a PENDING channel on a session never authenticated |
| NetSafety.HonestPairsAreSafe | src/sodchan.c:694-956 | No careful run of two PDU-joined sides from the server's acceptance leads either to ERROR |
| NetSafety.RunSound | src/sodchan.c:694-956 | The safety invariant is kept by every careful run |
| NetSafety.StepSound | src/sodchan.c:694-956 | The safety invariant is kept by every careful call and every delivery on either side |
| NetSafety.ReceiveFaults | src/sodchan.c:641-645 | Exactly which received PDU leads to ERROR in READY or DRAINING, both directions |
| NetSafety.NoFault | src/sodchan.c:759-836 | In a sound pair the oldest PDU never does: no unknown CONFIRM, no DATA on a bad channel, over window or too large |
| NetSafety.RunLawful | src/sodchan.c:694-956 | Agreement, delivery and credit hold in every run, careful or not |
| NetRefusals.RunRefuses | src/sodchan.c:700-748 | In every run an OPEN_FAIL on its way names an OPEN that was made, and that nothing else answers |
| NetLimits.EarlyCloseIsFatal | src/sodchan.c:1625-1631 | Closing an open channel whose peer may still send: an empty chunk is then enough for ERROR |
| NetLimits.AbandonedOpenIsFatal | src/sodchan.c:759-763 | Closing a channel still opening: the peer's accept then leads to ERROR |
| NetExact.CloseIsSafeExactly | src/sodchan.c:1608-1633 | For every pair that careful runs reach: closing an open channel is followed by no ERROR, on any careful run, if and only if no DATA to it is in flight and its peer can send none: the peer is not READY, or its end is gone, or its end has sent EOF |
| NetExact.OverflowIsSafeExactly | src/sodchan.c:1635-1661 | For every pair that careful runs reach: an adjust that overflows is followed by no ERROR, on any careful run, if and only if the peer can send no more on the channel and the bytes in flight to it fit the wrapped window |
| NetExact.HarmHappens | src/sodchan.c:1625-1661 | From every beginning of a pair with a usable name a careful run opens a channel, at which closing, and overflowing the window, is no longer safe |
| NetExact.HarmlessIsSafe | src/sodchan.c:1608-1661 | A call that keeps the rules, or whose peer is finished and whose traffic in flight it leaves room for, is safe |
| NetExact.SpendingIsUnsafe | src/sodchan.c:816-824 | A peer whose credit and DATA in flight exceed the window in sum can reach ERROR chunk by chunk, whatever the packet limit |
| NetExact.OverdrawnIsUnsafe | src/sodchan.c:816-824 | More bytes in flight than the window holds end in ERROR, whatever is between them |
| NetLimits.EarlyDisconnectIsFatal | src/sodchan.c:1681-1691 | Disconnecting in AUTH with AUTH_OK on its way: ERROR exactly when the stream was up |
| NetLimits.ShortRecordIsFatal | src/sodchan.c:641-645 | A PDU above the receiver's record limit anywhere on the link, with no goodbye on it: emptying the link ends in ERROR |
| NetLimits.DoomedFails | src/sodchan.c:816-824 | Once a needed channel is gone, emptying the link ends in ERROR |
| NetLaws.CreditIsConserved | src/sodchan.c:829-862 | For every paired live direction: recv_window = send_window + DATA in flight + WINDOW credit in flight, mod 2^32 always, exactly and without send_window overflow unless an adjust overflowed |
| NetLaws.DeliveryIsOrdered | src/sodchan.c:805-848 | Chunks accepted by send are the chunks delivered, then the chunks in flight, in order; delivered is a prefix of sent |
| NetLaws.NothingStray | src/sodchan.c:871-890 | A channel nobody was paired with delivers nothing, and no DATA follows a channel's EOF |
| NetLaws.PairsAreUnique | src/sodchan.c:721-778 | Pairings are one to one and mutual, for good |
| NetLaws.StaleMeetsItsOwn | src/sodchan.c:377-387 | Every PDU in flight that names a channel meets its own: DATA, WINDOW, EOF, CLOSE and CONFIRM name one pairing, and what is live under the id is that pairing's channel; what is live under the id of a CONFIRM or OPEN_FAIL is the offer it answers, still OPENING |
| NetLaws.OpenEndsAgree | src/sodchan.c:749-778 | If x is OPEN with peer r and r is live, then r is OPEN with x, or OPENING with that CONFIRM in flight |
| NetTerms.PacketsFit | src/sodchan.c:1535-1537 | In every run no chunk in flight, either way, is longer than its receiver announced in OPEN or CONFIRM |
| NetTerms.EndsShareName | src/sodchan.c:721-748 | In every run the two live ends of a channel have one name |
| NetTerms.HostsAreToldTheTruth | src/sodchan.c:739-777 | In every run a host has an event that gives its channel k the peer r if and only if the two are paired |
| NetTerms.RunLimited | src/sodchan.c:735-767 | Announced packet limits and their use are kept by every run |
| NetTerms.RunIntroduces | src/sodchan.c:721-778 | Names on the way and at both ends are kept by every run |
| NetLaws.ReachableIsLawful | src/sodchan.c:694-956 | Every reachable pair, seen from either side, satisfies agreement, delivery and credit |
| NetBinding.StepKeeps | src/sodchan.c:721-778 | Dual-id agreement is kept by every call, close, error and delivery on either side |
| NetBinding.RunKeeps | src/sodchan.c:721-778 | Dual-id agreement is kept by every run |
| NetBinding.EndsAgree | src/sodchan.c:1454-1498 | Agreement implies that two live ends of an open channel name each other, or the CONFIRM is in flight |
| NetDelivery.StepDelivers | src/sodchan.c:805-889 | Conservation of chunks and silence after EOF are kept by every step |
| NetDelivery.RunDelivers | src/sodchan.c:805-889 | Conservation of chunks and silence after EOF are kept by every run |
| NetCredit.StepCredit | src/sodchan.c:1538-1558 | Credit conservation is kept by every step |
| NetCredit.RunCredit | src/sodchan.c:1652-1659 | Credit conservation is kept by every run |
| NetCredit.SendWindowFits | src/sodchan.c:862 | Under exact credit the unchecked sum in send_window never overflows |
| Table.AllocFailsOnlyOnLimit | src/sodchan.c:389-405 | By pigeonhole, ch_alloc fails on the configured limit and on nothing else |
| Table.ChangeKeepsCount | src/sodchan.c:389-416 | active_channels stays the number of live slots |
| Table.ChangeShows | src/sodchan.c:377-416 | Slots and the channel map change in step |
| Table.LookShows | src/sodchan.c:377-387 | Searching the slots finds what the channel map holds |
| Table.Find | src/sodchan.c:377-387 | The first live slot under an id, or none |
| Table.Vacant | src/sodchan.c:395-403 | The first unused slot, or none |
| WireLayout.PduLayout | src/sodchan_wire.c:235-844 | Every PDU field by field: its type byte, each word, count and string at its offset |
| WireLayout.HelloLayout | src/sodchan_wire.c:95-114 | The HELLO body field by field |
| WireLayout.THelloLayout | src/sodchan_wire.c:149-181 | T_hello: domain, version, suite, the client's ephemeral, the server's, the server's identity, at their offsets |
| WireLayout.TAuthLayout | src/sodchan_wire.c:183-233 | T_auth: domain, T_hello, device key and both counted names, at their offsets |
| WireLayout.FrameLayout | src/sodchan_wire.c:35-52 | A frame: four bytes of length, and the body |
| WireLayout.BigEndian | src/sodchan_wire.c:10-33 | Words and half-words are big-endian |
| WirePdu.DecodeEncode | src/sodchan_wire.c:235-844 | Decoding an encoded legal PDU gives the PDU, for every type |
| WirePdu.EncodeDecode | src/sodchan_wire.c:278-817 | What a decoder accepts is legal if and only if it is shorter than 2^32 bytes, and then encoding it gives the bytes back |
| WirePdu.EncodeInjective | src/sodchan_wire.c:235-844 | Distinct legal PDUs never share an encoding |
| WirePdu.EncodeDecodeDevice | src/sodchan_wire.c:278-337 | AUTH_DEVICE with two variable-length fields: decoding then encoding is the identity |
| Wire.GetPutU32 | src/sodchan_wire.c:16-33 | Reading a stored 32-bit word gives it back |
| Wire.PutGetU32 | src/sodchan_wire.c:16-33 | Storing a read 32-bit word gives the bytes back |
| Wire.GetPutU16 | src/sodchan_wire.c:10-27 | Reading a stored 16-bit word gives it back |
| Wire.PutGetU16 | src/sodchan_wire.c:10-27 | Storing a read 16-bit word gives the bytes back |
| Wire.Parse | src/sodchan_wire.c:61-85 | A parsed frame is its length field and a non-empty body within the limit: at least five bytes |
| Wire.ParseFrame | src/sodchan_wire.c:35-85 | A whole frame parses to its body whatever follows |
| Wire.ParsedIsFrame | src/sodchan_wire.c:61-85 | What parses is a whole legal frame followed by the rest |
| Wire.ParseMore | src/sodchan_wire.c:61-85 | A verdict once reached does not depend on what follows |
| Wire.ParseProperPrefix | src/sodchan_wire.c:71-80 | A proper prefix of a legal frame is neither a frame nor bad |
| Wire.SplitFrames | src/sodchan_wire.c:61-92 | Parsing the frames of a list gives exactly the list |
| Wire.SplitPrefix | src/sodchan_wire.c:61-92 | Parsing any byte prefix of them gives a prefix of the list |
| Wire.DecodeEncodeHello | src/sodchan_wire.c:95-147 | Decoding an encoded legal HELLO gives it back |
| Wire.EncodeDecodeHello | src/sodchan_wire.c:95-147 | Encoding an accepted HELLO gives the bytes back |
| Transcript.THelloBinds | src/sodchan_wire.c:149-181 | T_hello determines version, suite, both ephemerals and the server identity |
| Transcript.TAuthBinds | src/sodchan_wire.c:183-233 | T_auth determines session, key, user and device despite two variable-length fields |
| Transcript.TranscriptsDiffer | src/sodchan_wire.c:149-233 | No T_auth is a T_hello |
| Encoder.Open | src/sodchan_wire.c:419-448 | CHANNEL_OPEN: the legal PDU's encoding in the front of the caller's buffer; ErrParam for illegal fields and ErrFull for a short buffer, with the buffer unchanged |
| Encoder.Confirm | src/sodchan_wire.c:486-506 | CHANNEL_OPEN_CONFIRM: the legal PDU's encoding in the front of the caller's buffer; ErrParam for illegal fields and ErrFull for a short buffer, with the buffer unchanged |
| Encoder.OpenFail | src/sodchan_wire.c:528-555 | CHANNEL_OPEN_FAIL: the legal PDU's encoding in the front of the caller's buffer; ErrParam for illegal fields and ErrFull for a short buffer, with the buffer unchanged |
| Encoder.Data | src/sodchan_wire.c:591-619 | CHANNEL_DATA: the legal PDU's encoding in the front of the caller's buffer; ErrParam for illegal fields and ErrFull for a short buffer, with the buffer unchanged |
| Encoder.Window | src/sodchan_wire.c:643-659 | CHANNEL_WINDOW: the legal PDU's encoding in the front of the caller's buffer; ErrParam for illegal fields and ErrFull for a short buffer, with the buffer unchanged |
| Encoder.Short | src/sodchan_wire.c:676-774 | EOF, CLOSE, PING or PONG: the legal PDU's encoding in the front of the caller's buffer; ErrParam for illegal fields and ErrFull for a short buffer, with the buffer unchanged |
| Encoder.Disconnect | src/sodchan_wire.c:819-844 | DISCONNECT: the legal PDU's encoding in the front of the caller's buffer; ErrParam for illegal fields and ErrFull for a short buffer, with the buffer unchanged |
| Encoder.AuthDevice | src/sodchan_wire.c:235-276 | AUTH_DEVICE: the legal PDU's encoding in the front of the caller's buffer; ErrParam for illegal fields and ErrFull for a short buffer, with the buffer unchanged |
| Encoder.AuthOk | src/sodchan_wire.c:339-364 | AUTH_OK: the legal PDU's encoding in the front of the caller's buffer; ErrParam for illegal fields and ErrFull for a short buffer, with the buffer unchanged |
| Encoder.AuthFail | src/sodchan_wire.c:386-400 | AUTH_FAIL: the legal PDU's encoding in the front of the caller's buffer; ErrParam for illegal fields and ErrFull for a short buffer, with the buffer unchanged |
| Encoder.Hello | src/sodchan_wire.c:95-114 | The HELLO body in the front of the buffer, or ErrFull and no change |
| Encoder.FrameBody | src/sodchan_wire.c:35-52 | The frame in the front of the buffer, or the source's error and no change |
| Encoder.THello | src/sodchan_wire.c:149-181 | The buffer holds exactly T_hello |
| Encoder.TAuth | src/sodchan_wire.c:183-233 | The front of the buffer holds exactly T_auth, or the source's error and no change |
| Decoder.Open | src/sodchan_wire.c:450-484 | CHANNEL_OPEN: OK if and only if the string is one encoded PDU of the type, and then the out-parameters are its fields |
| Decoder.Confirm | src/sodchan_wire.c:508-526 | CHANNEL_OPEN_CONFIRM: OK if and only if the string is one encoded PDU of the type, and then the out-parameters are its fields |
| Decoder.OpenFail | src/sodchan_wire.c:557-589 | CHANNEL_OPEN_FAIL: OK if and only if the string is one encoded PDU of the type, and then the out-parameters are its fields |
| Decoder.Data | src/sodchan_wire.c:621-641 | CHANNEL_DATA: OK if and only if the string is one encoded PDU of the type, and then the out-parameters are its fields |
| Decoder.Window | src/sodchan_wire.c:661-674 | CHANNEL_WINDOW: OK if and only if the string is one encoded PDU of the type, and then the out-parameters are its fields |
| Decoder.Short | src/sodchan_wire.c:692-786 | EOF, CLOSE, PING or PONG: OK if and only if the string is one encoded PDU of the type, and then the out-parameters are its fields |
| Decoder.Disconnect | src/sodchan_wire.c:788-817 | DISCONNECT: OK if and only if the string is one encoded PDU of the type, and then the out-parameters are its fields |
| Decoder.AuthDevice | src/sodchan_wire.c:278-337 | AUTH_DEVICE: OK if and only if the string is one encoded PDU of the type, and then the out-parameters are its fields |
| Decoder.AuthOk | src/sodchan_wire.c:366-384 | AUTH_OK: OK if and only if the string is one encoded PDU of the type, and then the out-parameters are its fields |
| Decoder.AuthFail | src/sodchan_wire.c:402-417 | AUTH_FAIL: OK if and only if the string is one encoded PDU of the type, and then the out-parameters are its fields |
| Decoder.Hello | src/sodchan_wire.c:116-147 | OK if and only if the body is a legal HELLO, and then its fields |
| Decoder.FrameOf | src/sodchan_wire.c:61-85 | ErrFull to wait, ErrProtocol for a bad length, else where the body lies and how much to drop |
| Buffers.OutBuffer.Compact | src/sodchan.c:93-107 | Pending bytes move to the front unchanged |
| Buffers.OutBuffer.Append | src/sodchan.c:109-118 | All of the string joins the pending output, or ErrFull and none of it |
| Buffers.OutBuffer.AppendRecord | src/sodchan.c:363-371 | Length slot and ciphertext join the pending output |
| Buffers.OutBuffer.Take | src/sodchan.c:1313-1334 | The oldest pending bytes, at most max, leave the buffer and nothing else changes |
| Buffers.InBuffer.Fill | src/sodchan.c:1300-1308 | As much as fits is appended |
| Buffers.InBuffer.Consume | src/sodchan.c:1155-1156 | The front is dropped and the rest moves down |
| EventRing.EventRing.Queue | src/sodchan.c:77-91 | Appended unless full; when full the newest is refused and the queue unchanged; what the host has and will see stays a subsequence of what was offered |
| EventRing.EventRing.Next | src/sodchan.c:1336-1348 | The oldest event leaves the queue; offered events are seen in order |
| EventRing.SubsequenceMore | src/sodchan.c:84-90 | Refusing or taking the next event keeps the host's view an order-preserving subsequence |
| EventRing.RotatedMore | src/sodchan.c:87-89 | Writing behind the last element around the end of the ring appends it |
| EventRing.RotatedLess | src/sodchan.c:1344-1346 | Advancing the head around the end of the ring drops the oldest |
| ChannelTable.ChannelTable.ByLocal | src/sodchan.c:377-387 | The loop finds the first live slot under the id, or none |
| ChannelTable.ChannelTable.Alloc | src/sodchan.c:389-405 | The first unused slot is wiped, numbered and counted, or the table is unchanged and allocation was impossible |
| ChannelTable.ChannelTable.Free | src/sodchan.c:407-416 | A live slot is wiped and uncounted; a dead one is left alone |
| Allow.ChannelNameAllowed | src/sodchan.c:418-443 | The scan answers whether the name is non-empty and one of the comma-separated segments |
| Allow.SplitJoin | src/sodchan.c:431-441 | Splitting on commas undoes joining with commas |
| Allow.JoinSplit | src/sodchan.c:431-441 | Joining undoes splitting, and no segment holds a comma |
| Allow.AllowedIsListed | src/sodchan.c:418-443 | A name is allowed if and only if it is non-empty and is one of the names the list was joined from |
| Session.Session.constructor | src/sodchan.c:1180-1239 | A created session is in the state the specification gives, its client HELLO pending |
| Session.Session.Reset | src/sodchan.c:1256-1287 | Everything but the configuration and the stored pin is as after creation |
| Session.Session.HandshakeStart | src/sodchan.c:1160-1178 | Fresh ephemeral, the client's HELLO queued, HELLO entered |
| Session.Session.QueueLocalHello | src/sodchan.c:215-258 | The signed or unsigned HELLO frame is pending; the server's transcript is stored even when it does not fit |
| Session.Session.SetError | src/sodchan.c:56-75 | ERROR and one error event |
| Session.Session.QueueEvent | src/sodchan.c:77-91 | The event is offered; its loss is ignored |
| Session.Session.AppendFrame | src/sodchan.c:120-132 | A clear frame is pending, or nothing |
| Session.Session.CheckRecord | src/sodchan.c:347-361 | The verdict of ss_send_pdu in the source's order, with room for the record when OK |
| Session.Session.SsSendPdu | src/sodchan.c:341-373 | One sealed frame is pending and the counter advanced, or a refusal and no change |
| Session.Session.SendHeader | src/sodchan.c:260-282 | The push stream is initialised and its header frame pending, or only the stream when it does not fit |
| Session.Session.HandleServerHello | src/sodchan.c:969-1031 | The client's half of handle_peer_hello |
| Session.Session.HandleClientHello | src/sodchan.c:1033-1060 | The server's half of handle_peer_hello |
| Session.Session.HandlePeerHello | src/sodchan.c:958-1061 | handle_peer_hello updates the object as specified; bad exactly when ERROR was entered |
| Session.Session.HandlePeerSsHeader | src/sodchan.c:1063-1106 | handle_peer_ss_header updates the object as specified |
| Session.Session.ClientSendAuthDevice | src/sodchan.c:445-493 | AUTH_DEVICE is sent once, when a device key and a transcript are there |
| Session.Session.HandleAuthDevicePdu | src/sodchan.c:519-580 | handle_auth_device_pdu updates the object as specified |
| Session.Session.HandleAuthOkPdu | src/sodchan.c:582-603 | handle_auth_ok_pdu updates the object as specified |
| Session.Session.HandleAuthFailPdu | src/sodchan.c:605-620 | handle_auth_fail_pdu always ends in ERROR |
| Session.Session.AuthDecide | src/sodchan.c:1358-1401 | sodchan_auth_decide_ex updates the object and returns as specified |
| Session.Session.MuxOpen | src/sodchan.c:700-748 | CHANNEL_OPEN in place: refusal replies, or a pending slot and its event |
| Session.Session.MuxConfirm | src/sodchan.c:749-779 | CHANNEL_OPEN_CONFIRM in place |
| Session.Session.MuxOpenFail | src/sodchan.c:780-804 | CHANNEL_OPEN_FAIL in place |
| Session.Session.MuxData | src/sodchan.c:805-848 | CHANNEL_DATA in place |
| Session.Session.MuxWindow | src/sodchan.c:849-870 | CHANNEL_WINDOW in place, modulo 2^32 |
| Session.Session.MuxEof | src/sodchan.c:871-890 | CHANNEL_EOF in place |
| Session.Session.MuxClose | src/sodchan.c:891-910 | CHANNEL_CLOSE in place |
| Session.Session.MuxPing | src/sodchan.c:911-929 | PING: an event, then a PONG if it fits |
| Session.Session.MuxDisconnect | src/sodchan.c:932-951 | DISCONNECT: an event, then CLOSED |
| Session.Session.HandleMuxPdu | src/sodchan.c:694-956 | The dispatch by type byte; a PONG is dropped undecoded, an unknown type is fatal |
| Session.Session.HandleEncryptedPdu | src/sodchan.c:624-692 | handle_encrypted_pdu updates the object as specified |
| Session.Session.ProcessInput | src/sodchan.c:1108-1158 | The loop leaves the object where the specification's frame-by-frame processing ends |
| Session.Session.FeedInput | src/sodchan.c:1289-1311 | Takes what fits and processes it |
| Session.Session.GetOutput | src/sodchan.c:1313-1334 | Moves the oldest pending bytes to the caller |
| Session.Session.NextEvent | src/sodchan.c:1336-1348 | Hands the host the oldest queued event; what it has seen stays a subsequence of the log |
| Session.Session.ChannelOpen | src/sodchan.c:1408-1452 | sodchan_channel_open: slot and id first, given back when nothing fits |
| Session.Session.ChannelAccept | src/sodchan.c:1454-1511 | sodchan_channel_accept: reply first, then the slot |
| Session.Session.ChannelSend | src/sodchan.c:1513-1560 | sodchan_channel_send: the source's checks in order, send, then spend the window |
| Session.Session.ChannelEof | src/sodchan.c:1578-1606 | sodchan_channel_eof: sent once |
| Session.Session.ChannelClose | src/sodchan.c:1608-1633 | sodchan_channel_close: the slot goes at once, the CLOSE only if it fits |
| Session.Session.ChannelWindowAdjust | src/sodchan.c:1635-1661 | sodchan_channel_window_adjust: sent, then credited modulo 2^32 |
| Session.Session.ChannelWindowAvail | src/sodchan.c:1562-1576 | The send window of the first open slot under the id, or 0 |
| Session.Session.Disconnect | src/sodchan.c:1663-1693 | sodchan_disconnect: DRAINING with a DISCONNECT if it fits, or CLOSED |

## Left out

- EngineProof.Authentication: says that the signature received verifies, not that the key's owner made it, because unforgeability is not modelled.
- NetSafety.HonestPairsAreSafe: the rules are sufficient; the exact conditions of `NetExact` need the peer's state and the links, which a host cannot see.
- NetLimits.AbandonedOpenIsFatal: closing a channel that is still OPENING is shown fatal for a peer that goes on to accept, without the converse: whether it can depends on its allowlist and free slots when the OPEN arrives.
- NetExact.CloseIsSafeExactly: stated on the PDU pair, for a peer whose record limit takes an empty chunk (9 bytes) and with ids left for the OPENs in flight.
- NetExact.OverflowIsSafeExactly: stated on the PDU pair, for a peer whose record limit takes a chunk of one byte (10 bytes), a packet limit above 0, and with ids left for the OPENs in flight.
- Session.Session.MuxDisconnect: the event carries the reason, not the message text.
- Cryptographic strength, libsodium itself, randomness and `src/sodchan_crypto.c`: ephemeral keys and stream headers are parameters, primitives are the functions of `Crypto.Suite`.
- Memory: allocation failure, null-pointer checks, zeroing of secrets, `sodchan_destroy`.
- Texts: error messages, the text of DISCONNECT and OPEN_FAIL events, the key fingerprint in the AUTH_DEVICE event.  The decoders give the whole message; the truncation to the source's local buffers, which only events show, is not modelled.
- Configuration defaults and the 2048-byte store for configured strings: `Config` and `Ident` hold the values in effect, and `lab_mode` is off.
- `sodchan_current_state`, `sodchan_auth_decide` without claims and the version calls, which only read a field or fix an argument.
- Sending TAG_REKEY or TAG_FINAL: received tags are modelled, and nothing in the source sends any but TAG_MESSAGE.
- Host concerns: sockets, TLS, enrollment, device stores, revocation, tarpits and splicing.
- The secretstream's in-place encryption: the ciphertext is computed as a string and then written into the buffer after its length slot.
- Input strings of the encoders and decoders are values; only the buffers that are written are arrays.
- The rejecting `auth_decide` in `Lifetime.HonestLife`: it leads to ERROR on both sides by design; `Lifetime.SessionsAgree`, `Session.Session.AuthDecide` and the any-peer theorems cover it.
- Partings.CloseReachesThePeer: stated on the PDU pair, which the byte pair refines, and with ids left for the OPENs in flight.
- HostView.HostKnowsItsChannels: the copy is kept from the events offered; a host whose event ring overflows sees fewer (`Session.Session.NextEvent`).
- Timing and fairness: liveness says that the handshake cannot go on for ever and cannot get stuck, not how soon a host moves the bytes.
