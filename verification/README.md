# A verified model of LocalSend's WebRTC transfer, signaling server and codecs

The project models five parts of the repository and proves what they promise.

**The transfer session** (`Prelude`, `Chunks`, `Blocks`, `Messages`, `Token`, `Text`, `Base64`, `Network`, `Session`,
`Legs`, `Transfer`, `Honest`, `Pins`, `SessionOutcome`, `Fidelity`, `Conformity`, `Trust`, `Gates`, `Panics`,
`Receiving`, `Delivery`, `Admission`, `Pairing`, `Sending`, `Channel`, `Programs`).
`send_offer` and `accept_offer` spawn two sequential programs that talk over one ordered, reliable data channel. `Session`
is their step machine: `Act` and `Take` say, for every program point, what the program sends, does by itself, or makes
of the next message or of the end of the channel. An `Env` fixes all that comes from outside: keys, nonce, PIN, the
PINs the user will type before giving up, the selection, the files and the pieces in which their bytes arrive.
Statements for every `Env` are statements for every user. `Network` runs any two such programs over two queues under any
schedule and proves that one complete run speaks for all of them; the session theorems then follow a single run, stage
by stage, and hold for every interleaving. Against a peer that may send anything, `Admission` reads off the messages what
becomes of a program up to the offer, `Pairing` and `Sending` what becomes of the sender behind it, `Receiving` what
becomes of the receiver. `Channel` and `Programs` are the same programs as imperative code, loop by
loop, proved to make exactly the moves of the step machine.

**The signaling server** (`Signaling`, `Registry`, `RoomServer`, `Isolation`, `Convergence`, `ClientList`,
`Descriptions`, `Relay`, `ListEntries`, `ListWitnesses`, `Tasks`, `IpGroup`). Many connection tasks share a two-level
map and a table of request counters. Every section under a lock and every single send outside the locks is one step of
`RoomServer`; the theorems hold after every run. `Registry.SharedState` has the locked sections as methods over the
mutable maps, `Tasks.Hub` has the tasks with their loops; both are tied to the step model. `ClientList` and
`ListEntries` are the application's side: the devices it shows, kept from the messages in the order in which they
come.

**The PIN slot** (`PinDesk`): how the PINs a user types reach the requests of the session, with every atomic step of the
session, of the forwarding task and of the user as a method that keeps one invariant. It is why `Env.guesses` can be a
list: the session gets exactly the PINs that `send_pin` accepted, in order.

**The nonce caches** (`NonceCaches`): the two LRU caches a server, and a client, keeps for its nonce exchanges.

**The codec** (`Codec`, `Layout`, `Cursors`, `Utf8`): the binary form in which values cross between Rust and Dart, as
functions, and as a writer and a reader with a cursor.

Where the code and what is said about it differ, the model follows the code:

- A receiver whose PIN is the empty string passes `verify_pin` without reading the PIN the sender sends, and then reads
  that PIN as the end of an empty message. `Fidelity.EmptyPinSpoils` shows the failure, `Fidelity.SuccessExactlyWhen`
  the exact condition for success.
- The delimiter is recognised only while a file is open. A session in which none is open at the end is done for the
  sender and failed for the receiver: `Fidelity.NothingOpenSpoils`.
- A string that comes in chunks ends at any text message or at the end of the channel, so a program whose partner stops
  reads an empty string: the sender when the receiver's user goes away, the receiver when the sender rejects its token.
  `Conformity.MisreadExactly` says in exactly which configurations, these and the two above, an honest session contains
  what its reader cannot read.
- `verify_token_with_result` is meant to report a bad structure but takes `parts[0..5]` first, which is out of range for
  fewer than five fields. `Panics.EmptyTokenPanics` is a pair of messages that takes a receiver down,
  `Panics.PanicExactly` and `Panics.PairingPanicExactly` say when it happens.
- The unsigned difference in `verify_token_timestamp` wraps around: `Token.TimestampToken` says for which time stamps
  from the future this matters.
- The server sends `Hello` after it has let go of the lock, so messages of other tasks can overtake it, and the client
  ignores joins and updates until it has been greeted. The counts of `Convergence.RoomConvergence` hold in any order, the
  list a client keeps does not: `ListWitnesses.GreetingOvertaken` leaves a client showing someone who is gone,
  `JoinOvertaken` hides someone who is there, `UpdateBehindDeparture` brings back someone who left, `UpdateOvertaken`
  leaves an old description. `ClientList.ListIsRightExactly` and `ListEntries.DescriptionRightExactly` are the conditions
  under which the list, and an entry, is right.
- A length is cast to `i32` when it is written: `Codec.BytesRoundExactly` says that bytes come back exactly if there are
  fewer than 2^31 of them.

## Model

| member | source | states |
|---|---|---|
| SessionOutcome.EverySession | core/src/webrtc/webrtc.rs:222-561 | Under every schedule two honest programs never deadlock, stop after the same number of moves, and end in the one outcome their configuration determines, through both PIN phases, accept, decline and abandonment. |
| SessionOutcome.Conformance | core/src/webrtc/webrtc.rs:665-996 | At no reachable point has a program stopped otherwise than the one outcome of the configuration says. |
| Conformity.MisreadExactly | core/src/webrtc/webrtc.rs:665-996 | When both have stopped, one of them has met a message or an end of the channel that it could not read exactly if: the receiver accepts the sender's token, not the sender the receiver's, and the receiver asks for no PIN; or both accept and the receiver's PIN is empty, or no PIN stands in the way and the receiver's user goes away or no file is open at the end. |
| Conformity.HeadsAreReadable | core/src/webrtc/webrtc.rs:222-561 | In all other configurations, at every reachable point, a waiting program can read the message at the head of its queue, and the end of the channel where it has come. |
| Conformity.NeverGarbled | core/src/webrtc/webrtc.rs:222-561 | There, at no reachable point, has either program failed over such a message. |
| SessionOutcome.CompleteRun | core/src/webrtc/webrtc.rs:222-561 | There is a run from the start to a standstill of both programs with that outcome. |
| SessionOutcome.NonceStage | core/src/webrtc/webrtc.rs:677-691 | Both sides derive the same nonce, the sender's followed by the receiver's. |
| SessionOutcome.HonestTokenIsWhole | core/src/crypto/token.rs:182-185 | Checking a token made by an honest peer never goes out of range. |
| SessionOutcome.EmptyReceiverPin | core/src/webrtc/webrtc.rs:1191-1194 | How a session goes on after an empty receiver PIN has been taken for matched. |
| SessionOutcome.NoTriesAllowed | core/src/webrtc/webrtc.rs:1196-1207 | A receiver that allows no attempt refuses the first PIN unseen, and the sender learns it. |
| SessionOutcome.DesertedWalk | core/src/webrtc/webrtc.rs:1214-1222 | What a program at its own challenge does once its partner is gone. |
| Fidelity.SuccessExactlyWhen | core/src/webrtc/webrtc.rs:222-561 | A session ends well on both sides if and only if the peers trust each other's tokens, each PIN challenge is met (an empty receiver PIN never is), the user accepts, and a file is open when the delimiter comes. |
| Trust.ExpectedIsTrusted | core/src/webrtc/webrtc.rs:275-295 | Both derive the same nonce, so a peer that expects the other's key, or none, accepts its token. |
| Trust.TrustedIsExpected | core/src/crypto/token.rs:201-209 | Conversely, an accepted peer of which a key was expected has one that hashes, over the nonce, as the expected one does. |
| Trust.TrustExactly | core/src/webrtc/webrtc.rs:709-733 | Short of such a collision, a token is accepted exactly if no key or the right key is expected. |
| Trust.AcquaintedSuccessExactlyWhen | core/src/webrtc/webrtc.rs:222-561 | Between peers that expect each other's keys, or none, success is exactly a matter of the PINs, the user and an open file. |
| Trust.OpenDoors | core/src/webrtc/webrtc.rs:222-561 | Without PINs, and with only offered files selected, exactly of whether some queued file was selected. |
| Fidelity.EmptyPinSpoils | core/src/webrtc/webrtc.rs:1186-1194 | Every session with an empty receiver PIN fails, however correct the rest is. |
| Fidelity.NothingOpenSpoils | core/src/webrtc/webrtc.rs:890-923 | If no file is open at the end the sender is done and the receiver has failed. |
| Fidelity.OpenAtTheEnd | core/src/webrtc/webrtc.rs:883-976 | If all selected ids were offered, a file is open at the end exactly when some queued file was selected. |
| Fidelity.FilesArrive | core/src/webrtc/webrtc.rs:500-556 | In every interleaving the receiving application ends up with exactly the queued files that were selected and offered, in order; the sender reports each of the others. |
| Fidelity.WantedBytes | core/src/webrtc/webrtc.rs:1280-1298 | Each of these streams carries its file's id and exactly its bytes, as messages and as the blocks the application sees. |
| Fidelity.NothingPremature | core/src/webrtc/webrtc.rs:882-993 | At every moment of every run the applications have been told a prefix of the final account. |
| Pins.Rounds | core/src/webrtc/webrtc.rs:1118-1225 | PIN lockstep in both directions: both sides agree on the verdict; success comes exactly if one of the first `max_tries` PINs is right, and then with the first right one as the last PIN sent; the exchange ends within that many rounds. |
| Pins.WrongGuesses | core/src/webrtc/webrtc.rs:1120-1166 | As long as the PINs are wrong, the messages of the two sides are exactly one PIN and one answer for each guess, in order. |
| Pins.Round | core/src/webrtc/webrtc.rs:1191-1225 | One guess: right, wrong with tries left, or wrong and the last; where both programs stand afterwards. |
| Pins.GivesUp | core/src/webrtc/webrtc.rs:1126-1128 | If the user stops answering both programs fail, each for its own reason. |
| Gates.NoOfferBeforeGates | core/src/webrtc/webrtc.rs:709-834 | Whatever the peer sends, the receiver hands its user a file list only after a token that passes its check and a right PIN within its limit. |
| Gates.NothingDisclosed | core/src/webrtc/webrtc.rs:275-393 | Towards a peer that has not passed both gates the sender behaves, message for message, as with any other files. |
| Gates.NothingDisclosedInAnySession | core/src/webrtc/webrtc.rs:275-393 | The same for a session with an arbitrary program on the other side: up to the point where it has passed both gates, every schedule leads to the same state with any other files. |
| Gates.NoOfferInAnySession | core/src/webrtc/webrtc.rs:709-834 | The same inside a session with an arbitrary program on the other side and under every schedule. |
| Admission.OfferedExactly | core/src/webrtc/webrtc.rs:674-834 | Against any peer the receiver's user is told of an offer if and only if one can be read off the messages, stage by stage and without the program: nonce, token, PINs in time, then the list; and it is that list. |
| Admission.FailedExactly | core/src/webrtc/webrtc.rs:674-834 | And the receiver fails before that for exactly the reason that can be read off. |
| Admission.IntroducedExactly | core/src/webrtc/webrtc.rs:232-393 | The sender makes its offer if and only if the messages show that its peer has passed every stage. |
| Admission.IntroductionFate | core/src/webrtc/webrtc.rs:232-393 | Whether the sender waits, fails and why, or makes its offer, and to whom, is what can be read off the messages. |
| Panics.PanicNeedsShortToken | core/src/crypto/token.rs:182-185 | Against any peer a program panics only over a token of fewer than five fields: one that is checked because a key is expected, or, at a sender, one of four fields that a request to pair brings to the check. |
| Panics.ShortTokenPanics | core/src/crypto/token.rs:182-185 | If a key is expected, every token of fewer than five fields does it. |
| Panics.PanicExactly | core/src/webrtc/webrtc.rs:709-733 | For a receiver, and for a sender that expects a key: it panics at some point if and only if a key is expected and the token it hears is that short. |
| Panics.EmptyTokenPanics | core/src/webrtc/webrtc.rs:709-733 | A nonce and an empty token take down any receiver that expects a key. |
| Panics.PairingPanicExactly | core/src/webrtc/webrtc.rs:397-437 | A sender that expects no key: it panics at some point if and only if at some point the answer to its offer is a first request to pair, with a key that parses by the fourth and last field of the peer's token. |
| Panics.ShortPairingPanics | core/src/webrtc/webrtc.rs:408-437 | A token of four fields and a key that parses take down a sender that expects no key. |
| Pairing.AnyAnswer | core/src/webrtc/webrtc.rs:397-486 | Whatever answer comes, from any peer, in any parts: a selection starts the files, a refusal ends the sender; a first request to pair under a key that does not fit the token is answered so and ends it without asking the user, one that fits is granted exactly if the user says yes, and the answer proper is awaited; anything else fails. |
| Pairing.PairingRun | core/src/webrtc/webrtc.rs:397-452 | From the start, message by message: a peer that asks to pair and then selects. |
| Pairing.OwnKeyFits | core/src/crypto/token.rs:201-209 | The maker of a token may pair under its own key, and under no other that does not hash alike. |
| Sending.SentRegardless | core/src/webrtc/webrtc.rs:500-560 | From the selection on, whatever the peer does: every file with a token goes out whole and in order, every other one is reported, the delimiter follows, and the next thing heard ends the sender well. |
| Receiving.FileLoop | core/src/webrtc/webrtc.rs:882-993 | Against any peer: what the application is told are the reports on the messages, in order, with the reason for every header refused; the streams handed out are the binary messages from each accepted header to the next text message; each message sent names one closed file, in order, and says whether the user took it and if not why; and the loop ends exactly with the delimiter behind an open file, with a text that is no header, or with the channel. |
| Receiving.ResponsesAnswer | core/src/webrtc/webrtc.rs:888-909 | A response reads back as the id of its file, success exactly if the user has said so of it, and otherwise the user's reason or the one that stands for none. |
| Delivery.StreamsInAnySession | core/src/webrtc/webrtc.rs:665-993 | In a session with an arbitrary program on the other side and under every schedule, from the start: the streams handed out are the binary messages behind accepted headers, each of a file the user chose, from the list the user was offered, under the token minted for it; the last messages sent answer for the closed files; the application has been told of every message. |
| Receiving.SectionsAreMinted | core/src/webrtc/webrtc.rs:923-963 | Every stream belongs to a selected and offered file whose header came with the token minted for it. |
| Receiving.SectionsSnoc | core/src/webrtc/webrtc.rs:884-992 | How one more message changes the streams: it extends the open one, opens another, or closes it. |
| Honest.FilePhase | core/src/webrtc/webrtc.rs:500-560 | Any number of queued files is transmitted or reported, with the outcome given by the queue and the selection. |
| Honest.EndOfFiles | core/src/webrtc/webrtc.rs:554-560 | The delimiter and the last response end both programs, the receiver well only if a file is open. |
| Transfer.StreamAll | core/src/webrtc/webrtc.rs:533-541 | However a file's bytes are supplied, what goes out is their canonical cut. |
| Transfer.HearFile | core/src/webrtc/webrtc.rs:923-991 | What the receiver makes of one transmitted file, offered or not. |
| Network.Diamond | core/src/webrtc/webrtc.rs:217-224 | Moves of the two sides do not interfere: possible in the same state, they can be made in either order with the same result. |
| Network.Determinacy | core/src/webrtc/webrtc.rs:665-672 | If one schedule comes to a standstill, every other can be completed to the same standstill in the same number of moves. |
| Network.NoDeadlock | core/src/webrtc/webrtc.rs:665-672 | Every reachable state is that standstill or can move on; no run is longer. |
| Network.RightAlone | core/src/webrtc/webrtc.rs:1334-1350 | In any run and with any partner a program does what it does alone when fed with the messages it has read. |
| Channel.DataChannel.constructor | core/src/webrtc/webrtc.rs:217-219 | A fresh channel, at the start of the step machine. |
| Channel.DataChannel.Recv | core/src/webrtc/webrtc.rs:1334-1350 | The next message or the end of the channel, moving the step machine along. |
| Channel.DataChannel.Send | core/src/webrtc/webrtc.rs:374-375 | Sending is the move the step machine makes here. |
| Channel.DataChannel.SendFramed | core/src/webrtc/webrtc.rs:1303-1319 | A string goes out in 16 KiB chunks closed by the delimiter. |
| Channel.DataChannel.ReceiveString | core/src/webrtc/webrtc.rs:1321-1332 | The bytes up to the next text message, leaving what is behind it. |
| Programs.SendOffer | core/src/webrtc/webrtc.rs:222-561 | The sending task as a program makes the moves of the step machine and reports what it comes to. |
| Programs.AcceptOffer | core/src/webrtc/webrtc.rs:665-996 | Likewise the receiving task. |
| Programs.HandlePin | core/src/webrtc/webrtc.rs:1110-1166 | The loop that answers a challenge, in both directions. |
| Programs.VerifyPin | core/src/webrtc/webrtc.rs:1174-1225 | The loop that makes one; `pin_try` stays in the range of a byte. |
| Programs.ReceiveNonce | core/src/webrtc/webrtc.rs:1078-1101 | A nonce is taken only as text, decodable and of a valid length. |
| Programs.MeetReceiver | core/src/webrtc/webrtc.rs:232-295 | The sender's nonce and token exchange. |
| Programs.MeetSender | core/src/webrtc/webrtc.rs:676-733 | The receiver's. |
| Programs.StreamFile | core/src/webrtc/webrtc.rs:1280-1298 | One file leaves as the canonical chunks of its bytes. |
| Programs.SendFiles | core/src/webrtc/webrtc.rs:500-556 | The loop over the queue reports exactly the files without a token. |
| Programs.AwaitAnswer | core/src/webrtc/webrtc.rs:397-486 | The receiver's answer, after at most one request to pair. |
| Programs.AnswerPair | core/src/webrtc/webrtc.rs:408-437 | A request to pair as a program makes the moves of the step machine that `Pairing.AnyAnswer` describes. |
| Programs.ReceiveFiles | core/src/webrtc/webrtc.rs:882-993 | The receiver's loop with its `file_state`. |
| Programs.AwaitOffer | core/src/webrtc/webrtc.rs:772-826 | The file list, possibly after the sender's challenge. |
| Messages.FramingRoundTrip | core/src/webrtc/webrtc.rs:1303-1332 | Any string, the empty one included, comes back from its chunks, and the messages behind it stay. |
| Chunks.ProcessInChunks | core/src/webrtc/webrtc.rs:1271-1299 | The nested loops cut the concatenation of what they are fed canonically, whatever the pieces. |
| Chunks.SplitIsCanonical | core/src/webrtc/webrtc.rs:1285-1296 | The cut loses nothing and every chunk but the last is full. |
| Chunks.CanonicalIsSplit | core/src/webrtc/webrtc.rs:1285-1296 | There is no other such cut. |
| Chunks.SplitCount | core/src/webrtc/webrtc.rs:1285-1296 | It has as many chunks as the length divided by the chunk size, rounded up. |
| Chunks.BufferReceiver | app/rust/src/util/bytes.rs:7-35 | The re-blocking loop computes what `Reblock` says. |
| Chunks.ReblockConserves | app/rust/src/util/bytes.rs:10-29 | It neither loses, adds nor reorders bytes. |
| Chunks.ReblockFillsBlocks | app/rust/src/util/bytes.rs:10-29 | Chunks of a size dividing the limit fill every block exactly. |
| Chunks.ReblockedTransfer | app/rust/src/util/bytes.rs:10-29 | Sender and application side composed: the canonical cut into 1 MiB blocks, so many as the length asks for. |
| Blocks.ReblockExactly | app/rust/src/util/bytes.rs:16-29 | For messages of any sizes: each block holds the fewest messages that reach the limit, the last one what is left; there is no other such cut. |
| Token.NonceToken | core/src/crypto/token.rs:166-175 | A token built over a salt is accepted under its key exactly for that nonce. |
| Token.AcceptedTokens | core/src/crypto/token.rs:177-220 | A token is accepted exactly if it is the text `sha256`, the hash, the nonce, `ed25519` or `rsa-pss` by the kind of key, a valid signature, and surplus fields; the check goes out of range exactly below five fields. |
| Token.TokenBindsKey | core/src/crypto/token.rs:201-209 | A token of one key passes under another only across a hash collision. |
| Token.TimestampToken | core/src/crypto/token.rs:143-164 | A time stamp is accepted exactly while the 64-bit difference to now is at most an hour. |
| Base64.DecodeEncode | core/src/util/base64.rs:7-13 | Encoded bytes come back, and an encoding has no dot. |
| Base64.EncodeDecode | core/src/util/base64.rs:11-13 | Only the encoding of some bytes decodes. |
| Base64.EncodeText | core/src/util/base64.rs:5-9 | The text is the bits of the bytes, six at a time, in the URL-safe alphabet without padding. |
| Prelude.LittleEndianRound | core/src/crypto/token.rs:113 | A number comes back from its little-endian bytes. |
| IpGroup.GroupSeparates | server/src/util/ip.rs:3-18 | Two addresses get the same group exactly if they are one IPv4 address or share the first four IPv6 segments. |
| IpGroup.GroupText | server/src/util/ip.rs:3-18 | A group is named by the four octets in decimal, or by the first four segments in lower-case hexadecimal, unpadded; no other text is. |
| IpGroup.GroupExamples | server/src/util/ip.rs:26-40 | The names that the server's own expectations give. |
| IpGroup.PrintInjective | server/src/util/ip.rs:7-15 | Unpadded decimal and hexadecimal printing never gives two numbers the same text. |
| Registry.SharedState.Connect | server/src/controller/ws_controller.rs:108-143 | The section under the lock at a connect: the entry made first, both limits, the snapshot, the insertion. |
| Registry.SharedState.ProtectRequestCount | server/src/controller/ws_controller.rs:358-369 | One request against the budget of a group. |
| Registry.SharedState.UpdateInfo | server/src/controller/ws_controller.rs:284-297 | A member changes its own description; everyone else in the room is to be told. |
| Registry.SharedState.Find | server/src/controller/ws_controller.rs:325-332 | A target is looked up in the sender's own group only. |
| Registry.SharedState.Disconnect | server/src/controller/ws_controller.rs:251-268 | A member is taken out, its empty room with it; the others are to be told. |
| Registry.EnterAdds | server/src/controller/ws_controller.rs:109-138 | A connect adds one member to one room and one request to one counter, exactly if both are below their limits, and touches no other group. |
| Registry.LeaveRemoves | server/src/controller/ws_controller.rs:251-268 | A disconnect removes that member and nobody else. |
| Registry.AmendKeeps | server/src/controller/ws_controller.rs:284-297 | An update changes one description, and only of a member that is still there. |
| Isolation.RoomIsolation | server/src/controller/ws_controller.rs:275-355 | After every run, everything in a client's queue is about clients on its own network, carries the server's id for its origin, and repeats what that origin said: updates its own words, offers and answers the session and text it addressed to this client, with the description it connected with. |
| Isolation.LimitsHold | server/src/controller/ws_controller.rs:108-127 | No room is over its limit, and each counter equals the requests let through since the last clear, never more than the limit. |
| Isolation.TurnedAwayExactly | server/src/controller/ws_controller.rs:185-198 | A request is refused exactly when the budget is used up, a connect also when the room is full. |
| Isolation.RefusedForGood | server/src/controller/ws_controller.rs:185-198 | Once a request of a client has been refused nothing more is heard from it, and as long as it listens it has been or will be told why. |
| Isolation.EmptyRooms | server/src/controller/ws_controller.rs:109-127 | An entry without members is only ever left behind by a connect that was refused; leaving never leaves one. |
| Relay.RelayedInOrder | server/src/controller/ws_controller.rs:313-355 | Offers and answers from one client to another arrive each once and in order; none is missing while the one listens and the other's reader is idle, and at most the last one otherwise. |
| Relay.SignalArrives | server/src/controller/ws_controller.rs:199-222 | An offer or answer that was let through has been handled when the reader is idle again, and if its target was there and listens, stands in the target's queue: with the sender's id and description, the session and the text. |
| Relay.HandleSignal | server/src/controller/ws_controller.rs:325-355 | Handling one makes exactly one message to its target, if that is present on the sender's network, and none otherwise. |
| Relay.StepAccount | server/src/controller/ws_controller.rs:88-273 | Every step of every task keeps this account. |
| Isolation.StepKeeps | server/src/controller/ws_controller.rs:88-273 | Every step of every task keeps the rooms, the limits and the truth of all messages, sent or still to be sent. |
| Convergence.RoomConvergence | server/src/controller/ws_controller.rs:129-163 | With nothing on its way to a present, listening client, the others announced to it less those reported gone are the other members; each was announced at most once and reported gone at most once. |
| Convergence.ToldExactlyOnce | server/src/controller/ws_controller.rs:129-163 | Whoever was ever present together with this client has been announced to it exactly once, and reported gone exactly once if it is no longer a member, never if it is. |
| Convergence.PairsKeep | server/src/controller/ws_controller.rs:249-272 | Every step keeps the account between every observer and every other client, counting messages queued and messages still to be sent. |
| ClientList.ListIsRightExactly | app/lib/provider/network/webrtc/signaling_provider.dart:141-187 | For every present, listening client with nothing on its way, the list it shows is its room exactly if nobody is put on it behind the report that it left, and no member's join stands before the greeting without an update behind it. |
| ClientList.OnTheList | app/lib/provider/network/webrtc/signaling_provider.dart:141-187 | Client by client: the list has the other members but for those overlooked, and besides them exactly those put on it after they left. |
| ListWitnesses.GreetingOvertaken | server/src/controller/ws_controller.rs:158-163 | A run in which a departure overtakes the greeting and the list stays wrong. |
| ListWitnesses.JoinOvertaken | app/lib/provider/network/webrtc/signaling_provider.dart:163-166 | A run in which nobody leaves, a join overtakes the greeting and is ignored, and a client that is there is not shown. |
| ListWitnesses.UpdateBehindDeparture | server/src/controller/ws_controller.rs:298-310 | A run in which an update is sent behind the report that its origin left, which puts it on the list again. |
| ListWitnesses.UpdateOvertaken | server/src/controller/ws_controller.rs:158-163 | A run in which an update overtakes the greeting and the old description stays on the list. |
| Descriptions.LastWordIsCurrent | server/src/controller/ws_controller.rs:284-310 | With nothing on its way between two members, the last update one has from the other says what the room says; without an update its announcement does. |
| Descriptions.CurrentStep | server/src/controller/ws_controller.rs:284-310 | Every step keeps this, counting what is still to be sent. |
| ListEntries.DescriptionRightExactly | app/lib/provider/network/nearby_devices_provider.dart:148-178 | Then the entries for the other one are exactly its description in the room, if and only if it was not overlooked, not greeted with a description older than an update before the greeting, and not entered under two fingerprints. |
| ListEntries.ListedExactly | app/lib/provider/network/nearby_devices_provider.dart:148-192 | Which entries are on the list, said of the messages alone, for any queue. |
| ListEntries.ListedIds | app/lib/provider/network/nearby_devices_provider.dart:180-192 | The ids of these entries are those on the list. |
| ClientList.ShownExactly | app/lib/provider/network/webrtc/signaling_provider.dart:141-187 | Who is on the list, said of the messages alone, for any queue. |
| ClientList.OrderedStep | server/src/controller/ws_controller.rs:284-310 | Every step keeps this: behind the greeting, nobody is reported gone or updated to a client before being announced to it. |
| Tasks.Hub.HandleSocket | server/src/controller/ws_controller.rs:88-273 | The task of one connection from start to end takes a run of steps of its own, is let in exactly if the room and the budget allow, hears a prefix of its messages, and leaves its client in no room. |
| Tasks.Hub.SendAll | server/src/controller/ws_controller.rs:152-163 | The loop over the collected senders delivers exactly these messages, in order, to those whose queues are open, and nothing else changes. |
| Tasks.Hub.ReplyAll | server/src/controller/ws_controller.rs:298-310 | The same for what one message of a client brought about. |
| Tasks.Hub.HandleMessage | server/src/controller/ws_controller.rs:185-225 | One client message: exactly the messages that the locked sections call for are delivered, and the shared maps are as they say; with the budget used up it is one error to the client itself, and the reader ends. |
| NonceCaches.TwinsAgree | core/src/http/server/controller/v3.rs:32-41 | Whenever no task is between its two puts, both caches hold, in the same order, the nonces of the last exchange with each of the 200 most recent remotes. |
| NonceCaches.FilledIsHistory | core/src/http/server/mod.rs:49-54 | A cache holds the last puts of the most recently used keys up to its capacity, said without caches. |
| NonceCaches.LastUsesRecency | core/src/http/server/mod.rs:49-54 | What most recently used means. |
| NonceCaches.LruCache.Insert | core/src/http/server/mod.rs:49-54 | A put, in place. |
| NonceCaches.NonceMaps.NonceExchange | core/src/http/server/controller/v3.rs:10-57 | The server's handler: bad nonces change nothing, a good one is saved beside the new one. |
| NonceCaches.NonceMaps.TakeResponse | core/src/http/client/mod.rs:103-110 | The client's side, which takes any nonce it can decode. |
| PinDesk.Desk.SendPin | app/rust/src/api/webrtc.rs:278-288 | A PIN is accepted exactly if a request of the session is open, and then that request alone gets it. |
| PinDesk.Desk.Forward | app/rust/src/api/webrtc.rs:145-155 | The forwarding task never drops a sender that is still needed: while the session lives the slot is empty when the next one comes. |
| PinDesk.Desk.Receive | core/src/webrtc/webrtc.rs:1120-1128 | Answer number n goes to request number n; what the session gets is what the user was told was accepted. |
| PinDesk.Desk.Ask | core/src/webrtc/webrtc.rs:1118-1124 | A request opens only when the one before it has been answered. |
| PinDesk.Desk.End | core/src/webrtc/webrtc.rs:1126-1128 | A session that ends loses at most the one answer it has not read. |
| Codec.MessageRound | app/rust/src/frb_generated.rs:2045-2091 | Any signaling message is read back from its encoding, whatever stands behind it. |
| Codec.PrefixFree | app/rust/src/frb_generated.rs:3158-3196 | No encoding of a message is a prefix of another, and no two messages share one. |
| Layout.MessageBytes | app/rust/src/frb_generated.rs:3158-3196 | The bytes of a signaling message: its tag, then its fields in order, numbers with the lowest byte first, text behind its length. |
| Layout.StatusBytes | app/rust/src/frb_generated.rs:3086-3120 | The bytes of a session status. |
| Layout.FilesBytes | app/rust/src/frb_generated.rs:2981-2989 | The bytes of a list of files. |
| Layout.ClientBytes | app/rust/src/frb_generated.rs:2865-2876 | The bytes of a client's description. |
| Layout.StringTaken | app/rust/src/frb_generated.rs:1668-1674 | A reader takes a text from exactly its UTF-8 bytes behind their number, and the empty one also from a negative number. |
| Layout.SeriesTaken | app/rust/src/frb_generated.rs:1852-1862 | The same for a series of bytes. |
| Layout.UuidTaken | app/rust/src/frb_generated.rs:1676-1682 | An identifier is taken from exactly sixteen bytes behind their number. |
| Codec.StatusRound | app/rust/src/frb_generated.rs:1975-2010 | The same round trip for the session status. |
| Codec.StatusPrefixFree | app/rust/src/frb_generated.rs:3086-3120 | Status encodings are prefix-free. |
| Codec.FilesRound | app/rust/src/frb_generated.rs:1840-1850 | The same for lists of files. |
| Codec.FilesPrefixFree | app/rust/src/frb_generated.rs:2981-2989 | Their encodings are prefix-free. |
| Codec.StringSetRound | app/rust/src/frb_generated.rs:1611-1617 | A set of strings comes back whatever the order it was written in. |
| Codec.BytesRoundExactly | app/rust/src/frb_generated.rs:1852-1862 | Bytes come back if and only if there are fewer than 2^31 of them. |
| Codec.ClientInfoRound | app/rust/src/frb_generated.rs:1691-1709 | The same round trip for a client's description. |
| Codec.FileRound | app/rust/src/frb_generated.rs:1756-1776 | The same for one file. |
| Cursors.Serializer.PutMessage | app/rust/src/frb_generated.rs:3158-3196 | The writer appends exactly the encoding. |
| Cursors.Deserializer.GetMessage | app/rust/src/frb_generated.rs:2045-2091 | The reader takes exactly what the decoding takes, or panics where it does. |
| Cursors.Deserializer.GetFiles | app/rust/src/frb_generated.rs:1840-1850 | The reading loop over a counted list. |
| Cursors.Serializer.PutFiles | app/rust/src/frb_generated.rs:2981-2989 | The writing loop. |
| Cursors.Cross | app/rust/src/frb_generated.rs:3158-3196 | A message written on one side and read on the other is the same message. |
| Utf8.DecodeEncode | app/rust/src/frb_generated.rs:1668-1674 | Text comes back from its UTF-8 bytes. |
| Utf8.EncodeDecode | app/rust/src/frb_generated.rs:1668-1674 | Only the shortest forms decode, each to one text. |
| Utf8.NumberTable | app/rust/src/frb_generated.rs:1668-1674 | How many bytes a character takes, and which of its bits stand where. |

## Left out

- SDP, ICE, zlib, TLS, X.509, WebSocket and HTTP transport, and connection setup: the data channel is two FIFO queues, a
  finished peer a closed queue.
- JSON text: a writer and a reader per message type that undo each other, objects being at least two characters long.
- SHA-256, Ed25519 and RSA-PSS: functions of which only "a signature of a key checks under its public key" is asked.
- Time: timeouts, `wait_buffer_empty`, the pauses of the sender, channel capacities, and task cancellation. No claim is
  made that the server always makes progress.
- `status_tx` notices: they go to the user interface only and steer nothing here.
- Applications that drop the channels they were given, and sends into a data channel the peer has closed, which fail in
  the source and are lost here.
- In a debug build the subtraction in `verify_token_timestamp` panics instead of wrapping; the model wraps.
- `size` is never compared with what arrives; the model does not either.
- The sender waits for one response, not for one per file, before it ends; results of individual files are not matched
  by the sender, so nothing is claimed about its reading them.
- The registration of answer callbacks, and the selection of a session by its id.
- The other take-once channels of the application layer (selection, file list, streams): the first use wins.
- Names given twice by an application (two queued files with one id) are allowed; nothing says they should be refused.
- UUIDs are assumed fresh; the model never gives two connections the same id.
- ClientList.ListIsRightExactly: the client also hides entries that carry its own fingerprint, which plays no part here.
- ListEntries.DescriptionRightExactly: of a description that was cleared with the list on a reconnect nothing is said.
- SessionOutcome.DesertedWalk: sends into a channel whose other end has stopped are lost here and fail in the source.
- Tasks.Hub.HandleSocket: one task without interruption; interleavings are in the step model, not in this method.
- Tasks.Hub.HandleMessage: without interruption, too; `Isolation.StepKeeps` and its like cover all interleavings.
- Registry.SharedState.Connect: hash maps are walked in some unspecified order, which the model leaves open.
- The `Limit reached` text of a refused connect, which bypasses the message queue.
- The codec of opaque handles, streams and of records that none of the messages above contain.
- NativeEndian is little-endian in the model, as it is on every platform the application is built for.
- NonceCaches.NonceMaps.NonceExchange: a request dropped between its two puts, which only cancellation could cause.
- Flutter, Kotlin, Swift and C++ runners, the web page, translations and build scripts.
