# SHH, modelled and proved in Dafny

SHH is an SSH2 stack: a transport that re-exchanges its keys under traffic, a channel multiplexer with
window flow control, an agent with destination constraints, certificates, and an SFTP client and server.
This project models the state machines and two-party protocols at its core and proves what they promise
of every run, every input and every reachable state. `dafny verify dfyconfig.toml` checks all of it.

How the modules build on each other:

- `Bytes`, `Logs`: words and bytes; totals and selections over logs that only grow.
- `Wire`, `Cipher`, `PacketReader`: the wire primitives, the three packet ciphers over uninterpreted
  primitives with the laws used, and the reader that takes a packet in pieces.
- `KexInit`, `Transport`, `Rekey`, `KeySchedule`, `Nonces`, `KeyOrigin`, `TransportRun`: negotiation; one transport
  end as an object whose methods are proved against functions; two ends over FIFO wires with symbolic keys, and
  which keys each packet is under, read off the wires; one end against any peer, its nonces and where its keys
  come from; and the object driven as that end.
- `Channel`, `ChannelPair`, `Mux`, `MuxEnd`, `MuxCredit`, `MuxPair`: one end of one channel against any peer; its
  two ends; the loop's tables; a whole end with any number of channels, whose every step is shown to be one move
  of one channel; what its peer granted it, read off the packets received; and two whole ends. Window accounts are
  totals over whole logs, so each of the laws across two ends follows from each end's own account and from one log
  being a prefix of the other.
- `Forwards`: global requests, keepalives and remote forwards between two ends.
- `Connection`, `EventLoop`: the connection loop as an object, a method per handler, proved against the functions
  of `Mux` and `Forwards`; and that object with its channel tasks and its queue, driven by whatever happens and
  shown to go through the states of `MuxEnd`.
- `AgentPath`, `AgentBytes`, `Keyring`: constraint paths and the bytes that spell them, what a chain of bindings must
  be, and the key store over runs of requests on any number of connections.
- `SftpWire`, `Sftp`, `SftpClient`: packets, requests and replies; the server from request bytes to reply bytes;
  the client's transfers and listings over those bytes.
- `Certificate`, `CertOrigin`, `HostPattern`, `CivilDate`: signing and parsing certificates, and which
  blobs are accepted; the wildcard matcher; the calendar.

Where the code and its documentation differ, the code is modelled:

- `encode_path` is documented to permit a signature only when the whole path is present
  (src/agent/mod.rs:157-162). `destinations_permit` accepts every non-empty prefix of the path, and
  `AgentPath.PathAcceptsPrefixes` states that. `AgentPath.FirstHopSuffices` is the chain that shows the promise
  fails, and `AgentPath.WholePathIffOneHop` and `AgentPath.WholePathIffUnlisted` say exactly when it holds.
- `write_packet` does not check the ceiling that `read_packet` enforces (src/sftp/mod.rs:179-209), so a directory
  with very long names cannot be listed; `SftpClient.Client.List` gives the exact condition.
- A maximum packet size of nought is taken as one (src/connect/mux.rs:1264), so a peer that names it is sent chunks
  of one byte; `MuxCredit.BytesGranted` says so.
- An empty path encodes to no constraint at all, so it permits every chain (`AgentPath.EmptyPathPermits`).
- The wildcard loop tries a literal match before it looks for a star (src/crypto/keyfile.rs:561), so a host that
  itself holds a star can be refused by a pattern that matches it. `HostPattern.AgreesIffStarFree` gives the
  exact condition.

Assumptions that stand as parameters or as hypotheses of the statements: wires are FIFO and unbounded; the
cryptographic primitives obey the laws named in `Cipher.Lawful` and `Certificate.Lawful`, and where a statement says so
`Cipher.Authentic` and `CertOrigin.Unforgeable`; a socket is never bound where one of the same end's listeners
still is; time does not run backwards; a 64-bit target for the capacity of a semaphore.
Statements about channel ids are for runs in which an end gives out at most 2^32 of them.

## Model

| member | source | states |
|---|---|---|
| HostPattern.HostPatternMatches | src/crypto/keyfile.rs:551-577 | the two-pointer loop returns what the first-literal-then-star definition says of the pattern's label host, for every pattern and host; what it accepts matches, and for a host with no star it accepts all that matches; in at most h(p+1)+p passes for a host of length h and a pattern of length p |
| HostPattern.LabelHost | src/crypto/keyfile.rs:495-503 | `[host]:port` is what stands before the first closing bracket, `host:port` what stands before the last colon, and any other pattern is itself |
| HostPattern.LiteralFirstSound | src/crypto/keyfile.rs:551-577 | whatever the loop accepts, the recursive `*`/`?` definition matches |
| HostPattern.LiteralFirstComplete | src/crypto/keyfile.rs:551-577 | for a host with no star, whatever the recursive definition matches the loop accepts |
| HostPattern.LaterStarSuffices | src/crypto/keyfile.rs:551-577 | backtracking to the latest star loses no match |
| HostPattern.RetryStep | src/crypto/keyfile.rs:551-577 | a retry after the latest star keeps the loop's account of what is still to be matched |
| HostPattern.DeadEnd | src/crypto/keyfile.rs:551-577 | with no star to go back to, a mismatch is final |
| HostPattern.PassesBound | src/crypto/keyfile.rs:551-577 | the measure of passes stays within its bound to the end of the loop |
| HostPattern.MisjudgedFails | src/crypto/keyfile.rs:551-577 | a host with a star has a pattern that matches it and that the loop refuses |
| HostPattern.AgreesIffStarFree | src/crypto/keyfile.rs:551-577 | the loop agrees with the recursive definition on every pattern if and only if the host has no star |
| CivilDate.CivilSuccessor | src/sftp/server.rs:579-590 | for every day count, before and after the epoch, the next day is the calendar's next day, leap rules included, and the date is a valid one |
| CivilDate.CivilIsCalendar | src/sftp/server.rs:579-590 | counting days from 1970-01-01 by the calendar gives the same date, for every count from 0 up |
| CivilDate.Epoch | src/sftp/server.rs:579-590 | day 0 is 1970-01-01 |
| CivilDate.EraFloors | src/sftp/server.rs:579-590 | the truncating division by eras is a floor for days before the era as well |
| CivilDate.YearContains | src/sftp/server.rs:579-590 | the year-of-era formula names the year that contains the day |
| CivilDate.YearFormula | src/sftp/server.rs:579-590 | the formula's three corrections come to the year, century and fourth-year boundaries included |
| CivilDate.MonthSteps | src/sftp/server.rs:579-590 | the month formula is in range and steps from month to month at their lengths |
| CivilDate.ClockTells | src/sftp/server.rs:566-575 | the hour of the day and the minute of the hour |
| CivilDate.LsDate | src/sftp/server.rs:561-576 | the listing shows the calendar's month and day and the clock; the month lookup is in range |
| KexInit.Choose | src/transport/kexinit.rs:148-162 | the first of the client's list that the server lists, and none exactly when there is no common entry |
| KexInit.NegotiateMeans | src/transport/kexinit.rs:164-223 | for any two lists: an end gets through exactly with a peer that lists the strict marker and shares a known entry of every list; then each algorithm is the first of the client's that the server lists, each direction by itself, and a guess is discarded exactly when it was made and was wrong |
| KexInit.NegotiationAgrees | src/transport/kexinit.rs:164-223 | two ends that get through the negotiation chose the same algorithms, and with both strict markers either both get through or neither |
| KexInit.LocalAgrees | src/transport/kexinit.rs:41-71 | two SHH ends always agree, with no guessed packet to discard |
| Transport.Transport.SendRaw | src/transport/mod.rs:361-372 | a packet goes out sealed under the sending keys and the next sequence number |
| Transport.Transport.Send | src/transport/mod.rs:430-435 | sending rekeys first when it is due |
| Transport.Transport.RekeyInitiate | src/transport/mod.rs:517-547 | our KEXINIT goes out and the end waits for the peer's |
| Transport.Transport.Recv | src/transport/mod.rs:438-469 | a packet is taken as the phase calls for: delivered, queued, answered, or refused with its error |
| Transport.Transport.RecvIdle | src/transport/mod.rs:438-469 | between exchanges: application messages are handed up, a KEXINIT is answered with ours, a stray exchange message is an error |
| Transport.Transport.RecvAwaitingInit | src/transport/mod.rs:522-547 | while waiting for the peer's KEXINIT: application messages queue up to the cap |
| Transport.Transport.Negotiating | src/transport/mod.rs:557-714 | both KEXINITs decide the exchange, or fail it |
| Transport.Transport.Exchange | src/transport/mod.rs:557-714 | the client sends its share; a wrong guess is discarded |
| Transport.Transport.RecvReply | src/transport/mod.rs:557-714 | the client checks the host's signature over the exchange hash, and the host key, before it installs keys |
| Transport.Transport.RecvShare | src/transport/mod.rs:557-714 | the server answers the share and installs keys |
| Transport.Transport.SwitchSending | src/transport/mod.rs:557-714 | NEWKEYS goes out and the sending direction alone switches, to the keys the exchange makes for it, its sequence number back to zero; which keys those are, `KeySchedule.EveryPacketKeyed` and `KeyOrigin.KeysEarned` say |
| Transport.Transport.SwitchReceiving | src/transport/mod.rs:557-714 | the peer's NEWKEYS switches the receiving direction to its own keys, and ends the exchange; with the first, a server tells its extensions |
| Rekey.EveryRun | src/transport/mod.rs:517-714 | on every run of two SHH ends, rekeys started by either or by both at once: the invariant holds up to the first error, and the only errors are a full rekey queue or a host key the client's own check refuses |
| Rekey.EveryPacketOpens | src/transport/mod.rs:517-714 | the next packet on either wire always opens, under exactly the keys and sequence number it was sealed with |
| Rekey.SameKeys | src/transport/mod.rs:517-714 | a reader that has come as far as its writer holds the same keys and the same sequence number, secret, hash, session, cipher and direction included |
| Rekey.NoDeadlock | src/transport/mod.rs:517-714 | no reachable state has an end waiting while both wires are empty |
| Rekey.DeliveredInOrder | src/transport/mod.rs:438-547 | what an end was handed is, in order and each once, where what the other sent begins; and all of it, once everything is read, nothing is queued and no fault was met |
| Rekey.StepKeeps | src/transport/mod.rs:517-714 | every step of either end keeps the invariant of the pair |
| Rekey.SealOne | src/transport/mod.rs:361-372 | one more packet sealed leaves every packet of both histories in its place |
| Rekey.Opens | src/transport/mod.rs:374-426 | a packet was sealed under what its reader expects |
| Rekey.KexOpened | src/transport/mod.rs:517-714 | once both KEXINITs of an exchange are out and the peer's is read, the exchange opens on the agreed algorithms |
| Rekey.InstallKeys | src/transport/mod.rs:517-714 | the keys an end installs for an exchange are those both histories fix for the next epoch, which `KeySchedule.ExchangeIs` reads off the wires |
| Rekey.ReplyTaken | src/transport/mod.rs:517-714 | the reply a client reads answers its own exchange, so the signature holds and the same keys follow |
| Rekey.EcdhTaken | src/transport/mod.rs:517-714 | the share a server reads belongs to its own exchange |
| Rekey.NewKeysTaken | src/transport/mod.rs:517-714 | after the peer's NEWKEYS both directions are in the new epoch |
| Rekey.IdleTaken | src/transport/mod.rs:438-469 | an idle end reads a message or goes into the exchange the peer opens |
| Rekey.AwaitInitTaken | src/transport/mod.rs:522-547 | an end waiting for a KEXINIT queues what was in flight, or goes on |
| KeySchedule.EveryPacketKeyed | src/transport/mod.rs:686-714 | on every run up to its first error, read off the two wires: a packet is in the clear before its sender's first NEWKEYS; after the n-th it is sealed under the secret and the hash of the n-th exchange, the hash of the first as the session, the cipher negotiated for its direction, and its own direction |
| KeySchedule.KeysApart | src/transport/mod.rs:694-713 | on every run the two directions never share keys, and two epochs of one direction only if their exchanges were the same to the last bit |
| KeySchedule.ExchangeIs | src/transport/mod.rs:767-787 | the exchange an end hashes is the one on the wires: the n-th KEXINIT of each side, share and reply |
| KeySchedule.CiphersAgreed | src/transport/mod.rs:694-698 | the cipher of each direction is the one both lists settle on |
| KeySchedule.ExtensionsOnce | src/transport/mod.rs:717-726 | on every run the server tells its extensions once, as soon as it has read the client's first NEWKEYS, and the client tells none |
| KeyOrigin.KeysEarned | src/transport/mod.rs:557-714 | against any peer, every packet sealed and the keys held to open with are in the clear before the first session; after that of an exchange of this end's own with a strict peer, in the right direction, under one session; a client's were replied to under a signature of the host key over that exchange, the first trusted and every other by the same host key |
| KeyOrigin.StraysEnd | src/transport/mod.rs:438-714 | against any peer, a packet ends the connection exactly when it does not open, is out of its place, settles no algorithms, finds the queue full, or shows a host that is of the wrong kind, untrusted, not the one known, or not signed for; and a message is handed up exactly between exchanges |
| KeyOrigin.GuessAwaited | src/transport/mod.rs:563-574 | a guess is awaited exactly when the peer said it guessed and its first choices are not ours |
| KeyOrigin.GuessDropped | src/transport/mod.rs:563-574 | a wrong guess is dropped unread: whatever it is, the exchange opens as it would have without it |
| Nonces.QueueBounded | src/transport/mod.rs:522-547 | against any peer, never more than 256 messages wait out a rekey, and one more is an error and no sooner |
| Nonces.NeverReused | src/transport/mod.rs:361-372 | against any peer and whatever the ciphers made at each NEWKEYS: the sequence number never wraps; it grows within an epoch; the IV that AES-GCM seals a packet with is its epoch's with the counter moved on by the sequence number; and no two packets of one epoch of keys are sealed under one nonce |
| Nonces.CipherInEpoch | src/crypto/cipher.rs:295-317 | following the cipher from packet to packet through sealing and NEWKEYS, its IV has been bumped once for each packet of the epoch so far |
| Nonces.CounterBumpsTimes | src/crypto/cipher.rs:295-302 | bumping k times moves the counter on by k, around 2^64 |
| Nonces.NoncesApart | src/crypto/cipher.rs:304-317 | two packets of one epoch are not sealed under one nonce |
| TransportRun.Drive | src/transport/mod.rs:361-547 | the transport object, driven through any events, is in the state and has the wire of which the laws above speak |
| TransportRun.DriveOne | src/transport/mod.rs:361-547 | one event on the object: what is allowed is done, the rest passed over |
| Nonces.LivesOk | src/transport/mod.rs:496-501 | the sequence number stays within a few packets of the rekey limit, so the wrapping addition never wraps |
| Nonces.EpochGrows | src/transport/mod.rs:691-714 | an epoch is never entered twice |
| Wire.TakesU32 | src/wire/reader.rs:39-42 | a 32-bit word reads back |
| Wire.TakesU64 | src/wire/reader.rs:44-48 | a 64-bit word reads back |
| Wire.BigEndian | src/wire/reader.rs:39-48 | words are big-endian: the bytes written and the bytes read, as a number with the highest byte first, are the word |
| Wire.TakesString | src/wire/reader.rs:50-59 | a string reads back, as text too when it is UTF-8 |
| Wire.StringInverse | src/wire/reader.rs:50-54 | what is read as a string is what writing it would have put there |
| Wire.AsciiIsUtf8 | src/wire/reader.rs:56-59 | ASCII is UTF-8 |
| Wire.Reader.TakeN | src/wire/reader.rs:18-27 | the cursor moves past what it returns; short input is an error that leaves it |
| Wire.Reader.Byte | src/wire/reader.rs:29-31 | reads one byte |
| Wire.Reader.Boolean | src/wire/reader.rs:33-37 | any non-zero byte is true |
| Wire.Reader.ReadU32 | src/wire/reader.rs:39-42 | reads a big-endian word |
| Wire.Reader.ReadU64 | src/wire/reader.rs:44-48 | reads a big-endian double word |
| Wire.Reader.ReadString | src/wire/reader.rs:50-54 | reads a length and that many bytes |
| Wire.Reader.ReadUtf8 | src/wire/reader.rs:56-59 | reads a string and refuses what is not UTF-8 |
| Wire.Reader.Finish | src/wire/reader.rs:84-90 | succeeds exactly at the end of the buffer |
| Wire.Writer.WriteU32 | src/wire/writer.rs:32-35 | appends a big-endian word |
| Wire.Writer.WriteU64 | src/wire/writer.rs:37-40 | appends a big-endian double word |
| Wire.Writer.WriteString | src/wire/writer.rs:42-50 | appends a length and the bytes |
| Wire.Writer.Mpint | src/wire/writer.rs:63-82 | what is appended has the same value and is the canonical form: no needless zero, no sign bit |
| Cipher.Padded | src/crypto/cipher.rs:106-120 | padding is between 4 and align+3 bytes and the whole is aligned |
| Cipher.PadLen | src/crypto/cipher.rs:106-120 | the least padding from 4 up that aligns the block |
| Cipher.UnpadsPadded | src/crypto/cipher.rs:122-131 | unpadding what was padded gives the payload back |
| Cipher.SealThenOpen | src/crypto/cipher.rs:140-340 | for every payload that fits and each of the three ciphers, the receiver accepts the length, and opening the packet gives the payload and the same next state |
| Cipher.OpenedWasSealed | src/crypto/cipher.rs:140-340 | where a tag verifies only for what it was made over: nothing opens but what was sealed, bit for bit, under this cipher, this number and these length bytes |
| Cipher.LengthMeans | src/crypto/cipher.rs:96-104 | a length is taken exactly when it leaves room for padding, is at most 256 KiB and makes whole blocks, under each of the three ciphers |
| Cipher.SealedOnWire | src/crypto/cipher.rs:140-317 | a sealed packet byte by byte, under each of the three ciphers: where the length, the block and the tag stand, and which key and which part of its keystream is over each |
| Cipher.TagMeans | src/crypto/cipher.rs:243-267 | a tag is taken over every whole block in order and then over what is left |
| Cipher.RefusedUnchanged | src/crypto/cipher.rs:327-340 | a packet that AES-GCM refuses leaves the nonce as it was, and one it accepts moves it on by one |
| Cipher.SealPlain | src/crypto/cipher.rs:140-165 | the same, before the first keys |
| Cipher.SealChaCha | src/crypto/cipher.rs:200-276 | the same, for ChaCha20-Poly1305 with its separately keyed length |
| Cipher.SealGcm | src/crypto/cipher.rs:304-340 | the same, for AES-GCM with its clear length as associated data |
| Cipher.IncrementalTag | src/crypto/cipher.rs:243-267 | the tag taken block by block is the one-shot tag over the length bytes and the ciphertext, for every length |
| Cipher.AppliedTwice | src/crypto/cipher.rs:272-274 | the keystream applied twice is no change |
| Cipher.ApplyInPlace | src/crypto/cipher.rs:272-274 | the keystream is applied over the first n bytes of the buffer in place, as the pure form says, and the rest is left |
| Cipher.ChaChaPolyCipher.OpenInPlace | src/crypto/cipher.rs:231-276 | the payload is that of the pure form, and if the tag is not that of the bytes there is none and not a byte of the buffer is changed |
| Cipher.GcmCipher.Bump | src/crypto/cipher.rs:295-300 | the counter in the last eight bytes of the nonce goes up by one and the rest stays |
| Cipher.CounterBumps | src/crypto/cipher.rs:295-300 | the counter's value goes up by one, wrapping at 2^64 |
| Cipher.GcmCipher.SealPacket | src/crypto/cipher.rs:304-317 | sealing uses the nonce before the bump |
| Cipher.GcmCipher.OpenPacket | src/crypto/cipher.rs:327-340 | opening uses the current nonce and bumps it only when the tag holds: a forged packet leaves it as it was |
| PacketReader.Reader.RecvRaw | src/transport/mod.rs:374-426 | one call, dropped at any wait: it returns the packet the atomic reader finds, or keeps its place; no byte is lost or read twice |
| PacketReader.Reader.Fill | src/transport/mod.rs:374-426 | bytes that arrive go where the last ones ended |
| PacketReader.Reader.OpenBody | src/transport/mod.rs:374-426 | a whole packet is opened, counted and given up as the atomic reader would |
| PacketReader.Reader.HungryNeedsMore | src/transport/mod.rs:374-426 | a reader still waiting once every byte has come cannot have a whole packet |
| PacketReader.ReadAll | src/transport/mod.rs:374-426 | any number of calls, each dropped anywhere and the stream split anyhow: the packets are those of reading the whole stream packet by packet |
| PacketReader.ReadExtends | src/transport/mod.rs:374-426 | more bytes after a packet change nothing about it |
| PacketReader.StreamReadsBack | src/transport/mod.rs:361-426 | payloads sealed one after the other are taken off the stream one after the other |
| PacketReader.RunYields | src/transport/mod.rs:374-426 | after some packets the reader has those and the rest is to come |
| PacketReader.ReceiveSealed | src/transport/mod.rs:361-426 | over a sealed stream the calls hand out the sent payloads in order, all of them once drained, and refuse none |
| Channel.OnCmd | src/connect/mux.rs:1163-1222 | a command is never an error and tells the channel task nothing |
| Channel.Issues | src/connect/forward.rs:83-146 | an act of a task issues one command at most |
| Channel.SendCredited | src/connect/session.rs:143-169 | the chunks issued are the data from its start, byte for byte, none empty or over the peer's limit, one acquisition of credit each |
| Channel.RefillExact | src/connect/mux.rs:1211-1222 | against any peer neither addition of a refill leaves 32 bits or the window |
| Channel.MoveKeeps | src/connect/mux.rs:819-1222 | whatever a peer says and a task does, one end of a channel keeps its window account, its order of speech, and what it says for its task, data and requests in order |
| Channel.RunConsumed | src/connect/mux.rs:1211-1222 | a report of consumed bytes keeps the account, batch refills included |
| Channel.HearClose | src/connect/mux.rs:885-900 | a peer's close is answered once and the entry goes |
| Channel.AcceptedOk | src/connect/mux.rs:1229-1260 | a channel just accepted starts with its accounts in order, whatever window and packet size the peer offers; that its credit is that window, `MuxCredit` says |
| Channel.WindowConserved | src/connect/mux.rs:819-852 | against any peer: window left, batch, queued reports and bytes with the channel task make up `LOCAL_WINDOW` |
| Channel.BacklogBounded | src/connect/mux.rs:819-852 | a task's backlog stays within 2 MiB after its channel is gone |
| Channel.SpokenOrder | src/connect/mux.rs:1192-1210 | one EOF and one CLOSE at most, no data after the EOF, and after the CLOSE nothing but refusals of requests |
| Channel.NextFits | src/connect/mux.rs:819-852 | no event in a task's queue holds more than a window |
| ChannelPair.StartOk | src/connect/mux.rs:1148-1162 | an acceptance meets its open with both accounts level |
| ChannelPair.EndMoves | src/connect/mux.rs:819-1222 | any move of either end of a channel keeps the pair |
| ChannelPair.CreditWithin | src/connect/mux.rs:854-873 | credit, with what is still to be heard of it, is at most one window more than was spent |
| ChannelPair.DataWithin | src/connect/mux.rs:819-873 | what an end has yet to hear fits the window it granted |
| ChannelPair.NeverRefused | src/connect/mux.rs:819-873 | no message between two SHH ends is too large, overflows a window, or confirms what was not asked |
| ChannelPair.Conserved | src/connect/mux.rs:1163-1222 | credit, queued chunks, chunks on the wire, bytes with the channel task, unreported bytes, queued reports, the batch, and grants on the wire sum to `LOCAL_WINDOW` |
| ChannelPair.NeverStalls | src/connect/forward.rs:92-106 | with nothing in flight and all consumed, credit exceeds half a window and any chunk can be sent |
| ChannelPair.GoneWhenBothClose | src/connect/mux.rs:1316-1337 | an entry leaves the table exactly when its end has said and heard a close |
| ChannelPair.CloseReachesBoth | src/connect/mux.rs:885-900 | once either end has said close and the wires are empty, neither holds the channel |
| ChannelPair.EofReaches | src/connect/mux.rs:1175-1200 | with nothing between them, the receiving task was told of an EOF exactly when the sending one asked for it, and on a session of every request in its place among the data |
| ChannelPair.RepliesReach | src/connect/mux.rs:927-935 | on a session the other task is told the replies its task gave, each as given and in order, all of them once drained |
| ChannelPair.RefusalsReach | src/connect/mux.rs:902-925 | on a forward the other task is told one refusal for each request it sent that wants a reply, and no other reply |
| ChannelPair.Delivered | src/connect/mux.rs:1163-1174 | the receiving task is told a prefix of the chunks the sending task sent, and all of them once drained |
| Mux.OnOrder | src/connect/mux.rs:1056-1225 | no command of a task or an acceptor is an error of the loop |
| Mux.PacketCapped | src/connect/mux.rs:573-680 | whatever packet comes, channels, pending opens and connects stay at most 256 |
| Mux.OrderCapped | src/connect/mux.rs:1058-1162 | and whatever command is run |
| Mux.OpenCapped | src/connect/mux.rs:580-586 | an open past the cap is refused |
| MuxEnd.StepChanges | src/connect/mux.rs:545-571 | a step of an end, seen from one channel id, is one move of that channel, a birth, a dropped open, or nothing: exactly the one the step says, and nothing to every other id |
| MuxEnd.HearChanges | src/connect/mux.rs:545-571 | a packet for a channel is a message heard by that channel alone |
| MuxEnd.RunChanges | src/connect/mux.rs:1163-1222 | a command for a channel is run for that channel alone; for one that is gone it is dropped |
| MuxEnd.ActChanges | src/connect/forward.rs:83-146 | a task's act touches its own channel alone |
| MuxEnd.NextUnused | src/connect/mux.rs:537-541 | the next id has never been used, while fewer than 2^32 are given out |
| MuxEnd.AnswerCounted | src/connect/mux.rs:1140-1142 | the saturating subtraction never saturates: an answer in the queue is still counted |
| MuxEnd.DialsKept | src/connect/mux.rs:693-711 | the connects counted are those in flight and those answered in the queue |
| MuxEnd.EndKeeps | src/connect/mux.rs:545-1225 | every step against any peer keeps the tables, the cap, the count of connects, and the account of every channel |
| MuxEnd.EveryRun | src/connect/mux.rs:475-512 | so does every run, while no more than 2^32 ids are given out |
| MuxEnd.CapHolds | src/connect/mux.rs:573-586 | in every reachable state the cap holds, the connects counted are those unanswered, and the next id belongs to no live or pending channel |
| MuxEnd.EndsExactlyWhen | src/connect/mux.rs:796-817 | a connection ends exactly when its peer disconnects, when the peer refuses the session it was made for, or when that session's channel is closed on both sides, and then it says so |
| MuxEnd.RefusesExactlyWhen | src/connect/mux.rs:573-586 | on every run an open is refused on arrival exactly when its verdict is a refusal or 256 channels are in use: held, pending, waiting for a connect or for its answer |
| MuxEnd.EveryKindKept | src/connect/mux.rs:778-794 | on every run a channel keeps its kind and its peer from step to step; one we opened is what it was opened as and faces the end that confirmed it; one the peer opened is a session only if it is served, and never ends the connection |
| MuxEnd.PendingKinds | src/connect/mux.rs:1058-1137 | an open of ours is pending as what it was ordered to be |
| MuxEnd.ForwardsRefuse | src/connect/mux.rs:902-925 | against any peer a channel that is no session never grants a request |
| MuxEnd.ChannelsHold | src/connect/mux.rs:819-852 | in every reachable state every channel has its window conserved, its backlog bounded and its speech in order |
| MuxCredit.CreditGranted | src/connect/mux.rs:1229-1260 | against any peer, of every channel on every run: a packet received, its open or its confirmation, named the window; credit and all that was spent come to that window and the adjustments received since, exactly while that fits 32 bits and never more; and no chunk is over the packet size named |
| MuxCredit.BytesGranted | src/connect/mux.rs:1262-1314 | so the bytes said on a channel never exceed what was granted there, and no chunk the packet size, but that a size of nought lets a byte through |
| MuxCredit.MoveWithin | src/connect/mux.rs:854-873 | whatever happens on a channel its account against its grants stands, the ceiling of an adjustment included |
| MuxCredit.BirthBacked | src/connect/mux.rs:593-600 | a channel accepted at once or after a connect has the window and packet size of the very open it answers |
| MuxCredit.DialsAskedOn | src/connect/mux.rs:693-711 | a connect, in flight or answered, carries an open that was received |
| MuxCredit.CreditKept | src/connect/mux.rs:819-1162 | every step against any peer keeps every grant and every connect accounted for |
| MuxPair.StepTokens | src/connect/mux.rs:573-711 | a step moves an unanswered open from one place to the next; only an acceptance ends it |
| MuxPair.TokenShows | src/connect/mux.rs:778-794 | an open anywhere on its way is pending and not yet linked |
| MuxPair.AcceptsPending | src/connect/mux.rs:1138-1162 | a channel is accepted only for an open still pending, offered the whole window |
| MuxPair.NextTalk | src/connect/mux.rs:545-571 | the next packet on the wire is the next message of the channel it is for |
| MuxPair.BirthJoint | src/connect/mux.rs:1148-1162 | a channel just accepted meets the open it answers |
| MuxPair.StepFaces | src/connect/mux.rs:545-1225 | whichever end steps, both ends keep every link, every open and every pair of halves |
| MuxPair.EverySystem | src/connect/mux.rs:475-512 | every reachable state of two SHH ends keeps the invariant, while neither gives out more than 2^32 ids |
| MuxPair.NothingRefused | src/connect/mux.rs:778-852 | no packet one end sends is an error at the other: no window overflow, no unknown confirmation |
| MuxPair.WindowsConserved | src/connect/mux.rs:819-873 | for every channel of every run and each direction, from acceptance until one end lets go, the eight places a byte of window can be sum to `LOCAL_WINDOW` |
| MuxPair.NoStall | src/connect/forward.rs:92-106 | for every channel of every run: with nothing in flight and all consumed, no acquisition of credit stays blocked |
| MuxPair.ClosesTogether | src/connect/mux.rs:885-900 | for every channel of every run: an entry goes exactly when both closes are done, and once the wires drain after a CLOSE neither end holds the channel |
| MuxPair.EofArrives | src/connect/mux.rs:875-925 | for every channel of every run: an EOF arrives exactly when asked for, and a session's requests in their place among the data |
| MuxPair.RepliesAsGiven | src/connect/mux.rs:927-935 | for every session of every run: the success or failure one task gives reaches the other as given, in order |
| MuxPair.RefusalsAsAsked | src/connect/mux.rs:902-925 | for every forward of every run: a request that wants a reply is refused once, and nothing else is replied |
| MuxPair.OpensAnswered | src/connect/mux.rs:573-817 | with the wires read, the connects resolved and the queue run, no open is still pending |
| MuxPair.NoDataAfterEof | src/connect/mux.rs:875-883 | for every channel of every run: no task is told of data after an EOF |
| MuxPair.ChunksInOrder | src/connect/mux.rs:1163-1174 | for every channel of every run: the chunks told to one task are those the other sent, in order, each once |
| Forwards.OneAnswer | src/connect/mux.rs:939-1024 | a request that wants a reply gets exactly one, and a listener exactly when a forward is granted |
| Forwards.AnswerMatches | src/connect/mux.rs:1029-1052 | the reply read next answers the request at the head of the queue |
| Forwards.ListeningGrows | src/connect/mux.rs:973-1024 | each listener was granted at its port, port 0 included, and each granted forward has its own |
| Forwards.RegisteredGrows | src/connect/mux.rs:1029-1052 | a granted forward is registered under its listener's place, beside those registered before |
| Forwards.StepKeeps | src/connect/mux.rs:939-1052 | every step of either end keeps requests, replies, listeners and registrations in step |
| Forwards.EveryRun | src/connect/mux.rs:516-535 | so does every run |
| Forwards.RepliesCorrelate | src/connect/mux.rs:1029-1052 | on every run replies answer requests by position, keepalives included, and none comes unasked |
| Forwards.ListensAsAllowed | src/connect/mux.rs:973-1024 | on every run an end listens only where the policy it was set up with allows it, as asked or as what that stands for, and it denies a forward exactly when the policy does not allow it or the socket could not be bound |
| Forwards.PermitsMeans | src/connect/forward.rs:28-36 | a policy permits a place exactly when it allows all, or lists the host or a star with the port or port 0 |
| Forwards.ListenMeans | src/connect/mux.rs:974-979 | the two tests of a bind come to whether it is allowed as asked or as what it stands for |
| Forwards.AnswerMeans | src/connect/mux.rs:939-1024 | when each kind of global request is denied, and that none changes the policy |
| Forwards.EveryIndexed | src/connect/mux.rs:1008-1024 | on every run a live listener is the one its place finds |
| Forwards.GrantIndexes | src/connect/mux.rs:1015-1024 | a forward granted is found by the port asked for as well as by the port it has, under any bind that stands for the same address, and no other place changes |
| Forwards.CancelFinds | src/connect/mux.rs:950-960 | cancelling where a live listener is bound takes that listener out and no other, and is always granted |
| Forwards.ReplyMeans | src/connect/mux.rs:1029-1052 | a reply settles the oldest request and no other: a probe's clears the count of those missed, a granted forward's registers its target, the port carried standing in for port 0 |
| Forwards.SilenceEnds | src/connect/mux.rs:516-535 | a silent peer is given up at the tick after its last allowed probe and no sooner, and each tick but the first sends a probe |
| Forwards.OpensFindTheirTarget | src/connect/mux.rs:634-655 | on every run a forwarded open finds its bind and port registered, with the target of the request that made its listener |
| Connection.Connection.LookupRemote | src/connect/mux.rs:758-768 | the loop finds the exact place, else the first wildcard bind on that port |
| Connection.Connection.OnPacket | src/connect/mux.rs:545-571 | a channel packet goes to its handler, and does what the table functions say; the cap is kept, whatever the packet |
| Connection.Connection.OnMessage | src/connect/mux.rs:545-571 | so does a message for one channel |
| Connection.Connection.Accept | src/connect/mux.rs:593-600 | an id, a confirmation, an entry and a task |
| Connection.Connection.Verdict | src/connect/mux.rs:588-680 | a session is served; a direct open is connected exactly where the policy allows it; a forwarded one exactly when its place or a wildcard on its port is registered; an agent's exactly when one was offered; the rest is refused |
| Connection.Connection.TargetOf | src/connect/mux.rs:613-672 | a direct open goes where it says, a forwarded one to the target registered for it, its own place first, and an agent's to the agent |
| Connection.Connection.Admit | src/connect/mux.rs:580-586 | the cap is tested before the verdict |
| Connection.Connection.OnChannelOpen | src/connect/mux.rs:573-680 | the cap first, then the verdict: a session served, a connect started to exactly the target of the open, or a refusal |
| Connection.Connection.OnOpenConfirm | src/connect/mux.rs:778-794 | a pending open becomes an entry; an unknown one is an error that changes nothing |
| Connection.Connection.OnOpenFailure | src/connect/mux.rs:796-817 | a pending open is dropped; a terminal session's ends the connection |
| Connection.Connection.OnData | src/connect/mux.rs:819-852 | the window is charged before the channel task is told; overflow is an error that changes nothing |
| Connection.Connection.OnWindowAdjust | src/connect/mux.rs:854-873 | credit grows up to the ceiling |
| Connection.Connection.OnEof | src/connect/mux.rs:875-883 | the channel task is told |
| Connection.Connection.OnClose | src/connect/mux.rs:885-900 | answered once, told, and the entry removed |
| Connection.Connection.CloseIfDone | src/connect/mux.rs:1316-1337 | the entry goes once both sides have closed; a terminal one takes the connection with it |
| Connection.Connection.OnChannelRequest | src/connect/mux.rs:902-925 | passed to a session, refused on a forward |
| Connection.Connection.OnRequestReply | src/connect/mux.rs:927-935 | the channel task is told |
| Connection.Connection.OpenChannel | src/connect/mux.rs:1058-1137 | our own opens are dropped at the cap, which is kept |
| Connection.Connection.OnConnected | src/connect/mux.rs:1138-1162 | the connect is no longer counted; the open is accepted with the window and packet size it came with, or refused; an answer to a connect still counted keeps the cap |
| Connection.Connection.Relay | src/connect/mux.rs:1163-1191 | data, requests and replies go to the peer of a channel still held |
| Connection.Connection.TaskEof | src/connect/mux.rs:1192-1200 | one EOF |
| Connection.Connection.TaskClose | src/connect/mux.rs:1201-1210 | one CLOSE |
| Connection.Connection.OnConsumed | src/connect/mux.rs:1211-1222 | consumed bytes are granted anew in batches of half a window |
| Connection.Connection.OnCommand | src/connect/mux.rs:1056-1225 | a command goes to its handler, and does what the table functions say; the cap is kept |
| Connection.Connection.OnKeepaliveTick | src/connect/mux.rs:516-535 | a probe after silence; an error after too many unanswered |
| Connection.Connection.RemoteForward | src/connect/mux.rs:1096-1114 | the request is sent and remembered |
| Connection.Connection.HandleTcpipForward | src/connect/mux.rs:973-1024 | the policy on the bind as asked and as what it stands for, then the bind, the reply and the listener; `Forwards.ListensAsAllowed` says when it comes to a listener |
| Connection.Connection.OnGlobalRequest | src/connect/mux.rs:939-969 | forwards are handled, cancels answered, the rest refused |
| Connection.Connection.OnGlobalReply | src/connect/mux.rs:1029-1052 | the head of the queue is answered; a granted forward is registered |
| EventLoop.Loop.constructor | src/connect/mux.rs:475-512 | a loop starts where every run starts |
| EventLoop.Loop.Arrive | src/connect/mux.rs:475-512 | a packet from any peer is the same step for the object and for the end of `MuxEnd`; a fault changes nothing |
| EventLoop.Loop.RunNext | src/connect/mux.rs:1056-1225 | so is the next command of the queue |
| EventLoop.Loop.Resolve | src/connect/mux.rs:693-711 | so is a connect that comes through or fails |
| EventLoop.Loop.Submit | src/connect/mux.rs:1058-1137 | so is a command to open a channel |
| EventLoop.Loop.Act | src/connect/forward.rs:85-145 | so is what a channel task does with credit, events and commands |
| EventLoop.Loop.Distribute | src/connect/mux.rs:475-512 | what the handlers told and started reaches the channel tasks in order |
| EventLoop.Loop.Happen | src/connect/mux.rs:475-512 | one thing that happens is exactly one step of the run if it may happen, and none if not |
| EventLoop.Loop.Run | src/connect/mux.rs:475-512 | any list of packets, commands, connects, task acts, global requests and ticks, one after another, drives the object along a run of `MuxEnd`; so the cap, the unused next id, the account of every channel and its account against the peer's grants hold of the object |
| EventLoop.Loop.Holds | src/connect/mux.rs:475-512 | what is true of every run is true of the object |
| EventLoop.ReadyIsEnabled | src/connect/forward.rs:92-108 | what a task can do by the tables at hand is what the end's logs allow |
| EventLoop.TellsAll | src/connect/mux.rs:840-935 | telling a task one thing after another is telling it all of them |
| AgentPath.PathBytes | src/agent/mod.rs:163-172 | the loop that chains each hop from the one before builds the encoding of the path |
| AgentPath.HopReadsBack | src/agent/server.rs:253-265 | a hop's keys read back |
| AgentPath.PathReadsBack | src/agent/server.rs:270-285 | encoding a path and parsing it gives the constraints from each hop to the next |
| AgentPath.ReadKeys | src/agent/server.rs:258-263 | the loop over a hop's keys reads exactly what the parser does |
| AgentPath.ReadHop | src/agent/server.rs:253-265 | the in-place parser of a hop |
| AgentPath.ReadConstraint | src/agent/server.rs:274-282 | the in-place parser of one constraint |
| AgentPath.ReadConstraints | src/agent/server.rs:270-285 | the in-place parser of a list of constraints |
| AgentPath.PermittedIsWalk | src/agent/server.rs:232-249 | with constraints, a chain is accepted exactly when it is a non-empty walk from the origin in their graph |
| AgentPath.SeparateAccepts | src/agent/server.rs:206-249 | for every path, of plain keys, CAs or both, on which no host is at two hops: encoded, parsed back and judged, exactly its non-empty prefixes are accepted, hop for hop |
| AgentPath.PathAcceptsPrefixes | src/agent/server.rs:206-249 | so for every path of plain keys, and every path of CAs, none of which identifies two hops |
| AgentPath.OneEntryAccepts | src/agent/server.rs:206-229 | a path of one hop with one entry accepts exactly the hosts that show that key, or that hold a current host certificate of that CA; an entry that is no key accepts none |
| AgentBytes.ParsesIffSpelt | src/agent/server.rs:253-285 | every payload: it parses to a list of constraints if and only if its bytes spell that list, lengths, empty strings and flags included |
| AgentPath.FirstHopSuffices | src/agent/mod.rs:157-172 | any path, whatever its length, accepts the chain that stops at a readable plain key of its first hop |
| AgentPath.WholePathIffOneHop | src/agent/mod.rs:157-172 | for a path of non-empty, pairwise disjoint plain hops, only whole chains are accepted if and only if the path has one hop or no key of its first hop can be read |
| AgentPath.WholePathIffUnlisted | src/agent/mod.rs:157-172 | with CAs on the path too, where no host is at two hops: only whole chains are accepted if and only if the path has one hop or its first hop lists no host |
| AgentPath.EmptyPathPermits | src/agent/server.rs:232-235 | an empty path is no constraint: every chain is accepted |
| AgentPath.EdgeIsHop | src/agent/server.rs:237-248 | the only step from a hop is onto the next |
| Keyring.SignsExactlyWhen | src/agent/server.rs:108-145 | on every run over any number of connections a request is signed if and only if no lock is held, the identity's latest granted add was not removed since, the last lifetime of that add has not passed, and that add had no constraint or the hosts bound on the connection are a walk from the origin along the constraints of all its restrictions |
| Keyring.StandingMeans | src/agent/server.rs:314-425 | what stands is the latest add with neither an add nor a removal after it; nothing stands when each add was followed by a removal |
| Keyring.StoreFollows | src/agent/server.rs:288-397 | the store holds exactly the standing, unexpired identities, each once |
| Keyring.HandleKeys | src/agent/server.rs:108-145 | what one request does to each identity |
| Keyring.LimitedMeans | src/agent/server.rs:349-381 | an add's limits come to nothing if one of them cannot be kept to; otherwise the last lifetime is the end, and the constraints are those of all the restrictions, in order |
| Keyring.AddsExactlyWhen | src/agent/server.rs:314-397 | on every run an add is granted if and only if nothing is locked, its two keys match, and each of its limits can be kept to |
| Keyring.RemovesExactlyWhen | src/agent/server.rs:418-425 | on every run a removal is granted if and only if nothing is locked and the identity is there, unexpired |
| Keyring.BindsExactlyWhen | src/agent/server.rs:172-201 | on every run a session is bound if and only if nothing is locked, its host proved itself, it is not bound on that connection already, and the last one bound there forwards |
| Keyring.OthersExactlyWhen | src/agent/server.rs:108-145 | on every run: when a lock, an unlock and a removal of all are granted; what does not parse is refused |
| Keyring.ListsExactly | src/agent/server.rs:297-311 | on every run a listing names exactly the identities that stand unexpired, each with the comment of its latest add, and none while locked |
| Keyring.SignsAlongPath | src/agent/server.rs:232-249 | on every run an identity added for one path, of keys or of CAs that identify no two hops, signs if and only if the hosts bound on the connection are the path's first hops, at least one |
| Keyring.LimitsAhead | src/agent/server.rs:350-380 | an identity just added has not expired |
| Keyring.LockFollows | src/agent/server.rs:427-483 | the lock is the latest one not undone |
| Keyring.LockOpens | src/agent/server.rs:116-131 | a lock is undone by its own passphrase and no other, and until then nothing else is answered |
| Keyring.ChainsFollow | src/agent/server.rs:172-201 | a connection's chain is the sessions bound on it, with distinct ids and only its last not forwarding |
| Keyring.ConnState.SessionBind | src/agent/server.rs:172-201 | a binding is added exactly when proven, new, and on a chain that still forwards |
| Keyring.Store.PurgeExpired | src/agent/server.rs:288-291 | what has expired goes, the rest stays in order |
| Keyring.Store.Retain | src/agent/server.rs:388 | an identity goes, the rest stays in order |
| Keyring.Store.FindKey | src/agent/server.rs:293-295 | the first identity of that name |
| Keyring.Store.Add | src/agent/server.rs:314-397 | refused before the store is touched, or replaced with the terms its limits come to, which are the last lifetime and every restriction (`Keyring.LimitedMeans`) |
| Keyring.Store.Remove | src/agent/server.rs:418-425 | success exactly when it was there |
| Keyring.Store.SetLock | src/agent/server.rs:427-444 | refused over the cap or over a lock |
| Keyring.Store.UnsetLock | src/agent/server.rs:446-483 | the comparison of padded buffers and lengths opens exactly the lock's own passphrase |
| Keyring.BuffersEqual | src/agent/server.rs:475 | every byte of the buffers is compared |
| Keyring.OverlaidEqual | src/agent/server.rs:466-480 | padded copies and lengths agree exactly when the passphrases do |
| Keyring.PaddingAlone | src/agent/server.rs:470-474 | without the length test a passphrase and the same with a zero byte would agree |
| Keyring.Store.ListNames | src/agent/server.rs:297-311 | every identity in order, none while locked |
| Keyring.Store.SignWith | src/agent/server.rs:399-416 | signs for an identity held whose constraints the chain satisfies |
| Keyring.Store.HandleRequest | src/agent/server.rs:108-145 | one request, end to end |
| Certificate.SignedReadsBack | src/crypto/cert.rs:223-485 | signing and parsing returns every field, for all serials, ids, principals, windows, options and both key kinds, and the bytes verified are those the CA signed |
| Certificate.OptionsReadBack | src/crypto/cert.rs:89-118 | the critical options read back, in their required order |
| Certificate.ListReadsBack | src/crypto/cert.rs:193-209 | a list of principals reads back |
| Certificate.HeadReadsBack | src/crypto/cert.rs:224-239 | the kind, nonce, key and application read back |
| Certificate.MiddleReadsBack | src/crypto/cert.rs:240-246 | serial, type, id, principals and validity read back |
| Certificate.TailReadsBack | src/crypto/cert.rs:247-250 | options, extensions, the reserved string and the CA's key read back |
| Certificate.KeyReadsBack | src/crypto/ed25519.rs:17-37 | a CA's key blob reads back |
| Certificate.BodyReadsBack | src/crypto/cert.rs:224-252 | the signed part reads back, and what follows it is left |
| Certificate.NamesOrdered | src/crypto/cert.rs:96-102 | the two option names are in the order the parser demands |
| Certificate.ReadStringList | src/crypto/cert.rs:193-200 | the in-place parser of a list |
| Certificate.PackStringList | src/crypto/cert.rs:203-209 | the loop that packs a list |
| Certificate.ParseCriticalOptions | src/crypto/cert.rs:89-118 | the in-place parser of the options: sorted, unique, known |
| Certificate.ReadOptionValue | src/crypto/cert.rs:122-127 | one string inside the data and nothing more |
| Certificate.Parse | src/crypto/cert.rs:223-278 | the in-place parser returns what the pure one does; what that accepts, `CertOrigin.AcceptedIffVouched` says |
| CertOrigin.AcceptedIffVouched | src/crypto/cert.rs:223-278 | for every blob: it is accepted as a certificate if and only if it is that certificate's fields, each in its place, then a signature that verifies over all the bytes before it under the CA key inside it |
| CertOrigin.AcceptedWasIssued | src/crypto/cert.rs:250-262 | where only what a CA signed verifies, every accepted certificate was signed by the CA it names, word for word |
| CertOrigin.SignedIsLaid | src/crypto/cert.rs:419-485 | what a CA signs is laid out so, with a nonce of its own and nothing reserved |
| Certificate.Sign | src/crypto/cert.rs:419-485 | the writer signs what it wrote and appends the signature |
| SftpWire.PacketReadsBack | src/sftp/mod.rs:179-209 | a packet is read back off the stream if and only if it is below the ceiling, which only the reader checks |
| SftpWire.AttrsReadBack | src/sftp/mod.rs:117-173 | attributes read back, whichever are present |
| SftpWire.FlagsTell | src/sftp/mod.rs:144-158 | each flag says whether its part is there |
| SftpWire.RequestReadsBack | src/sftp/server.rs:134-229 | an open, close, read, write, opendir or readdir request is read by the server as the client wrote it; one whose path or handle is not UTF-8 is malformed |
| SftpWire.ReplyReadsBack | src/sftp/server.rs:414-435 | a status, handle, data or name reply is read by the client as the server wrote it |
| SftpWire.EntriesReadBack | src/sftp/client.rs:170-185 | a batch of names with their long names and attributes reads back |
| SftpWire.EntriesSize | src/sftp/server.rs:349-364 | how large a batch can be |
| Sftp.DecimalReadsBack | src/sftp/server.rs:52-60 | the decimal text of a handle says its number, so no two handles share one |
| Sftp.HandleText | src/sftp/server.rs:52-60 | the text is at most twenty ASCII digits |
| Sftp.InsertedOk | src/sftp/server.rs:52-60 | a new handle is none in use, and the table stays in order |
| Sftp.Session.Insert | src/sftp/server.rs:52-60 | a new handle, never one in use, and none past the cap |
| Sftp.Session.OpenFile | src/sftp/server.rs:288-327 | refused at the cap, or by the flags, before anything is touched; else a new handle, the file created or truncated as asked |
| Sftp.Session.Close | src/sftp/server.rs:167-175 | the handle goes; an unknown one is a failure |
| Sftp.Session.Write | src/sftp/server.rs:196-208 | the bytes at the offset, a gap before them filled with zeros; a failure writes nothing |
| Sftp.WrittenAt | src/sftp/server.rs:196-208 | after a write the data is where it was put, what was there before is elsewhere, and a gap is zeros; the length is exact |
| Sftp.OpenRefuses | src/sftp/server.rs:288-327 | what an open may be granted, flag by flag; refused, it changes nothing |
| Sftp.OpenRespects | src/sftp/server.rs:288-327 | a granted open makes, cuts off or leaves the file as asked, touches no other, and its handle has the rights asked for |
| Sftp.OpenGranted | src/sftp/server.rs:288-327 | an open without EXCL or APPEND, with the access its flags need, of a file that is there or to be made, is granted below the cap |
| Sftp.StatusMeans | src/sftp/server.rs:134-229 | what each status tells: OK exactly for a close of a handle there was and a write that was made, an end of file exactly where there is no more, no such file only where there is none; and what is refused changes nothing |
| Sftp.RightsRespected | src/sftp/server.rs:176-208 | only a handle open for writing writes, and only its own file; only one open for reading reads, and what it reads is there, as much as asked and as fits a reply |
| Sftp.Session.OpenDir | src/sftp/server.rs:209-226 | a new handle on the names as they are at the open, or nothing |
| Sftp.Session.ReadDir | src/sftp/server.rs:329-365 | the loop that describes up to 64 of the names not yet returned, in order |
| Sftp.OpenOk | src/sftp/server.rs:288-327 | whatever the flags and the path, the table stays in order and a handle given is new |
| Sftp.PutOk | src/sftp/server.rs:196-208 | a write keeps every file below what an offset can say |
| Sftp.AnswerOk | src/sftp/server.rs:134-229 | whatever is asked, the session stays in order, and the reply can be encoded and carries the id of the request |
| Sftp.OnlyNamesOverflow | src/sftp/server.rs:176-195 | every reply but a batch of names is below the ceiling |
| Sftp.Session.Turn | src/sftp/server.rs:83-115 | one turn of the loop, bytes in and bytes out: any bytes at all; what cannot be parsed is answered with its status, against id 0 when there is no id |
| SftpClient.Serves | src/sftp/client.rs:66-70 | a request sent as bytes is served as that request if it is below the ceiling, and as no packet otherwise |
| SftpClient.Received | src/sftp/client.rs:66-70 | a reply arrives as it was sent, unless it is a batch of names over the ceiling |
| SftpClient.Client.RoundTrip | src/sftp/client.rs:66-70 | bytes there and bytes back come to the server's answer |
| SftpClient.Client.OpenHandle | src/sftp/client.rs:128-142 | a handle that is new, or an error and nothing changed |
| SftpClient.Client.CloseHandle | src/sftp/client.rs:144-151 | succeeds exactly when the server had the handle, which it has no more |
| SftpClient.Client.WriteAll | src/sftp/client.rs:280-303 | portion after portion at the offset the last one ended makes the file the source |
| SftpClient.Client.ReadAll | src/sftp/client.rs:222-258 | read after read until the end of file gives the file, whatever comes back short; any other handle is an error |
| SftpClient.Client.Upload | src/sftp/client.rs:263-305 | over the wire and for every source below 2^64 bytes: the file is the source and the handle is given back; it fails, changing nothing, exactly at the cap, on a directory, for a path too long for a packet, or on a broken stream |
| SftpClient.Client.Download | src/sftp/client.rs:207-260 | over the wire: the bytes are the file's and the handle is given back; it fails exactly when there is no such file, at the cap, for a path too long for a packet, or on a broken stream |
| SftpClient.Client.Transfer | src/sftp/client.rs:207-305 | upload then download is the identity, over encoded packets, for every contents below 2^64 bytes, in any portions and with any short reads |
| SftpClient.BatchStep | src/sftp/server.rs:329-365 | one READDIR is the next 64 of what remains, or the end |
| SftpClient.Client.ListAll | src/sftp/client.rs:163-201 | every entry that remains, once and in order, in one request a batch and one for the end, if and only if every batch is below the ceiling |
| SftpClient.Client.List | src/sftp/client.rs:154-204 | a directory's entries with long names and attributes, if and only if every batch of them is below the ceiling; otherwise the stream is of no more use and the handle stays with the server |
| SftpClient.ShortNamesFit | src/sftp/server.rs:349-364 | names of at most 765 bytes and long names of at most 1024: every directory can be listed |
| SftpClient.LongNamesDoNot | src/sftp/server.rs:349-364 | a directory of 64 names of 4096 bytes cannot |

## Left out

- Keys, hashes and ciphers themselves (ChaCha20, Poly1305, AES-GCM, ML-KEM, X25519, Ed25519, SHA-256, bcrypt) are uninterpreted.
- Timers, sockets, wakers and back-pressure are steps that may be taken at any time.
- KEXINIT is negotiated on but its byte encoding, and the name lists of the wire layer, are not modelled: negotiation reads the parsed lists, and no statement here is about their bytes.
- Identification strings, DISCONNECT descriptions, DEBUG messages and the parsing of EXT_INFO.
- Channel packets are modelled parsed: their byte layout is the wire layer's.
- The kind of an open and its address, in the runs of `MuxPair`: what becomes of an open is any verdict at all, which `Connection.Connection.Verdict` computes.
- The admission permits of `MAX_PENDING_OPENS`, which only delay the acceptors.
- Which requests a session task answers, its pty, its child process and its exit status; the channel tasks are modelled by what they may do with credit, events and commands.
- Session-level liveness: a session task waits for credit in the same loop that takes events, so `NoStall` speaks of a receiver that has consumed what it was told.
- `cancel-tcpip-forward` is handled as the code does, but no SHH client sends it, so the runs of `Forwards` hold none.
- The fallback when a bound socket cannot tell its own port.
- Agent frames and the bodies of agent requests are modelled parsed, but for destination constraints, which are parsed from bytes.
- The reasons for which a certificate is refused; it is accepted or refused.
- CIDR lists, validity and principal checks of certificates: each is one test.
- SFTP: the INIT and VERSION handshake; operations besides open, close, read, write, opendir and readdir, which are answered here as unsupported; permissions, missing parents, full disks and other processes on the host file system; limits on a file's size below 2^64; what a client might read from a stream it has lost its place in. Status texts are modelled as ASCII of at most 64 bytes, names and long names as UTF-8 below 2^24 bytes, and clients act while fewer than 2^63 handles were given out.
- Known-hosts text, PEM, base64, option and forward specifications, the command line, the terminal and the user interface.
- Channel.SendCredited: waits for credit are given by a list of their outcomes, not by a semaphore shared with the loop; `Channel.CanAct` has the semaphore.
