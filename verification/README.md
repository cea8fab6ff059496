# Onesti lock: a verified model

The integration talks to Onesti/Nimly door locks over two radios and keeps what it knows in Home Assistant. This
project models the parts of it where order, loss, aliasing or arithmetic decide whether the code is right, and
proves what they keep on every input and over every run.

| part | files | form |
|---|---|---|
| Framing: packets, blobs, messages, the link cipher | `Bytes`, `Streams`, `Crypto`, `Messages`, `Blob`, `Packet`, `FramingTheorems`, `WireTheorems`, `EndToEndTheorems` | classes and loops over byte strings, each method equal to a function; theorems over any sequence of notifications |
| Session: one command at a time, timeouts, late answers | `Session`, `SessionObject`, `SessionTheorems`, `ExchangeTheorems` | each stretch of code between two awaits is one step; the class takes the steps, the theorems run them in any order |
| Enrollment: taking a lock over, with durable saves | `Enrollment`, `EnrollmentTheorems`, `EnrollmentOutcomes`, `EnrollmentStorage` | lock, store and program in one world; every answer, save and task may be lost |
| Publishing a release | `Release`, `ReleaseTheorems`, `ReleaseOutcomes` | GitHub as an object whose every call may fail before or after taking effect |
| Slot storage | `Slots`, `Coordinator`, `Integration`, `SlotTheorems`, `QueueTheorems`, `PinTheorems` | slot dicts and options on the heap, proved against values; theorems over any interleaving of any number of coordinators |
| Registry rewrite | `Migration`, `MigrationTheorems` | two loops over registry rows, and what they leave |
| Release notes | `ReleaseNotes`, `ReleaseNotesTheorems` | loops over lines, and which lines survive |
| PIN rules and log masking | `Redaction` | functions over text |

`dafny verify dfyconfig.toml` checks everything.

## How to read it

A method that changes state is proved to do exactly what a function of the old state says; what the source promises is
then proved about those functions, over whole runs. A run is a list of events, and nothing is assumed about their order
beyond what an event needs to happen at all. Clocks, keys, firmware and every failure are inputs of the events.

What is kept in every run is one half. The other is what gets done: exactly when a frame is written, an answer taken, a
request or an enrollment finished and a release published, and what then stands on the wire, in the lock, in storage and
on GitHub, in literal codes, lengths and numbers (`WireTheorems`, `ExchangeTheorems`, `EnrollmentOutcomes`,
`ReleaseOutcomes` and single lemmas beside the functions).

AES stands as an arbitrary keyed permutation of 16-byte blocks (CBC, section 6.2 of NIST SP 800-38A, is built on it),
and the key exchange as any scheme in which both ends derive one secret.

## What the proofs found

- **A closed session can come back as connected.** `connect()` sets the state unconditionally when its last answer has
  arrived, so a disconnect or `close()` that lands between that answer and the task's resumption is overwritten.
  `ClosedComesBack` is such a run, and `ClosedIsLeftOnlyByConnect` says that there is no other way out.
- **The grace period protects only orderly runs.** Under the fixed CommandRef an answer is matched right if it arrives
  strictly before `response_timeout + late_answer_grace` have passed, comes once, and no task is cancelled and no write
  raises. `StaticAnswersMatch` proves it, and for each of these four assumptions there is a run that is orderly but for
  it alone and in which a command is completed by another command's answer: a cancelled task and a raising write skip
  the grace period, an answer at exactly the bound finds the next command already waiting, and a repeated answer
  completes the next command.
- **What is stored and what the lock has can part in five ways.** The lock is a thing of its own here: it takes a command
  at any time after it was sent, in any order, more than once or never. `StoredPinsFollowTheLock`: stored slots and lock
  agree about which slots have a code in every run in which no command goes out while another coordinator's of the
  opposite effect is in flight for the same slot, outcomes are reported as they are, and the lock takes no command after
  its outcome. `StaysInStepIff`: a step ends this exactly when it breaks one of these and the slot is not already as the
  command would have it. Each way to fail has a run that is faultless up to its last step: a write cancelled though the
  lock took it (`TakenThoughGivenUp`), an answer that was lost (`TakenThoughUnheard`), one that could not be read and
  counts as delivery (`DeliveredThoughNotTaken`), a command taken after it was given up for lost (`TakenTooLate`), and
  two coordinators, each with a PIN lock of its own, after a reload during a PIN write (`ClashIsReached`). Such a clash
  ends in disagreement exactly when the answers come in another order than the one in which the lock took the commands
  (`ClashingAnswersDisagree`).
- **A wrapped bullet survives only if it is indented.** The description of `split_categories` lets a bullet run to the
  next bullet, heading or blank line; the code also ends it at a line without indentation and drops that line.
  `SplitLosesNothingIff` gives the exact condition under which no text is lost, `WrappedBulletIsCut` three lines that
  fail it.
- **A lock ends up with an owner key nobody has in three ways only**: the answer to UserAuthUpdate is lost after the
  lock acted on it; the process dies inside the first save before anything is stored; or that save raises with nothing
  stored, and the copy on the error is lost before any later save stores one (`StrandedOnlyByLostUpdate`, over enroll
  and every resume). Each strands every lock that is taken over, whatever is tried later (`EachWayStrands`, where the
  copy on the error is lost with a cancelled first resume).
- **The registry rewrite is refused in one case**: a device of another config entry already has this entry's
  identifier (`WalkFailsIff`; `WalkIsRefused` has such rows). It is then raised at the first stale row, with nothing
  changed.

## Model

| member | source | states |
|---|---|---|
| Streams.ByteReader.Take | custom_components/onesti_lock/ble/protocol/streams.py:34-41 | A read splits the unread bytes into what it returns and what is left; a read past the end or of a negative size fails and consumes nothing |
| Streams.ByteReader.ReadUint | custom_components/onesti_lock/ble/protocol/streams.py:43-50 | The value read is the one whose little-endian field stood at the front |
| Streams.ByteWriter.WriteUint | custom_components/onesti_lock/ble/protocol/streams.py:77-90 | A value is written as its field exactly when it fits it, and otherwise nothing is |
| Bytes.LittleEndianCanonical | custom_components/onesti_lock/ble/protocol/streams.py:43-50 | Every field reads as a value that fits it, and writing that value gives the same bytes |
| Bytes.LittleEndianDigits | custom_components/onesti_lock/ble/protocol/streams.py:46-50 | A field holds the digits of its value to base 256, the lowest first |
| Bytes.XorBit | custom_components/onesti_lock/ble/crypto.py:55-57 | A bit of an exclusive or is set exactly when it is set in one of the two and not in the other |
| Crypto.BitInvertTwice | custom_components/onesti_lock/ble/crypto.py:55-57 | Inverting twice gives the data back |
| Crypto.BitInvertFlips | custom_components/onesti_lock/ble/crypto.py:55-57 | Every byte is taken from 255, so every bit changes |
| Crypto.DecryptEncrypt | custom_components/onesti_lock/ble/crypto.py:196-243 | For any block permutation, key and IV and in both IV modes, decrypting an encrypted message gives it zero-padded to whole blocks |
| Crypto.ModesAgreeOnOneBlock | custom_components/onesti_lock/ble/crypto.py:232-243 | For one block the two IV modes are the same, both ways |
| Crypto.EncryptedBlock | custom_components/onesti_lock/ble/crypto.py:220-243 | Block by block: exclusive or with the block before it, or with the IV for the first and for all under IV reset, then the block cipher; less than a block of zeros is added |
| Crypto.OwnerAnswerIsTheOnlyOne | custom_components/onesti_lock/ble/crypto.py:180-193 | The answer to a challenge exists and is the one block that decrypts to the bit-inverse of the decrypted challenge, in whichever mode the lock runs |
| Crypto.OwnerAnswerIs | custom_components/onesti_lock/ble/crypto.py:180-193 | The answer is the decrypted challenge with every byte taken from 255, encrypted again, whatever the IV; only 16 bytes are answered |
| Messages.Response.FromBytes | custom_components/onesti_lock/ble/protocol/response.py:82-98 | Parsing through the reader is the header, length and status layout, with every short frame refused |
| Messages.Command.ToBytes | custom_components/onesti_lock/ble/protocol/command.py:52-67 | Serializing through the writer is the header layout, and fails for a ref outside 1 to 254, a payload over 255 bytes or a wide field |
| Messages.ResponseRoundTrip | custom_components/onesti_lock/ble/protocol/response.py:70-98 | Bytes parse as a response exactly when they begin with its serialization |
| Messages.CommandRoundTrip | custom_components/onesti_lock/ble/protocol/command.py:52-89 | The same for a command, with the ref range only the serializer checks |
| WireTheorems.CommandOnTheWire | custom_components/onesti_lock/ble/protocol/command.py:52-68 | A command is its id, length, ref, rfu and payload in that order, and is refused exactly outside refs 1 to 254 and 255 bytes |
| WireTheorems.ResponseOffTheWire | custom_components/onesti_lock/ble/protocol/response.py:62-98 | Id, length, ref and status stand in the first four bytes, ref 0x80 marks an event, and shorter data is refused |
| Messages.ResponseThroughCipher | custom_components/onesti_lock/ble/protocol/response.py:70-98 | A response survives serializing, encrypting, decrypting and parsing unchanged, padding and all |
| Messages.CommandThroughCipher | custom_components/onesti_lock/ble/protocol/command.py:52-89 | So does a command |
| Messages.CommandRefCounter.Next | custom_components/onesti_lock/ble/protocol/command.py:109-114 | One draw: 16 for old firmware, else the stored ref, which then wraps from 127 to 1 |
| Messages.CounterRefsCollideEvery127 | custom_components/onesti_lock/ble/protocol/command.py:92-114 | Two draws of the counter share a ref exactly when they are a multiple of 127 apart, and none is the event ref |
| Blob.HeaderRoundTrip | custom_components/onesti_lock/ble/protocol/blob.py:40-61 | A BlobStart payload splits into a header and a chunk exactly when it is that header serialized in front of that chunk |
| WireTheorems.BlobHeaderOnTheWire | custom_components/onesti_lock/ble/protocol/blob.py:39-49 | A header is flags, length with the low byte first, and rfu; flag 1 says encrypted |
| Blob.BlobAssembler.Add | custom_components/onesti_lock/ble/protocol/blob.py:87-98 | A chunk is appended, or refused as soon as the buffer would pass the declared length |
| Blob.BlobAssembler.Complete | custom_components/onesti_lock/ble/protocol/blob.py:100-107 | The last chunk gives the whole payload, and anything but the declared length is refused |
| Packet.PacketRoundTrip | custom_components/onesti_lock/ble/protocol/packet.py:55-86 | A notification parses as a packet exactly when it begins with that packet's bytes |
| WireTheorems.PacketOnTheWire | custom_components/onesti_lock/ble/protocol/packet.py:55-65 | A packet is its literal code 1 to 7 or 0xF0, its length, rfu, its number and its payload |
| Packet.CutRest | custom_components/onesti_lock/ble/protocol/packet.py:129-136 | The loop cuts everything behind the first chunk into full packets, numbered on modulo 256, the last one a BlobComplete |
| Packet.Packetize | custom_components/onesti_lock/ble/protocol/packet.py:103-136 | One single packet or a BlobStart and its continuation, and every refusal |
| Packet.LinkCipherIsLawful | custom_components/onesti_lock/ble/crypto.py:148-163 | The link cipher meets the law the framing theorems ask of a cipher |
| Packet.PacketStream.Open | custom_components/onesti_lock/ble/protocol/packet.py:180-188 | A stream is made exactly for an MTU of at least 12 |
| Packet.PacketStream.Frame | custom_components/onesti_lock/ble/protocol/packet.py:193-197 | The writes are the packets of the payload, encrypted first when there is a cipher |
| Packet.PacketStream.Receive | custom_components/onesti_lock/ble/protocol/packet.py:204-210 | One notification takes the receiver to the specified state and result, and any error drops the blob in progress |
| Packet.PacketStream.Dispatch | custom_components/onesti_lock/ble/protocol/packet.py:212-254 | The branch on the packet type, with the sequence and length checks of a blob |
| FramingTheorems.FrameSucceedsIff | custom_components/onesti_lock/ble/protocol/packet.py:92-136 | Framing succeeds exactly for an MTU of at least 12 and 1 to 65535 bytes on the link, and every write fits the MTU |
| WireTheorems.FrameOnTheWire | custom_components/onesti_lock/ble/protocol/packet.py:103-136 | Every byte of every write of a frame: codes 1 or 2 alone exactly when 8 bytes are to spare, otherwise 3, 4 and 5, numbers from 1, all but the last write full, the blob header first, and the payload cut in order |
| FramingTheorems.FrameIsSingleOrRun | custom_components/onesti_lock/ble/protocol/packet.py:103-136 | A frame is one single packet, or one whole run of blob packets holding exactly the bytes on the link |
| FramingTheorems.FrameRoundTrip | custom_components/onesti_lock/ble/protocol/packet.py:193-254 | The writes of a frame give nothing until the last and then exactly the payload, zero-padded under a cipher, with the right flag and no blob left; sequence wrap-around included |
| FramingTheorems.ReceiverSoundness | custom_components/onesti_lock/ble/protocol/packet.py:204-254 | Whatever notifications arrive, a delivered payload is one single packet or one whole run: BlobStart, BlobStreams, BlobComplete, consecutive numbers modulo 256, nothing but status packets between, total equal to the declared length |
| FramingTheorems.BufferBounded | custom_components/onesti_lock/ble/protocol/blob.py:87-107 | The buffer never passes the declared length, and a rejected notification leaves no blob |
| FramingTheorems.RunIsDelivered | custom_components/onesti_lock/ble/protocol/packet.py:212-254 | A whole run, status packets in between or not, is delivered by its last notification and not before |
| FramingTheorems.FrameClearsReceiver | custom_components/onesti_lock/ble/protocol/packet.py:199-249 | From any receiver state at all, a frame leaves no blob in progress |
| FramingTheorems.ReceiverRecovers | custom_components/onesti_lock/ble/protocol/packet.py:199-249 | From any receiver state, after one frame has gone in, delivered or not, the next one is delivered intact |
| EndToEndTheorems.CommandReachesTheLock | custom_components/onesti_lock/ble/client/session.py:345-360 | Every command that fits is written under any MTU from 12 up, and a stream at the other end gives it back with its last write and nothing before |
| EndToEndTheorems.AnswerIsHeard | custom_components/onesti_lock/ble/client/session.py:393-415 | What the lock frames for an answer is heard as that answer with the last notification, in the clear or not |
| SessionObject.Session.Begin | custom_components/onesti_lock/ble/client/session.py:327-336 | Taking the command lock: refused when not connecting or connected, paused before the ready time, else sent |
| SessionObject.Session.EndPause | custom_components/onesti_lock/ble/client/session.py:335-340 | After the pause the state is looked at again before anything is sent |
| SessionObject.Session.Launch | custom_components/onesti_lock/ble/client/session.py:342-363 | From drawing the ref to the first write; in the clear only the key exchange |
| SessionObject.Session.EndWrite | custom_components/onesti_lock/ble/client/session.py:363-366 | The write loop goes on whatever the state; an answer may be there before the last write |
| SessionObject.Session.Finish | custom_components/onesti_lock/ble/client/session.py:366-389 | The resolved future becomes a response or an error, nothing stays pending, and an answer starts the pause before the next command |
| SessionObject.Session.Expire | custom_components/onesti_lock/ble/client/session.py:368-378 | The deadline ends the exchange; only the static ref starts the grace period |
| SessionObject.Session.Abandon | custom_components/onesti_lock/ble/client/session.py:376-380 | A cancelled task or a raising write ends the exchange with the future settled and no grace period |
| SessionObject.Session.OnNotification | custom_components/onesti_lock/ble/client/session.py:393-431 | A notification goes through the stream and completes the pending command under the stated conditions, and changes nothing else |
| SessionObject.Session.OnDisconnect | custom_components/onesti_lock/ble/client/session.py:452-468 | A disconnect closes the session, drops a blob in progress and fails the pending command |
| SessionObject.Session.Close | custom_components/onesti_lock/ble/client/session.py:242-246 | Closing fails the pending command |
| SessionObject.Session.Connect | custom_components/onesti_lock/ble/client/session.py:217-219 | A session connects once |
| SessionObject.Session.OnRevision | custom_components/onesti_lock/ble/client/session.py:221-226 | An unreadable revision and one below 4.6.0 fail the connect with their own errors; below 4.7.90 the ref is static |
| SessionObject.FirmwareBounds | custom_components/onesti_lock/ble/client/session.py:221-226 | Refused below 4.6, one fixed ref below 4.7.90 |
| SessionObject.BelowIsOrder | custom_components/onesti_lock/ble/client/session.py:221-226 | Versions are compared as numbers whose digits are the parts, to any base none of them reaches |
| SessionObject.Session.OnSubscribed | custom_components/onesti_lock/ble/client/session.py:228-229 | The key exchange is connect()'s first command |
| SessionObject.Session.Continue | custom_components/onesti_lock/ble/client/session.py:230-240 | The cipher is set after the key answer, new firmware is asked for its model, and the state becomes connected whatever it was |
| SessionTheorems.ExchangeGuarantees | custom_components/onesti_lock/ble/client/session.py:327-431 | In every run, whatever the lock sends: a ref is drawn only while connecting or connected; without a cipher only the key exchange is sent; a returned response is a success with the command's ref and id and no event, and an answer taken is returned exactly then; nothing stays pending; a future is resolved once |
| ExchangeTheorems.AnswerTakenIff | custom_components/onesti_lock/ble/client/session.py:415-431 | In every run a response is taken for the waiting command exactly under the last command's ref and, under the fixed ref, its id; under the counter any id is taken; anything else changes nothing. The ref is 16, or the number of draws before it modulo 127 plus 1 |
| ExchangeTheorems.OwnAnswerIsTaken | custom_components/onesti_lock/ble/client/session.py:415-431 | The lock's own answer to the waiting command is always taken, under both kinds of ref |
| ExchangeTheorems.RequestIsAnswered | custom_components/onesti_lock/ble/client/session.py:327-391 | From every reachable state ready for one, a command that is answered returns the answer if its status is 0 and raises the status otherwise, and the session is free again |
| ExchangeTheorems.FailuresTellTheCause | custom_components/onesti_lock/ble/client/session.py:327-391 | In every run: when a request times out, fails as disconnected, unsendable or interrupted, or is refused, each exactly; a wrong id is an error under the counter alone, and no request fails for want of a cipher |
| ExchangeTheorems.LossCloses | custom_components/onesti_lock/ble/client/session.py:452-468 | A lost link or close() closes the session in every state, fails the waiting command, and changes no more |
| ExchangeTheorems.ConnectSucceeds | custom_components/onesti_lock/ble/client/session.py:209-240 | connect() from the start: the key exchange under ref 16, or under ref 1 with the model command under 2 after it, and the session is connected, free and under a cipher |
| ExchangeTheorems.FailedConnectCloses | custom_components/onesti_lock/ble/client/session.py:209-240 | In every run an exchange of connect() that fails leaves the session closed, and only old firmware is connected without its model |
| SessionTheorems.PausesAreKept | custom_components/onesti_lock/ble/client/session.py:333-380 | In every run no command goes out before the ready time, which moves exactly when an exchange ends with an answer (command_delay) or, under the static ref, at its deadline (late_answer_grace) |
| SessionTheorems.RunKeepsShape | custom_components/onesti_lock/ble/client/session.py:327-431 | Every run keeps the session's states consistent: a pending command exactly while one exchange is in flight, with the ref and draw of the last command sent |
| SessionTheorems.ClosedIsLeftOnlyByConnect | custom_components/onesti_lock/ble/client/session.py:228-246 | A closed session stays closed, except exactly when connect()'s last answer had arrived before the close and its task resumes after it |
| SessionTheorems.ClosedComesBack | custom_components/onesti_lock/ble/client/session.py:228-246 | A run from the start in which that happens: the link drops behind the last answer and the session becomes connected |
| SessionTheorems.CounterAnswersAreCongruent | custom_components/onesti_lock/ble/protocol/command.py:92-114 | With the counter, in every run, of all answers to commands a command is completed only by its own or by one to a command a multiple of 127 draws away |
| SessionTheorems.StaleAnswerTakenIff | custom_components/onesti_lock/ble/client/session.py:415-431 | Under the static ref an older answer is taken exactly when the same command is in flight and unresolved |
| SessionTheorems.StaticAnswersMatch | custom_components/onesti_lock/ble/client/session.py:327-431 | Under the static ref, when answers come at most once and before response_timeout + late_answer_grace, nothing else passes for an answer, and no task is cancelled and no write raises, no command is ever completed by another command's answer |
| SessionTheorems.CancellationBreaksMatching | custom_components/onesti_lock/ble/client/session.py:368-380 | A run orderly but for a cancelled task, whose answer completes the next command |
| SessionTheorems.RaisingWriteBreaksMatching | custom_components/onesti_lock/ble/client/session.py:363-380 | A run orderly but for a raising write, after which the answer completes the next command |
| SessionTheorems.LatenessBreaksMatching | custom_components/onesti_lock/ble/client/session.py:333-336 | A run orderly but for an answer exactly at the bound, which completes the next command |
| SessionTheorems.RepeatedAnswerBreaksMatching | custom_components/onesti_lock/ble/client/session.py:415-431 | A run orderly but for a repeated answer, which completes the next command |
| Enrollment.Installation.RunRemainingSteps | custom_components/onesti_lock/ble/client/enrollment.py:397-406 | The loop over the steps left: send, confirm, save, and stop at the first that fails |
| Enrollment.Installation.EnrollLock | custom_components/onesti_lock/ble/client/enrollment.py:279-343 | enroll(): arguments, factory login, owner key, first save, the remaining steps |
| Enrollment.Installation.ResumeEnrollment | custom_components/onesti_lock/ble/client/enrollment.py:346-394 | resume_enrollment(): the login, its retry with the enrolled device id, and the remaining steps |
| EnrollmentOutcomes.EnrollFinishes | custom_components/onesti_lock/ble/client/enrollment.py:315-343 | Undisturbed, enroll() on a factory-reset lock finishes with every step confirmed and stored, and the lock has the owner key, id, name, server key and clock it was given and lets its owner in |
| EnrollmentOutcomes.EnrollEnds | custom_components/onesti_lock/ble/client/enrollment.py:279-343 | How enroll() ends on any lock whatever breaks: it finishes exactly when nothing does; bad arguments and a refused login change nothing; a later break ends it at its step, with the steps before it confirmed |
| EnrollmentOutcomes.ResumeEnds | custom_components/onesti_lock/ble/client/enrollment.py:346-407 | How a resume ends whatever breaks: a complete enrollment is returned, a lock that lets it in gets exactly the steps left, and one that does so under the enrolled id alone is not sent that id again |
| EnrollmentOutcomes.ValidIff | custom_components/onesti_lock/ble/client/enrollment.py:120-148 | What an enrollment must be to be built at all, in lengths and numbers |
| EnrollmentTheorems.RunKeeps | custom_components/onesti_lock/ble/client/enrollment.py:279-430 | Over enroll and any resumes, each cut short anywhere, every copy stored or carried fits the lock, and the stored one is no further than the carried one |
| EnrollmentTheorems.StoredEnrollmentRecovers | custom_components/onesti_lock/ble/client/enrollment.py:279-430 | Once anything is stored, the stored key is the lock's, its device id is the factory one or the stored one, and one undisturbed resume ends complete and stored with the lock's device id, name and server key equal to the stored ones |
| EnrollmentTheorems.CarriedEnrollmentRecovers | custom_components/onesti_lock/ble/client/enrollment.py:231-265 | The enrollment an error carries is enough to finish, stored or not |
| EnrollmentTheorems.CommandsAreSavedBeforeSent | custom_components/onesti_lock/ble/client/enrollment.py:332-343 | Every step command goes out from the enrollment last saved or given to the resume, none after a failed save; steps are confirmed in order, the server key step exactly with the lock's key |
| EnrollmentTheorems.StrandedOnlyByLostUpdate | custom_components/onesti_lock/ble/client/enrollment.py:279-430 | Over enroll and any resumes, the lock has an owner key nobody has a copy of exactly when it took UserAuthUpdate and its answer was lost, or the process died in the first save with nothing stored, or that save raised with nothing stored and the copy on the error was lost to a cancelled or killed attempt before any save stored one |
| EnrollmentTheorems.EachWayStrands | custom_components/onesti_lock/ble/client/enrollment.py:279-430 | Each of the three ways, the third by a cancelled first resume, leaves any lock that took UserAuthUpdate with a key nobody has, whatever is tried later |
| EnrollmentTheorems.SomeLockIsTakenOver | custom_components/onesti_lock/ble/client/enrollment.py:315-342 | A lock, keys and arguments for which it takes UserAuthUpdate, whatever becomes of the answer and the saves |
| EnrollmentTheorems.RunUpshotIsRight | custom_components/onesti_lock/ble/client/enrollment.py:346-415 | What attempts on the only copy make of it, read off what happens in them: the first save an attempt comes to decides, and before it only a cancelled task loses the copy |
| EnrollmentStorage.HexRoundTrip | custom_components/onesti_lock/ble/client/enrollment.py:440-447 | Bytes written as hex read back |
| EnrollmentStorage.HexIs | custom_components/onesti_lock/ble/client/enrollment.py:173-187 | Bytes are written as two lower-case digits each, the high one first |
| EnrollmentStorage.RecordReads | custom_components/onesti_lock/ble/client/enrollment.py:188-224 | Any record that holds a valid enrollment field by field, in format 1 or 2, reads as it |
| EnrollmentStorage.RecordReadsIff | custom_components/onesti_lock/ble/client/enrollment.py:189-228 | A record reads as an enrollment exactly when its fields, by their literal names, say it and it is valid; every other record is refused |
| EnrollmentStorage.HexReadsIff | custom_components/onesti_lock/ble/client/enrollment.py:440-447 | A text is hex for bytes exactly when it is their digit pairs in either case, the high digit first, with white space only between pairs |
| EnrollmentStorage.StorageRoundTrip | custom_components/onesti_lock/ble/client/enrollment.py:173-224 | Every valid enrollment reads back as it was written |
| EnrollmentStorage.FormatOneReads | custom_components/onesti_lock/ble/client/enrollment.py:188-224 | A format 1 record reads as the same enrollment without the key material and is rewritten as format 2 |
| EnrollmentStorage.RewritingIsStable | custom_components/onesti_lock/ble/client/enrollment.py:173-224 | Whatever record reads at all is a valid enrollment, and rewriting it changes nothing that is read |
| Release.Hub.UploadAsset | scripts/release_publish.py:726-767 | An asset there is read back; otherwise what an upload left behind is read back, whatever it reported |
| Release.Hub.RunFlow | scripts/release_publish.py:888-981 | The whole flow, every check before every write and publishing last |
| ReleaseOutcomes.PublishesIff | scripts/release_publish.py:888-981 | Nothing going wrong, a run publishes exactly when the commit is on main or this is a trial of 0.0.0, its build is what was handed over and attested, it has a body and a version that compares, and tag, release and first ZIP are free or its own |
| ReleaseOutcomes.PublishedState | scripts/release_publish.py:637-767 | What GitHub then holds, in full: tag, release, asset, latest version, and the writes that were made |
| ReleaseOutcomes.OtherRunsIff | scripts/release_publish.py:888-981 | Exactly when there is nothing to do, when a plan or dry run is planned, and that a check otherwise stops |
| ReleaseOutcomes.FailsIff | scripts/release_publish.py:888-981 | A run fails rather than stops exactly for want of a build, a body or a version that compares |
| ReleaseOutcomes.PublicIsProvedOrStops | scripts/release_publish.py:911-926 | A public version that cannot be proved stops the run, and nothing is written |
| ReleaseTheorems.RunIsSafe | scripts/release_publish.py:888-981 | One run, whatever fails in it, moves no tag, changes no release but a draft of the candidate's version, and writes only for a commit on main or a trial and only while no release of the version is public |
| ReleaseTheorems.PublicationsHangTogether | scripts/release_publish.py:637-767 | Over any runs of any candidates, each cut short anywhere: what was made public has its tag on the commit and a first asset with the attested digest of that commit's build; no tag moves; no version is made public twice |
| ReleaseTheorems.InterruptedRunsConverge | scripts/release_publish.py:903-981 | After any number of runs cut short anywhere, with no upload stored corrupt, one undisturbed run leaves exactly what an uninterrupted run leaves, each write made once, and a further run writes nothing |
| ReleaseTheorems.CorruptedUploadStops | scripts/release_publish.py:726-767 | A run whose upload arrived corrupt publishes nothing whatever else fails in it, and after it no run for the same tag, from whatever commit, in any mode and with any failures, writes or publishes anything while the file stands |
| ReleaseTheorems.SpoiledStays | scripts/release_publish.py:740-767 | With some other file than the build of the tagged commit on the draft a run for that tag, from whatever commit, stops or fails, and changes nothing |
| ReleaseTheorems.PublicIsFinal | scripts/release_publish.py:911-926 | Once the version is public no run of the call writes anything |
| ReleaseTheorems.LatestNeverGoesBack | scripts/release_publish.py:610-634 | No run takes latest back to an older version, and the trial version never becomes it |
| ReleaseOutcomes.SpelledIsRead | scripts/release_publish.py:610-612 | Three runs of digits with dots between read as their values |
| ReleaseOutcomes.VersionsRoundTrip | scripts/release_publish.py:610-612 | Every version written in decimal reads back |
| ReleaseOutcomes.AboveIsOrder | scripts/release_publish.py:614-635 | Versions are compared as numbers whose digits are the parts |
| Slots.UpdateIsPerSlot | custom_components/onesti_lock/coordinator.py:249-267 | An update does to the slot it names what it says and nothing to any other, a dropped blank record reading as a vacant slot |
| Slots.UpdateSays | custom_components/onesti_lock/coordinator.py:249-269 | Each operation literally: what the slot reads as after it, that only a name taken off an unknown slot saves nothing, and that a record goes exactly when its name is taken off and it has no code |
| Slots.FirstUserSlot | custom_components/onesti_lock/pin_rules.py:36-59 | The first slot a PIN command may name is 1, 2 or 3 whatever is stored |
| Slots.FirstUserSlotIsNearest | custom_components/onesti_lock/pin_rules.py:36-59 | It is the one of 1, 2 and 3 nearest to what is stored, and 3 when nothing is |
| Coordinator.CopyDicts | custom_components/onesti_lock/coordinator.py:168-188 | Every slot dict is copied into a new one, none shared |
| Coordinator.ConfigEntry.Update | custom_components/onesti_lock/coordinator.py:181-188 | Options are replaced and written only when they compare unequal, and what is on disk is what the options then say |
| Coordinator.Coordinator.LoadSlots | custom_components/onesti_lock/coordinator.py:152-172 | The coordinator shows the stored slots in dicts of its own |
| Coordinator.Coordinator.GetSlot | custom_components/onesti_lock/coordinator.py:204-213 | A copy of the slot or a vacant one, never a dict the coordinator holds |
| Coordinator.Coordinator.SaveSlots | custom_components/onesti_lock/coordinator.py:174-200 | Copies become the stored slots and are on disk, other options stay, and the entry's own coordinator takes them over |
| Coordinator.Coordinator.Name | custom_components/onesti_lock/coordinator.py:256-266 | A name set or removed in place; a slot left vacant goes; nothing to save for an unknown slot |
| Coordinator.Coordinator.Change | custom_components/onesti_lock/coordinator.py:362-400 | The in-place changes of each slot operation are the update of the values |
| Coordinator.Coordinator.TakeUpdate | custom_components/onesti_lock/coordinator.py:249-267 | Re-read, change, save as one step: what is stored is the update of what was stored, whatever this coordinator showed before, it is on disk, and no dict is shared with the options |
| Coordinator.Coordinator.Ask | custom_components/onesti_lock/coordinator.py:235-247 | A PIN operation on a reserved master slot is refused, any other waits for the PIN lock |
| Coordinator.Coordinator.Report | custom_components/onesti_lock/coordinator.py:286-315 | The first answer to a capability read is final and stored, and the slots stay |
| Integration.Integration.Setup | custom_components/onesti_lock/__init__.py:291-293 | A new coordinator starts from the stored options and becomes the entry's own |
| Integration.Integration.Unload | custom_components/onesti_lock/__init__.py:319-321 | The entry loses its coordinator, which lives on with its work in progress |
| Integration.Integration.SetSlotName | custom_components/onesti_lock/coordinator.py:249-267 | The objects move as the value step says: options on disk, no dict reachable from them held by any of the coordinators, none of either ever handed out, all other coordinators untouched |
| Integration.Integration.GetSlot | custom_components/onesti_lock/coordinator.py:204-213 | What get_slot hands out is nobody else's dict, and stays so over every later step |
| Integration.Integration.ChangeHandedOut | custom_components/onesti_lock/coordinator.py:204-213 | Whatever a caller does to a dict it was handed, at any later time, nothing stored, on disk or shown changes |
| Integration.Integration.Send | custom_components/onesti_lock/coordinator.py:348-361 | The free PIN lock goes to the first operation waiting |
| Integration.Integration.Answer | custom_components/onesti_lock/coordinator.py:348-401 | The PIN lock is released whatever the outcome, and the slots change only when the command was delivered, with the same guarantees as SetSlotName |
| Integration.Integration.Abandon | custom_components/onesti_lock/coordinator.py:351-368 | A PIN operation cancelled with its command in flight releases the lock and changes nothing |
| Integration.Integration.Withdraw | custom_components/onesti_lock/coordinator.py:351-368 | A PIN operation cancelled while it waits for the lock leaves the queue and changes nothing |
| Integration.Integration.Report | custom_components/onesti_lock/coordinator.py:286-315 | A capability answer moves the objects as the value step says |
| Integration.Integration.Reserve | custom_components/onesti_lock/config_flow.py:730-736 | The settings step changes the reserved slots alone |
| SlotTheorems.NoLostUpdate | custom_components/onesti_lock/coordinator.py:152-200 | After any run of any number of coordinators, every stored slot is the saves applied one after another to what was stored, and the entry's own coordinator reads the same |
| SlotTheorems.OptionsAreKept | custom_components/onesti_lock/coordinator.py:174-188 | Over any run slot writes keep the reserved slots and the capabilities, and writing those keeps the slots |
| SlotTheorems.SavesFollowSends | custom_components/onesti_lock/coordinator.py:348-401 | Each coordinator's PIN saves follow the order its commands were sent in, one for each command delivered and none for any other |
| QueueTheorems.OperationsQueue | custom_components/onesti_lock/coordinator.py:348-401 | Over any run a coordinator's operations go out in the order they were accepted, each once, unless one is withdrawn |
| QueueTheorems.FirstReportIsFinal | custom_components/onesti_lock/coordinator.py:286-315 | Over any run a coordinator goes by the first answer it got, or by the stored one it was made with |
| SlotTheorems.EntryHasTheLast | custom_components/onesti_lock/__init__.py:291-293 | Over any run the entry's coordinator is the last one set up, unless it was unloaded since |
| SlotTheorems.NewCoordinatorIs | custom_components/onesti_lock/coordinator.py:41-75 | A new coordinator shows what is stored, goes by the stored report and has nothing to do |
| SlotTheorems.OperationShows | custom_components/onesti_lock/coordinator.py:152-200 | The coordinator that took an update shows what is stored even when nothing was saved; the others but the entry's own keep what they showed |
| SlotTheorems.MasterCodeIsKept | custom_components/onesti_lock/coordinator.py:235-247 | Over any run slot 0 never has its code set or cleared |
| PinTheorems.StoredPinsFollowTheLock | custom_components/onesti_lock/coordinator.py:344-401 | With any number of coordinators, and a lock that takes sent commands at any time, in any order and any number of times: as long as no command goes out while another coordinator's of the opposite effect is in flight for the slot, outcomes are reported as they are and the lock takes none after its outcome, stored slot and lock agree whether there is a code whenever none is in flight |
| PinTheorems.StaysInStepIff | custom_components/onesti_lock/coordinator.py:344-401 | The invariant behind it is ended by a step exactly when the step breaks one of those assumptions and the slot is not already as the command would have it |
| PinTheorems.OutcomeAgreesIff | custom_components/onesti_lock/coordinator.py:361-367 | The outcome of the only command in flight for a slot leaves stored slot and lock in agreement exactly when it is reported as it is or the slot already shows the command's effect |
| PinTheorems.TakenThoughGivenUp | custom_components/onesti_lock/config_flow.py:366-383 | A faultless run up to a cancelled PIN write whose command the lock took: they disagree |
| PinTheorems.TakenThoughUnheard | custom_components/onesti_lock/zha.py:83-84 | A faultless run up to a lost answer to a command the lock took: they disagree |
| PinTheorems.DeliveredThoughNotTaken | custom_components/onesti_lock/zha.py:430-439 | A faultless run up to an answer that counts as delivery of a command the lock did not carry out: they disagree |
| PinTheorems.TakenTooLate | custom_components/onesti_lock/zha.py:440-455 | A faultless run, in agreement up to a command that the lock takes after it was given up: they disagree |
| PinTheorems.ClashIsReached | custom_components/onesti_lock/__init__.py:291-293 | A faultless run, through a reload, up to a command that goes out while the other coordinator's of the opposite effect is in flight |
| PinTheorems.ClashingAnswersDisagree | custom_components/onesti_lock/coordinator.py:56-58 | From any such clash, when the lock takes both commands and both are rightly reported as delivered, stored slot and lock agree exactly when the answers come in the order in which it took them |
| Migration.Registries.MigrateDevices | custom_components/onesti_lock/__init__.py:177-201 | The loop over the devices, with the owner it finds or makes on the way |
| Migration.Registries.MigrateEntities | custom_components/onesti_lock/__init__.py:202-214 | The loop over the entities |
| Migration.Registries.Migrate | custom_components/onesti_lock/__init__.py:167-214 | Both, in order; a refused identifier leaves the entities alone |
| MigrationTheorems.WalkFailsIff | custom_components/onesti_lock/__init__.py:183-201 | The device loop is refused exactly when a stale row needs the identifier and a device of another entry has it, and then nothing has changed |
| MigrationTheorems.WalkIsRefused | custom_components/onesti_lock/__init__.py:183-201 | Two rows, with no identifier on both, for which the device loop is refused |
| MigrationTheorems.DevicesAreMigrated | custom_components/onesti_lock/__init__.py:157-201 | No device of the entry keeps the address in any spelling; identifiers stay unique; a row of ours ends up with the entry's identifier, the user's own row if it had it; other integrations' identifiers and other entries' rows are kept; a row goes only when no other entry used it |
| MigrationTheorems.AddressIsGone | custom_components/onesti_lock/__init__.py:157-201 | No device of the entry keeps the address in any spelling, and one has the entry's id if one had either |
| Migration.LowerIgnoresCase | custom_components/onesti_lock/__init__.py:167-176 | Two texts are the same in lower case exactly when they differ in the case of letters alone |
| MigrationTheorems.DevicesSettle | custom_components/onesti_lock/__init__.py:148-155 | A second rewrite of the devices finds nothing to do |
| MigrationTheorems.EntitiesAreMigrated | custom_components/onesti_lock/__init__.py:202-214 | No entity of the entry keeps the address; keys stay unique; rows keep everything else; and the entry has an entity under a key exactly when it had one for that suffix under either key and no other entry stands there |
| MigrationTheorems.TargetIs | custom_components/onesti_lock/__init__.py:202-214 | A unique id that begins with the address in any spelling and a dash gets the entry's id for the address and keeps the rest as written; any other stays |
| MigrationTheorems.EntitiesSettle | custom_components/onesti_lock/__init__.py:148-155 | A second rewrite of the entities finds nothing to do |
| MigrationTheorems.RewriteIsSafeIff | custom_components/onesti_lock/__init__.py:168-206 | Rewritten unique ids are never taken for address-keyed ones exactly when neither of the two keys begins with the other |
| ReleaseNotes.LiftAction | scripts/release_notes.py:312-355 | The loops find the action category and its end, and give the reordered section or the error of an empty one |
| ReleaseNotes.SplitCategories | scripts/release_notes.py:358-398 | The loop collects lead, categories and bullets line by line |
| ReleaseNotesTheorems.LiftKeepsContent | scripts/release_notes.py:337-355 | Lead, action category and the rest keep every line that is not blank, each in its own order |
| ReleaseNotesTheorems.LiftRefusesIff | scripts/release_notes.py:330-336 | A section is refused exactly when its first action category has only blank lines up to the next heading |
| ReleaseNotesTheorems.LiftedIs | scripts/release_notes.py:337-355 | A lifted section line by line: lead, category, one empty line, the rest |
| ReleaseNotesTheorems.LiftSettles | scripts/release_notes.py:312-355 | The action category comes out as the first heading, and lifting again changes nothing |
| ReleaseNotesTheorems.SplitFollowsOutline | scripts/release_notes.py:379-398 | One category per heading and one bullet per bullet line of its category, in the order of the text |
| ReleaseNotesTheorems.SplitIsTidy | scripts/release_notes.py:366-398 | The lead is what stands before the first heading without empty lines at its ends, and every bullet is one bullet line with blank or indented lines below it, ending in text |
| ReleaseNotesTheorems.SplitKeeps | scripts/release_notes.py:385-398 | The lines with text that are kept are exactly the lead, the bullets' first lines and what is indented below one, blank lines between or not |
| ReleaseNotesTheorems.SplitLosesNothingIff | scripts/release_notes.py:358-398 | No text is lost exactly when every line that is not a heading is part of the lead or of a bullet |
| ReleaseNotesTheorems.WrappedBulletIsCut | scripts/release_notes.py:361-365 | A bullet that goes on in a line without indentation loses that line, though its description lets it run on |
| ReleaseNotesTheorems.SplitIsAmong | scripts/release_notes.py:366-398 | All lines kept are lines of the text in its order |
| Redaction.RedactedIsClear | custom_components/onesti_lock/redact.py:19-26 | Redacted text has no run of four digits or more |
| Redaction.PinLengthsAre | custom_components/onesti_lock/pin_rules.py:91-110 | The reported bounds hold when both are between 4 and 20 and do not cross; each falls back on its own to 4 and 8 |
| Redaction.PinIsTakenIff | custom_components/onesti_lock/pin_rules.py:112-119 | A code is taken exactly when it is digits alone, as many as the lock takes |
| Redaction.OnlyRunsAreMasked | custom_components/onesti_lock/redact.py:14-26 | Text is left as it is exactly when it has no such run |
| Redaction.RedactionSettles | custom_components/onesti_lock/redact.py:24-26 | Redacting again changes nothing |
| Redaction.NoAcceptedPinIsLogged | custom_components/onesti_lock/pin_rules.py:23-30 | No code the rules accept, for any capability report, is part of any redacted text |
| Redaction.RedactedSum | custom_components/onesti_lock/redact.py:19-26 | Text is redacted piece by piece wherever it is cut behind something that is no digit |
| Redaction.RunIsMasked | custom_components/onesti_lock/redact.py:20-26 | A run is masked alone and whole by one fixed mask, so nothing of the code shows, not even its length |

## Left out

- The key exchange, AES, SHA-1 and SHA-256 themselves: a scheme whose two ends agree, a block permutation, and digests as functions of the commit stand for them.
- Login: one step whose outcome is the lock's verdict or a break. A refused login is taken to answer SECURITY_ERROR and to leave the link usable, which `resume_enrollment` says is not known.
- Device name and clock: a name is stored whole; a name with a NUL, which the wire format would cut, and the encoding of times are not modelled.
- Feature gates of `send()`, event parsing and listeners, tracing, logging, and the causes attached to exceptions.
- Timers as asyncio implements them: the clock moves in whole steps between events, a task may be cancelled at any await, and a wake-up may come any time after what it waits for.
- Transports, ZHA and Bluetooth: a PIN command is reported as delivered or not; a refused one and one that never arrived are the same to the slots. A retry is the same command, which the lock may take twice.
- The lock's slots: whether each has a code, changed by sent commands alone; the code itself, and changes made at the lock or by another app, are not part of this model.
- `check_published`: whether a public release hangs together is one answer of the run's fortune, since it writes nothing.
- git, ZIP building, the release body and workflow outputs: functions of the commit and the version, or absent.
- Concurrent runs of the publishing flow: its workflow runs one at a time; events between runs are other runs and attestations.
- Slot keys: slots are numbers; the decimal key of a slot and keys that are no slot number are not part of this model. Fields hold text or a flag, so Python's `0 == False` does not arise.
- Coordinator construction and the assignment to `runtime_data` are one step; in between the code can wait for the language strings.
- `OptionsAreKept`: says nothing of capability answers that two coordinators read at once; the later one is stored.
- Listener notifications of the coordinator, availability, sensors, services and the forms of the config flow.
- The registries themselves: rows are identifiers and config entries, or domain, platform and unique id; a registry is taken to refuse an identifier or a key that another row has. Lower case is ASCII lower case, as in an address.
- Changelog text is its lines; the patterns for headings, bullets and the action name are predicates on a line, asked only to match no blank line; blank means space, tab and line ends. Links, markers and release dates are absent.
- Digits in redaction are any set of characters that holds the ASCII digits and not the mask's own character.
- The commands beyond those a session, an enrollment and the slots need, and the command-line tools, are not part of this model.
