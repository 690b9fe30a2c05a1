# Verified model of the IRC server

A model in Dafny of a single-threaded IRC server built around `poll()`: its event loop, its client, channel and nickname
maps, its command layer, the framing of what clients send, and the buffering of what they are sent.

The model has two layers.

* **Values.** The registry (`ServerState.Control`) and the I/O side (`PollTable.Io`) are values, and every operation is a
  function on them. A `Client*` is a descriptor together with the identity of the object it was made for, so a pointer
  dangles exactly when that object is no longer connected. A channel carries an identity too, so one that is deleted and
  created again under its name is a different one. The state machine (`Machine`) has one event per received chunk,
  handled message, write, mark, cleanup and accepted connection; its runs are all sequences of events. Commands and events
  are broken down into atomic steps (`Acts`), and what holds of runs of steps (`Provenance`, `Admission`) holds of runs
  of the server by `Machine.RunKeepsInv`.
* **Objects.** `Client`, `Channel`, `IrcServer` and `Cmd` are classes with the program's fields, loops and in-place
  updates, and `ServerRun` is the poll loop over them. Each method is proved to do to the state exactly what its function
  says, so everything proved of the values holds of the objects. `IrcServer.Valid` says that what a channel holds for a
  connected client, as participant or as operator, and what the index holds, is the very object in the client map
  (`IrcServer.SameObjects`, `IrcServer.IndexHoldsClients`).

Sockets, `poll`, `accept`, `recv`, `errno` and the clock are inputs: what `send()` will answer is a script in the state
(would block once it is used up), and what `poll`, `recv` and `accept` report are parameters of a turn of the loop. The one
assumption is that `accept` returns a descriptor that is not open and not negative.

Files, from the bottom: `Wrappers`, `Ordering` (iteration order of `std::map`), `Text` (tokenizers), `Tokenizing` (what
they compute), `Framing`, `Outbound`, `ServerState`, `Modes`, `Commands`, `Names`, `Recipients`, `JoinErrors`, `Acts`,
`CommandActs`, `OperatorLetter`, `Authority`, `Provenance`, `Admission`, `PollTable`, `Machine`, `DeferredDeletion`,
`Streams`, `CommandGuarantees`, `Marks` (who is marked, and why), `EventLoop`, `Turns` (what a turn of the loop comes to),
`Requests`, `ChannelRequests`, `ModeRequests` (what the text of a message asks for, and when it is granted),
`ServerGuarantees`, `PasswordHistory`, `ReachableStates`; then `ClientObject`, `ChannelObject`, `IrcServer`,
`CommandSteps`, `CmdObject`, `ServerRun`.

## What the proofs found

* `castMsg` (src/Server.cpp:306-311) compares the bytes sent with the length of the message instead of the length of
  backlog and message, and appends the unsent rest to a buffer that still holds the backlog. With a backlog, a partial send
  duplicates or loses bytes. `Outbound.StepConservesIffSafe` and `Outbound.ConservedIffSafe` give the exact guard,
  `Outbound.BacklogDuplicates` a run that breaks it.
* A batch of mode letters is more lenient than its letters one at a time: it accepts a key set or removed twice and a
  nickname demoted twice, and nothing else beyond them, since everything is validated against the channel as it was
  (`Modes.PlusBatchIsLetterwise`, `Modes.MinusBatchIsLetterwise`; inputs in `Modes.BatchTakesTwoKeys`,
  `Modes.BatchRemovesKeyTwice`, `Modes.BatchDemotesTwice`).
* A NUL in a received chunk hides the rest of that chunk. How a stream is cut cannot be observed iff nothing but NULs comes
  after its first NUL (`Framing.ChunkingHiddenIffNulsLast`; a stream where it can in `Framing.NulShowsChunking`).
* A JOIN of several channels that throws keeps what it did before the refusal: the channels are as before iff every one it
  got to first is one the sender was in, without +i (`JoinErrors.JoinErrorKeepsChannelsIff`,
  `CommandGuarantees.ErrorsChangeNoChannel`; an input in `JoinErrors.RefusedJoinLeavesNewChannel`).
* Teardown leaves a channel whose participants all disconnected (`DeferredDeletion.CleanupLeavesEmptyChannels`; a run in
  `ReachableStates.EmptyChannelIsReachable`), while PART and KICK delete it. Such a channel never has an operator again,
  and keeps its settings (`ServerGuarantees.EmptiedChannelIsFrozen`).
* A second NICK before registration leaves the first nickname in the index (`CommandGuarantees.OldNickStaysIndexed`; a run
  in `ReachableStates.StaleNicknameIsReachable`), and teardown erases only the current one
  (`DeferredDeletion.CleanupIndex`), so the entry then names a client that is gone
  (`ReachableStates.DanglingIndexIsReachable`). Only the direction from a nickname in use to its index entry holds, and the
  index is only asked for participants.
* The letter `o` in a channel's modes does not say whether there are operators: creating a channel does not set it
  (`OperatorLetter.NewChannelDoesNotTell`), and one `-o` clears it while others remain
  (`OperatorLetter.OneDemotionMisleads`). `OperatorLetter.TellsAfterMode` gives the exact condition after a MODE. The
  server never asks for this letter.
* Comments and code differ in places, and the model follows the code: nicknames may have 20 characters and start with a
  digit (src/Cmd/CmdNick.cpp:55-62, against the comment on nine letters above it), PRIVMSG has no limit of five receivers,
  and `-l` leaves the stored limit alone (`removeChannelUserLimit` is never called).

## Model

| member | source | states |
|---|---|---|
| `Acts.PerformKeepsInv` | src/Server.cpp:398-431 | no atomic step of the server (connect, teardown, rename, create, join, leave, kick, invite, topic, modes, registration) breaks the registry invariant: channel entries name connected, registered clients under their current nickname, operators are participants as the same client, nicknames are unique, the index finds every nickname in use, settings and registration data are in step |
| `Acts.TakeNickKeepsInv` | src/Cmd/CmdNick.cpp:70-112 | a nickname change keeps the invariant across the client map, the index and every channel |
| `Acts.RenamedIsOk` | src/Cmd/CmdNick.cpp:96-108 | one channel after a rename still names live clients by their current nicknames, operators included |
| `Acts.PurgedIsOk` | src/Server.cpp:402-412 | after teardown what stays in a channel names clients that stay |
| `Acts.DisconnectKeepsInv` | src/Server.cpp:398-431 | teardown of one client keeps the whole invariant |
| `Acts.FounderIsAdmitted` | src/Cmd/CmdJoin.cpp:102-132 | a channel that was just created passes all three join checks for its founder, who becomes its only participant and only operator, so JOIN never leaves a created channel empty |
| `Acts.ModeBatchKeepsOk` | src/Cmd/CmdMode.cpp:113-249 | an accepted MODE keeps the channel valid (k iff key, l only with a limit, operators still the participants' own clients) and touches settings and operators only |
| `Acts.LegalRunKeepsInv` | src/Server.cpp:163-229 | every run of allowed steps keeps the invariant |
| `CommandActs.CommandIsActs` | src/Cmd/Cmd.cpp:34-80 | every command, with all its parsing and checks, is a legal sequence of atomic steps taken by the client that sent it |
| `CommandActs.JoinIsActs` | src/Cmd/CmdJoin.cpp:96-149 | JOIN of several channels is a sequence of creations and admissions, each allowed when it happens |
| `CommandActs.JoinOneKeepsInv` | src/Cmd/CmdJoin.cpp:96-149 | joining one channel keeps the invariant and every client as it is |
| `CommandActs.PartIsActs` | src/Cmd/CmdPart.cpp:30-65 | PART of several channels is a sequence of exits of the sender |
| `CommandActs.UserIsEdit` | src/Cmd/CmdUser.cpp:81-150 | USER only moves the sender's own registration forward and keeps its data in step, also when it fails half way |
| `ServerState.IndexRefinesScan` | src/Server.cpp:345-352 | the nickname index gives the client the linear scan finds, for every nickname someone has, and the scan's answer is the only such client |
| `ServerState.IndexFindsParticipants` | src/Cmd/CmdMode.cpp:71-79 | the unchecked index lookup of +o always hits and yields the participant entry itself |
| `ServerState.ParticipantsAreDistinct` | src/Channel.cpp:16-18 | a client appears in a channel at most once |
| `ServerState.FindNick` | src/Server.cpp:345-352 | the scan finds a client with that nickname, or nobody has it |
| `Machine.StepKeepsInv` | src/Server.cpp:163-229 | every event keeps the whole state valid, registry and I/O side together, and moves the registry by legal steps only |
| `Machine.RunKeepsInv` | src/Server.cpp:163-229 | the same for every sequence of events, so what is proved of runs of steps holds of the server |
| `Machine.ProcessKeepsInv` | src/Server.cpp:513-548 | handling one message keeps the state valid, removes exactly that message from the buffer, connects and disconnects nobody and changes no other client |
| `Machine.HandleDelivers` | src/Cmd/Cmd.cpp:34-80 | what handling a message sends and marks is the command's effects, then the error text, then the mark |
| `Machine.CleanControl` | src/Server.cpp:632-651 | cleanup removes exactly the marked clients and keeps the registry valid |
| `Machine.AcceptKeepsInv` | src/Server.cpp:116-144 | accepting a connection keeps the state valid |
| `ServerGuarantees.NothingDangles` | README.md:75-134 | in every reachable state no channel entry dangles or misnames its client, operators are participants as the same client, and nicknames are unique |
| `ServerGuarantees.TableMatchesClients` | src/Server.cpp:116-144 | in every reachable state the poll table has one slot more than there are clients, at most 20; the server's descriptor and every unmarked client's stand in it exactly once, a client's armed for writing if bytes are pending |
| `ServerGuarantees.OperatorsHaveLineage` | src/Cmd/CmdJoin.cpp:103-108 | in every reachable state each operator of a channel instance founded it or was promoted by someone who was then an operator, and so on back to the founder |
| `EventLoop.TurnIsRun` | src/Server.cpp:163-229 | one turn of run() is a sequence of the state machine's events, whatever poll, accept and recv answer, turns cut short by a failed accept or poll included |
| `EventLoop.ScanGoesOn` | src/Server.cpp:177-217 | after one slot's turn the slots the scan still has to visit are the ones poll() reported on or void by now, new ones come after them, and the server's slot is not met again |
| `DeferredDeletion.NobodyLeavesBetweenCleanups` | src/Server.cpp:591-615 | over any stretch without a cleanup nobody leaves the client map, every client stays the same object, and marks stay |
| `DeferredDeletion.MarkedClientsAreSilent` | src/Server.cpp:529-533 | a marked client has no slot, starts no command, receives nothing, gets no POLLOUT turn and cannot be marked again; castMsg still passes what others send it to send(), which touches its send buffer only |
| `DeferredDeletion.CleanupPurgesExactlyTheMarked` | src/Server.cpp:632-651 | after cleanup no channel mentions a removed client, every other membership and setting is untouched, the other clients are the same, nobody is marked |
| `DeferredDeletion.CleanupLeavesEmptyChannels` | src/Server.cpp:402-412 | teardown never deletes a channel: it leaves one empty exactly when all its participants were marked |
| `DeferredDeletion.LeavingDeletesEmptiedChannels` | src/Cmd/CmdPart.cpp:62-64 | PART and KICK delete the channel exactly when the last participant goes |
| `DeferredDeletion.TearDownChannels` | src/Server.cpp:632-640 | what a series of teardowns leaves of one channel: its entries without those clients' |
| `PollTable.TableMeans` | src/Server.cpp:177-219 | the table holds the server's descriptor once, every unmarked client's once, no marked one's, one -1 per mark, and has one more slot than there are clients |
| `PollTable.MarkKeepsIo` | src/Server.cpp:599-615 | marking leaves no slot with the client's descriptor, leaves every other slot and the length of the table alone, and keeps table and wakeups right |
| `PollTable.CastKeepsIo` | src/Server.cpp:284-314 | castMsg keeps them for every answer of send() |
| `PollTable.WriteKeepsIo` | src/Server.cpp:557-589 | so does a POLLOUT turn, whatever send() answers |
| `PollTable.NewSlotKeepsIo` | src/Server.cpp:125-142 | so does an accepted connection while there is room |
| `PollTable.SweptKeepsIo` | src/Server.cpp:640-651 | so does the compaction after cleanup |
| `PollTable.DeliverFrame` | src/Server.cpp:316-336 | whatever a command sends, nobody connects, disconnects or gets unmarked, received bytes stay, slots only turn void |
| `PollTable.DeliverKeepsIo` | src/Server.cpp:316-336 | any series of casts and marks keeps table and wakeups right |
| `Framing.ExtractIsLossless` | src/Client.cpp:105-128 | one extraction loses only the CRLF of the message; a message has no CRLF and at most 510 bytes; without a message the buffer has no CRLF and at most 511 bytes; the buffer shrinks |
| `Framing.ExtractIsStable` | src/Client.cpp:105-128 | bytes that arrive later do not change a message that was complete and go to the leftover |
| `Framing.FlushThresholdIsTight` | src/Client.cpp:122-126 | among all flush thresholds for a buffer without CRLF, later bytes leave complete messages alone iff the threshold is at least 512 |
| `Framing.ChunkingIsInvisible` | src/Server.cpp:519-533 | draining after every received chunk gives the messages and leftover of draining the whole stream |
| `Framing.ChunkIndependence` | src/Server.cpp:519-533 | two ways of cutting one stream into chunks give the same messages and the same leftover |
| `Framing.DrainedMessagesAreLegal` | src/Client.cpp:105-128 | every drained message is legal and the leftover is shorter than a message |
| `Framing.DrainInvertsEncode` | src/Client.cpp:105-128 | CRLF-free messages of at most 510 bytes, each ended by CRLF, are drained exactly as they were sent |
| `Framing.CString` | src/Server.cpp:527-528 | a received chunk counts up to its first NUL and no further |
| `Framing.ChunkingHiddenIffNulsLast` | src/Server.cpp:519-533 | all ways of cutting a stream into received chunks give the same messages and leftover iff nothing but NULs comes after its first NUL |
| `Framing.AcceptedUpToNuls` | src/Server.cpp:527-528 | when only NULs come after the first NUL, every cutting accepts exactly what comes before it |
| `Framing.ReceivedChunkIndependence` | src/Server.cpp:519-533 | for every cutting, the bytes accepted from the socket are the whole stream iff it has no NUL; two cuttings of such a stream read the same |
| `Framing.NulShowsChunking` | src/Server.cpp:527-528 | a stream with a byte after a NUL, and two cuttings of it that read differently |
| `Streams.HandledMessagesFrameTheStream` | src/Server.cpp:513-548 | over any run of the whole server the messages handled for a client are a prefix of the framing of its byte stream, and the rest is the framing of its buffer |
| `Streams.SendBufferIsLink` | src/Server.cpp:284-314 | over any run a client's send buffer is the buffer of an outbound link that saw exactly the casts to it and its writes, so as far as the casts met the guard the peer got what was cast |
| `Outbound.StepConservesIffSafe` | src/Server.cpp:290-311 | a cast keeps "bytes sent, then bytes pending, are the messages cast" iff send() refused for now, or there was no backlog, or it took everything (an empty message aside) |
| `Outbound.ConservedIffSafe` | src/Server.cpp:284-314 | over any run of casts and writes the stream is conserved at every moment iff every cast met that guard |
| `Outbound.BacklogDuplicates` | src/Server.cpp:306-308 | concrete run where a backlog and a partial send make the peer read bytes twice |
| `Modes.PlusBatchIsLetterwise` | src/Cmd/CmdMode.cpp:113-178 | an accepted "+letters" has exactly the effect of its letters one at a time; letter-by-letter acceptance within three parameters is batch acceptance plus no second k |
| `Modes.MinusBatchIsLetterwise` | src/Cmd/CmdMode.cpp:180-249 | the same for "-letters"; the batch accepts more exactly when a key is removed twice or a nickname demoted twice |
| `Modes.PlusOrderDoesNotMatter` | src/Cmd/CmdMode.cpp:157-177 | executing i and t before the letters with parameters equals executing from left to right |
| `Modes.MinusOrderDoesNotMatter` | src/Cmd/CmdMode.cpp:230-248 | executing i, t, l and k before the demotions equals executing from left to right |
| `Modes.BatchTakesTwoKeys` | src/Cmd/CmdMode.cpp:113-178 | "+kk a b" on a channel without key: accepted as a batch, refused letter by letter |
| `Modes.BatchRemovesKeyTwice` | src/Cmd/CmdMode.cpp:180-249 | "-kk s s" with s the key: the same |
| `Modes.BatchDemotesTwice` | src/Cmd/CmdMode.cpp:180-249 | "-oo x x" with x an operator: the same |
| `OperatorLetter.LetterAfterMode` | src/Cmd/CmdMode.cpp:71-87 | after an accepted MODE the letter o is set iff it was set by it, or was set before and not taken away |
| `OperatorLetter.OperatorsAfterMode` | src/Cmd/CmdMode.cpp:71-87 | after "+" every operator still is one; after "-" the operators are the old ones without exactly those named for an o |
| `OperatorLetter.TellsAfterMode` | src/Cmd/CmdMode.cpp:71-87 | after an accepted MODE, "o is set iff there are operators" holds after "+" iff o is among the letters or was set before, after "-" iff all operators were demoted by its o letters, or it has none and o was set before |
| `OperatorLetter.NewChannelDoesNotTell` | src/Cmd/CmdJoin.cpp:102-108 | a channel that was just created has an operator and not the letter |
| `OperatorLetter.OneDemotionMisleads` | src/Cmd/CmdMode.cpp:82-87 | a channel with two operators, and the -o on one of them after which the letter is gone and the other remains |
| `CommandGuarantees.ModeIsLetterwise` | src/Cmd/CmdMode.cpp:251-305 | a MODE line changes nothing, or comes from an operator and changes that one channel as its letters would one at a time |
| `CommandGuarantees.UnregisteredModeIsRefused` | src/Cmd/CmdMode.cpp:270-273 | MODE has no registration check, yet an unregistered client changes nothing, hears nothing and gets an error |
| `CommandGuarantees.ErrorsChangeNoChannel` | src/Cmd/Cmd.cpp:70-78 | a command that throws has not changed the index, and has changed no channel, iff it is not JOIN or every channel JOIN got to before the refusal was one the sender was in, without +i |
| `JoinErrors.JoinStopsAtRefusal` | src/Cmd/CmdJoin.cpp:96-149 | a JOIN throws iff some channel refuses; it leaves the registry of the successful JOIN of the channels before that one, and its error is what that channel says then |
| `JoinErrors.JoinKeepsChannelsIff` | src/Cmd/CmdJoin.cpp:96-149 | a list of channels leaves all channels as they were iff every channel entered before a refusal is one the sender is in already, without +i |
| `JoinErrors.JoinErrorKeepsChannelsIff` | src/Cmd/CmdJoin.cpp:67-150 | the same for the JOIN command that throws, refusals as a whole included; the index never changes |
| `JoinErrors.RefusedJoinLeavesNewChannel` | src/Cmd/CmdJoin.cpp:96-149 | "JOIN #a,#b" with #b keyed, in a valid registry: it throws, and #a is new and stays |
| `CommandGuarantees.NickIsPureRenaming` | src/Cmd/CmdNick.cpp:70-112 | NICK by a registered client replaces its key in every participant and operator map, same clients, same sizes, no collision, and nothing else of a channel; the index loses the old key, gains the new one and keeps the rest; every other client is untouched |
| `CommandGuarantees.OldNickStaysIndexed` | src/Cmd/CmdNick.cpp:110-111 | the nickname given up stays in the index exactly when the client was not registered, and then nobody has it |
| `CommandGuarantees.OnlyQuitDrops` | src/Cmd/CmdQuit.cpp:3-8 | no command but QUIT marks anyone by itself |
| `CommandGuarantees.RegisteredClientsSurviveErrors` | src/Cmd/Cmd.cpp:70-78 | a registered client's message other than QUIT marks nobody, errors included, unless a send finds its peer gone |
| `Recipients.BroadcastReachesOnce` | src/Server.cpp:316-336 | a broadcast to a channel tells every participant but the excepted one exactly once, this message, and nobody else anything |
| `Recipients.PrivmsgReachesOnce` | src/Cmd/CmdPrivmsg.cpp:87-171 | an accepted PRIVMSG sends, for each receiver it names, exactly one copy to each client the receiver stands for (a channel's participants without the sender, or the client with that nickname), and sends nothing else |
| `Names.NamesLineReadsBack` | src/Channel.cpp:59-76 | the NAMES line split at spaces gives every participant exactly once in map order, with @ exactly on the operators |
| `Authority.OperatorOrigin` | src/Cmd/CmdMode.cpp:71-79 | by identity, one becomes operator of a channel instance only by creating it or by +o from one of its operators, as a participant |
| `Authority.RenameKeepsIdentities` | src/Cmd/CmdNick.cpp:96-108 | NICK keeps each channel's operator and participant sets by identity and nothing else of it changes |
| `Authority.SettingsNeedOperator` | src/Cmd/CmdMode.cpp:279-281 | modes, key and limit change only by MODE from a current operator |
| `Authority.TopicNeedsRight` | src/Cmd/cmdTopic.cpp:84-90 | the topic changes only by TOPIC from a participant, under +t from an operator |
| `Authority.EntryIsOwnJoin` | src/Cmd/CmdJoin.cpp:96-132 | one gets into a channel only by one's own JOIN |
| `Authority.ExitIsEarned` | src/Cmd/CmdKick.cpp:84-108 | one gets out only by one's own PART, a KICK from an operator, or disconnecting |
| `Provenance.EveryOperatorHasLineage` | src/Cmd/CmdMode.cpp:267-295 | over any run of steps from an empty server every operator has a chain of grants back to the founder |
| `Provenance.SettingsHistory` | src/Cmd/CmdMode.cpp:267-295 | if the settings of a channel instance differ between two moments, one of its operators sent MODE in between |
| `Provenance.OperatorsNeverReturn` | src/Cmd/CmdMode.cpp:267-295 | over any run, a channel instance without operators never gets one again |
| `Provenance.OperatorlessIsFrozen` | src/Cmd/CmdMode.cpp:267-295 | and keeps its modes, key and limit for as long as it exists |
| `ServerGuarantees.EmptiedChannelIsFrozen` | src/Server.cpp:632-651 | what a cleanup leaves of a channel it emptied: over any further run of the server the instance has no operator and the settings it had |
| `Provenance.InstancePersists` | src/Server.cpp:359-365 | a channel instance that is there now was there at every earlier moment since its number was given: none is resurrected |
| `Admission.LimitIsNeverExceeded` | src/Cmd/CmdJoin.cpp:126-129 | while a limit stays set, a channel within it stays within it under any interleaving |
| `Admission.ActSpendsInvitation` | src/Cmd/CmdJoin.cpp:113-148 | under +i one step admits a nickname only by using up its invitation, and only operators invite |
| `Admission.AdmissionsAreInvited` | src/Cmd/CmdInvite.cpp:51-65 | while +i stays set, admissions under a nickname never outnumber the invitations of that nickname |
| `PasswordHistory.OnlyPassSetsPass` | src/Cmd/CmdPass.cpp:15-29 | a command sets the sender's password flag iff it is PASS with the server's password, which is not empty; no command unsets it |
| `PasswordHistory.PassedIffGavePassword` | src/Cmd/CmdPass.cpp:15-29 | in every reachable state a client's password flag is set iff earlier in the run, as the same client, it sent PASS with the server's password (and that is not empty) |
| `PasswordHistory.MembersGavePassword` | src/Cmd/CmdPass.cpp:15-29 | in every reachable state every participant of every channel has done so |
| `ReachableStates.StaleNicknameIsReachable` | src/Cmd/CmdNick.cpp:110-111 | a run from the start (PASS, NICK a, NICK b) to a state whose index still has the nickname nobody uses |
| `ReachableStates.EmptyChannelIsReachable` | src/Server.cpp:398-431 | a run from the start (registration, JOIN, hang-up, cleanup) to a state with an empty channel |
| `Admission.RegistrationIsMonotone` | src/Cmd/CmdUser.cpp:144-149 | over a run a client's registration only goes forward, and a registered client keeps a valid nickname and the prefix nick!user@host of its current one |
| `Tokenizing.FieldsAreWords` | src/Cmd/CmdJoin.cpp:26-46 | the fields of a JOIN are non-empty, free of commas and spaces, and together, in order, all of the text that is neither |
| `Tokenizing.FieldsUndoJoin` | src/Cmd/CmdJoin.cpp:26-46 | words joined with commas or spaces are read back |
| `Tokenizing.TokensUndoJoin` | src/Cmd/CmdMode.cpp:251-265 | words joined with spaces are read back by stream extraction |
| `Tokenizing.SplitDropsDelimiters` | src/Cmd/CmdKick.cpp:27-50 | without a colon in the text, the fields have no delimiter, and joined with it give the text back, up to a delimiter at the end |
| `Tokenizing.SplitReadsField` | src/Cmd/CmdKick.cpp:27-50 | a field that does not start with a colon is read up to the delimiter, and the rest is split alone |
| `Tokenizing.ColonSwallows` | src/Cmd/CmdKick.cpp:27-50 | a field that starts with a colon, before a delimiter, is all of the rest without the colon |
| `Tokenizing.SplitUndoesJoin` | src/Cmd/CmdKick.cpp:27-50 | fields without delimiter that do not start with a colon, the last one not empty, are read back when joined |
| `Tokenizing.TopicFieldsRejoin` | src/Cmd/cmdTopic.cpp:24-45 | the fields of a TOPIC joined with spaces are the text; only the last one can hold a space, and then it starts with a colon |
| `Tokenizing.MessageFieldsRead` | src/Cmd/CmdPrivmsg.cpp:40-76 | receivers joined with commas, then the text after " :", are read back |
| `Requests.CommandWords` | src/Cmd/Cmd.cpp:34-66 | each of the 13 command words, written out, before a white-space character runs its own command on exactly what comes after |
| `Requests.OtherWords` | src/Cmd/Cmd.cpp:34-69 | any other first word is unknown |
| `Requests.HandleIs` | src/Cmd/Cmd.cpp:34-80 | what handling any message comes to: the registry, the effects in order, then the error text to the sender, who is dropped exactly if it is not registered then |
| `Requests.QuitLeaves` | src/Cmd/CmdQuit.cpp:3-8 | the text QUIT marks its sender, registered or not, and changes nothing in the registry |
| `Requests.PingEchoed` | src/Cmd/CmdPing.cpp:3-13 | the text PING p gets PONG and p back iff the sender is registered, else the error 451 |
| `Requests.CapAndUnknown` | src/Cmd/cmdCap.cpp:3-5 | CAP and unknown words get one answer each and change nothing |
| `Requests.PassGranted` | src/Cmd/CmdPass.cpp:15-29 | PASS p is granted iff none was given yet and p is the password, not empty; what it changes, and which refusal otherwise |
| `Requests.NickGranted` | src/Cmd/CmdNick.cpp:42-75 | NICK p is granted iff the password was given, p is 1 to 20 letters and digits, and nobody has it; the first lack decides the error |
| `Requests.FirstNickTaken` | src/Cmd/CmdNick.cpp:83-112 | before registration the nickname is stored with the sender and in the index, and nobody is told |
| `Requests.NickToldToAll` | src/Cmd/CmdNick.cpp:109 | after registration everyone connected is told exactly once |
| `Requests.UserGranted` | src/Cmd/CmdUser.cpp:81-150 | USER u h v :real name is granted iff the password was given, the sender is not registered, and both names keep to length and characters; it stores them and registers iff there is a nickname, then with the six greetings |
| `Requests.UserIsShort` | src/Cmd/CmdUser.cpp:92-102 | with fewer than four words it is refused and changes nothing |
| `ChannelRequests.JoinGranted` | src/Cmd/CmdJoin.cpp:110-129 | an existing channel lets a client in iff it is invited under +i, gives the very key under +k, and there is room under +l; the first lack decides between 473, 475 and 471 |
| `ChannelRequests.JoinTakesIn` | src/Cmd/CmdJoin.cpp:131-148 | then exactly its participant entry is added and its invitation used up under +i; everyone in the channel hears the JOIN once, the newcomer gets names and topic reply |
| `ChannelRequests.JoinCreates` | src/Cmd/CmdJoin.cpp:102-108 | a channel that does not exist is created with its founder as only participant and operator, with the key unless it is "x", and nothing else set |
| `ChannelRequests.JoinOneMore` | src/Cmd/CmdJoin.cpp:96-149 | of several channels each is joined in the registry the ones before left, the i-th with the i-th key |
| `ChannelRequests.JoinReads` | src/Cmd/CmdJoin.cpp:67-95 | the text JOIN names keys is refused as a whole when unregistered, with more keys than names, or a bad name; else it joins just these channels with these keys |
| `ChannelRequests.PartGranted` | src/Cmd/CmdPart.cpp:30-65 | PART takes a participant out of the channel, tells everyone in it once, and deletes the channel iff nobody else was in it; else one of three answers and no change |
| `ChannelRequests.PartOneMore` | src/Cmd/CmdPart.cpp:30-65 | of several channels each is left in the registry the ones before left |
| `ChannelRequests.PartReads` | src/Cmd/CmdPart.cpp:19-28 | the text PART names leaves just these channels, in order |
| `ChannelRequests.KickGranted` | src/Cmd/CmdKick.cpp:53-109 | KICK channel nick is granted iff an operator of the channel asks for a participant, who is then out of both maps, with everyone in the channel told once |
| `ChannelRequests.KickRefused` | src/Cmd/CmdKick.cpp:53-98 | which lack a KICK is refused for |
| `ChannelRequests.InviteGranted` | src/Cmd/CmdInvite.cpp:22-72 | INVITE nick channel is granted iff a participant, under +i an operator, asks for someone connected who is not in the channel; the invitation is noted and both are told |
| `ChannelRequests.InviteRefused` | src/Cmd/CmdInvite.cpp:22-62 | which lack an INVITE is refused for |
| `ChannelRequests.TopicGranted` | src/Cmd/cmdTopic.cpp:47-93 | TOPIC channel :text is granted iff a participant, under +t an operator, asks; the text is stored, everyone in the channel told once; else which lack it is refused for |
| `ChannelRequests.TopicAsked` | src/Cmd/cmdTopic.cpp:79-84 | TOPIC channel changes nothing and answers a participant by whether there is a topic |
| `ChannelRequests.PrivmsgGranted` | src/Cmd/CmdPrivmsg.cpp:87-171 | PRIVMSG receivers :text is granted iff there are receivers, of one kind, none twice, each a channel the sender is in or a nickname somebody has; it changes nothing |
| `ChannelRequests.PrivmsgRefused` | src/Cmd/CmdPrivmsg.cpp:99-128 | mixed receivers are told so, and repeated ones refused |
| `ChannelRequests.PrivmsgWithoutText` | src/Cmd/CmdPrivmsg.cpp:131-133 | receivers without a text are refused |
| `ChannelRequests.FirstOutOfReach` | src/Cmd/CmdPrivmsg.cpp:135-155 | the first receiver out of reach decides between 404 and 401 |
| `ChannelRequests.WrongCount` | src/Cmd/CmdKick.cpp:61-63 | KICK with other than two or three words and INVITE with other than two are refused and change nothing |
| `ModeRequests.BatchAccepted` | src/Cmd/CmdMode.cpp:113-249 | a batch is accepted iff its letters are known, it has one parameter for each letter that takes one, at most three, and each is as the channel asks: o names a participant (for "-" an operator), +k meets no key and is 1 to 9 long, -k is the key, l is digits without leading zero |
| `ModeRequests.FirstRefusal` | src/Cmd/CmdMode.cpp:14-69 | the first parameter that is not decides the error |
| `ModeRequests.AtoiReads` | src/Cmd/CmdMode.cpp:101-105 | the number stored for a limit is the one whose decimal form was given |
| `ModeRequests.PlusLeaves` | src/Cmd/CmdMode.cpp:157-177 | what "+letters" leave: the letters set, key and limit those of the last k and l, exactly the named ones operators beside the old ones, as the index has them, nothing else |
| `ModeRequests.MinusLeaves` | src/Cmd/CmdMode.cpp:230-248 | what "-letters" leave: the letters cleared, no key if k is among them, the limit as it was, exactly the named ones no operators, nothing else |
| `ModeRequests.ModeGranted` | src/Cmd/CmdMode.cpp:251-305 | the text MODE channel letters parameters is granted iff an operator of the channel asks and the batch is accepted; then exactly this is left and everyone in the channel is told once |
| `ModeRequests.ModeRefused` | src/Cmd/CmdMode.cpp:262-281 | which lack a MODE is refused for |
| `Marks.CastMarks` | src/Server.cpp:290-304 | castMsg marks the client iff it is connected and send() finds its peer gone, and marks nobody else |
| `Marks.CastArmsIff` | src/Server.cpp:290-311 | it arms the client's slot iff send() refused for now or took fewer bytes than the message has |
| `Marks.WriteMarks` | src/Server.cpp:557-589 | a POLLOUT turn marks the client iff bytes are pending and send() reports a lasting error, and marks nobody else |
| `Marks.WriteSends` | src/Server.cpp:557-589 | it offers the pending bytes to one call of send() and keeps what was not taken |
| `Marks.WriteArmsIffPending` | src/Server.cpp:576-586 | after a POLLOUT turn that goes well the slot is armed iff something is still pending |
| `Marks.DeliverMarks` | src/Server.cpp:284-336 | after any series of effects someone is marked iff it was, or a mark was asked for, or one of the texts to it got the answer that its peer is gone, answers counted call by call |
| `Marks.HandleMarks` | src/Cmd/Cmd.cpp:34-80 | handling a message marks exactly its sender, if it was QUIT or an error while not registered, and everyone a text to whom found the peer gone |
| `Turns.DrainHandlesAll` | src/Server.cpp:513-548 | a client that is not marked after the drain had exactly the messages of its buffer handled, in order, and keeps the leftover |
| `Turns.SlotMarks` | src/Server.cpp:177-216 | whom the turn of one slot marks, exactly: its client for a hang-up, an ended stream or a failed write, and whom the messages handled mark |
| `Turns.SlotSends` | src/Server.cpp:198-208 | a writable slot whose client stays offers its pending bytes to send() once, after the reading |
| `Turns.ScanMarks` | src/Server.cpp:177-217 | whom the scan marks, exactly |
| `Turns.ScanClients` | src/Server.cpp:177-217 | the scan goes through iff no accept is refused and there is room, and then exactly the admitted have come in; nobody leaves |
| `Turns.NewcomerIs` | src/Server.cpp:116-144 | an admitted connection is a new client with nothing done yet, and a slot of its own at the end of the table |
| `Turns.ScanReceives` | src/Server.cpp:177-217 | a client that is not marked in the end has in its buffer what draining its slot's chunk left, or what it had |
| `Turns.TurnClients` | src/Server.cpp:163-229 | who is connected after a turn in which no accept fails: exactly those who were, had not been marked and did not time out, and the admitted, without those some slot's turn gave up; the same objects, and nobody is left marked |
| `Turns.TurnBuffers` | src/Server.cpp:163-229 | and after a readable slot no complete message is left in its client's buffer |
| `Turns.BrokenClientsGo` | src/Server.cpp:188-216 | whoever poll() reported as broken, or whose stream has ended, is gone after such a turn |
| `Turns.PollFailure` | src/Server.cpp:163-176 | a turn cut short by poll() only marks whoever timed out |
| `Turns.AcceptFailure` | src/Server.cpp:177-229 | a turn cut short by accept() lets nobody go and leaves whoever timed out marked |
| `PollTable.CompactKeepsOrder` | src/Server.cpp:642-650 | the compaction leaves the slots that are not -1, in their order |
| `DeferredDeletion.CleanupIndex` | src/Server.cpp:414-418 | cleanup takes the current nicknames of the removed clients, and nothing else, from the index |
| `Admission.AdmissionsHaveKey` | src/Cmd/CmdJoin.cpp:122-125 | over any run, whoever gets into an instance that has a key at that moment has given just this key |
| `Framing.ExtractIs` | src/Client.cpp:105-128 | extraction written out: the bytes before a CRLF that starts within the first 511; without one, the first 510 of at least 512; otherwise nothing |
| `Recipients.BroadcastInOrder` | src/Server.cpp:316-328 | a broadcast goes through the channel in ascending order of nicknames |
| `ReachableStates.DanglingIndexIsReachable` | src/Server.cpp:414-418 | a run from the start (PASS, NICK a, NICK b, hang-up, cleanup) after which the index names a client that is gone |
| `ClientObject.Client.ExtractMessage` | src/Client.cpp:105-128 | takes from the receive buffer exactly what the framing function says |
| `ClientObject.Client.AppendToRecvBuffer` | src/Client.cpp:77-79 | appends to the receive buffer |
| `ClientObject.Client.AppendToSendBuffer` | src/Client.cpp:130-132 | appends to the send buffer |
| `ClientObject.Client.ClearSendBuffer` | src/Client.cpp:138-140 | drops a prefix, at most the whole buffer |
| `ClientObject.Client.SetNickname` | src/Client.cpp:21-28 | the name up to its first space is taken, the whole name without one |
| `ClientObject.Client.SetPrefix` | src/Client.cpp:149 | caches nick!user@host |
| `ChannelObject.Channel.constructor` | src/Channel.cpp:4-5 | a new channel is empty and its limit unset |
| `ChannelObject.Channel.AddParticipant` | src/Channel.cpp:16-18 | inserts unless there is an entry already |
| `ChannelObject.Channel.AddOperator` | src/Channel.cpp:24-27 | overwrites the entry |
| `ChannelObject.Channel.RemoveInvited` | src/Channel.cpp:102-104 | the nickname's invitation goes |
| `ChannelObject.Channel.Purge` | src/Server.cpp:404-411 | takes a nickname out of participants and operators and leaves the rest |
| `ChannelObject.Channel.Rename` | src/Cmd/CmdNick.cpp:96-108 | moves the entries of one nickname to another, in participants and, if it was one, in operators |
| `ChannelObject.Channel.GetParticipantNameStr` | src/Channel.cpp:59-76 | the loop yields the NAMES line: current nicknames in map order, @ for operators |
| `IrcServerObject.IrcServer.SameObjects` | src/Cmd/CmdMode.cpp:71-79 | a participant, its operator entry and its index entry are the one object in the client map, under its current nickname |
| `IrcServerObject.IrcServer.IndexHoldsClients` | src/Server.cpp:372-375 | every nickname in use is indexed with the very object that uses it |
| `IrcServerObject.IrcServer.constructor` | src/Server.cpp:106-109 | the server starts with its own slot and nothing else |
| `IrcServerObject.IrcServer.CastMsg` | src/Server.cpp:284-314 | for every answer of send(): buffer, POLLOUT and mark as the value-level castMsg says; the registry is untouched |
| `IrcServerObject.IrcServer.BroadcastMsg` | src/Server.cpp:316-336 | casts to the participants in map order except the sender, or to every client; no map being iterated changes |
| `IrcServerObject.IrcServer.GetClientByNick` | src/Server.cpp:345-352 | the scan over the clients returns what FindNick says |
| `IrcServerObject.IrcServer.EnablePollOutEvent` | src/Server.cpp:474-481 | arms the first slot with that descriptor |
| `IrcServerObject.IrcServer.MarkClientForRemoval` | src/Server.cpp:599-615 | marks a connected, unmarked client and voids its slot; otherwise nothing |
| `IrcServerObject.IrcServer.UpdateNickNameClientMap` | src/Server.cpp:446-449 | the index loses the old nickname and gains the new one |
| `IrcServerObject.IrcServer.UpdateClients` | src/Server.cpp:441-444 | erase and reinsert leave the client map as it was |
| `IrcServerObject.IrcServer.AddClientByNickname` | src/Server.cpp:372-375 | the index gains an entry, an older one of the client stays |
| `IrcServerObject.IrcServer.SetChannels` | src/Server.cpp:377-383 | a new channel object with the given key and mode under its name |
| `IrcServerObject.IrcServer.RemoveChannel` | src/Server.cpp:359-365 | the channel goes from the map |
| `IrcServerObject.IrcServer.AcceptClient` | src/Server.cpp:116-144 | admits the connection iff there are fewer than 20 clients; otherwise nothing changes |
| `IrcServerObject.IrcServer.RemoveClientFromServer` | src/Server.cpp:398-431 | the client is out of every channel, both maps and the table, and nothing else changes |
| `IrcServerObject.IrcServer.CleanupMarkedClients` | src/Server.cpp:632-651 | tears down exactly the marked clients in order, clears the marks, compacts the table in place |
| `IrcServerObject.IrcServer.CompactFds` | src/Server.cpp:642-650 | in-place erasure leaves the slots that are not -1, in order |
| `IrcServerObject.IrcServer.ProcessClientWrite` | src/Server.cpp:557-589 | offers the pending bytes once, keeps the rest, disarms POLLOUT when nothing is left, fails only on a lasting error |
| `IrcServerObject.IrcServer.MarkClients` | src/Server.cpp:156-160 | marks the collected clients one after the other |
| `CmdObject.Cmd.constructor` | src/Cmd/Cmd.cpp:3-4 | the command acts for the client on its descriptor |
| `CmdObject.Cmd.CmdPass` | src/Cmd/CmdPass.cpp:15-29 | PASS does what its function says: registry, effects and error |
| `CmdObject.Cmd.CheckNick` | src/Cmd/CmdNick.cpp:42-66 | the first failing check decides the error; without error the nickname is valid and free |
| `CmdObject.Cmd.CmdNick` | src/Cmd/CmdNick.cpp:70-112 | NICK on the objects: client, both server maps, every channel in a loop, broadcast, as its function says |
| `CmdObject.Cmd.RenameInChannels` | src/Cmd/CmdNick.cpp:94-108 | the loop over all channels renames in each exactly once |
| `CmdObject.Cmd.CheckUsername` | src/Cmd/CmdUser.cpp:38-58 | accepts exactly the valid user names |
| `CmdObject.Cmd.CheckRealname` | src/Cmd/CmdUser.cpp:60-79 | accepts exactly the valid real names |
| `CmdObject.Cmd.TakeUserData` | src/Cmd/CmdUser.cpp:104-143 | the user name is stored even if the real name is refused afterwards |
| `CmdObject.Cmd.CmdUser` | src/Cmd/CmdUser.cpp:81-150 | USER on the objects as its function says, welcome messages included |
| `CmdObject.Cmd.JoinSplit` | src/Cmd/CmdJoin.cpp:26-46 | the loop yields Fields, of which Tokenizing.FieldsAreWords and FieldsUndoJoin say what they are |
| `CmdObject.Cmd.IsValidChannelName` | src/Cmd/CmdJoin.cpp:53-65 | accepts exactly the valid channel names |
| `CmdObject.Cmd.CheckJoin` | src/Cmd/CmdJoin.cpp:113-129 | invitation, key and room, in this order |
| `CmdObject.Cmd.CreateChannel` | src/Cmd/CmdJoin.cpp:102-108 | a new channel with its founder as operator, not yet participant |
| `CmdObject.Cmd.EnterChannel` | src/Cmd/CmdJoin.cpp:131-148 | participant added, channel and newcomer told, invitation used up under +i |
| `CmdObject.Cmd.CmdJoin` | src/Cmd/CmdJoin.cpp:67-150 | JOIN with several channels and keys as its function says; stops at the first refusal |
| `CmdObject.Cmd.Split` | src/Cmd/CmdKick.cpp:27-50 | the loop yields SplitFrom: fields up to the delimiter, a field starting with a colon swallows the rest (Tokenizing.SplitReadsField, ColonSwallows, SplitUndoesJoin) |
| `CmdObject.Cmd.LeaveChannel` | src/Cmd/CmdPart.cpp:56-64 | out of participants and operators; an emptied channel is deleted |
| `CmdObject.Cmd.CmdPart` | src/Cmd/CmdPart.cpp:19-66 | PART with several channels as its function says |
| `CmdObject.Cmd.CmdKick` | src/Cmd/CmdKick.cpp:53-109 | KICK as its function says: every check, the announcement, then the removal |
| `CmdObject.Cmd.CmdInvite` | src/Cmd/CmdInvite.cpp:22-72 | INVITE as its function says |
| `CmdObject.Cmd.TopicSplit` | src/Cmd/cmdTopic.cpp:24-45 | the loop yields TopicFields: fields between single spaces, " :" starts the last one (Tokenizing.TopicFieldsRejoin) |
| `CmdObject.Cmd.CmdTopic` | src/Cmd/cmdTopic.cpp:47-93 | TOPIC as its function says: question, refusal or change with announcement |
| `CmdObject.Cmd.ValidationNickName` | src/Cmd/CmdMode.cpp:14-28 | participant for +o, operator for -o |
| `CmdObject.Cmd.ValidationKey` | src/Cmd/CmdMode.cpp:31-54 | no second key, not empty, shorter than 10; for -k the current key |
| `CmdObject.Cmd.ValidationInt` | src/Cmd/CmdMode.cpp:57-69 | digits only, no leading zero |
| `CmdObject.Cmd.ScanPlus` | src/Cmd/CmdMode.cpp:116-134 | unknown letters are refused; otherwise the letters with parameters in order, and the flags |
| `CmdObject.Cmd.ScanMinus` | src/Cmd/CmdMode.cpp:183-209 | the same for "-", where l and k are flags too |
| `CmdObject.Cmd.AddChannelOperator` | src/Cmd/CmdMode.cpp:71-79 | installs the index entry as operator; the nickname must be indexed |
| `CmdObject.Cmd.SetChannelUserLimit` | src/Cmd/CmdMode.cpp:101-105 | sets l together with the limit, so l is never set without one |
| `CmdObject.Cmd.PrintWelcome` | src/Cmd/Cmd.cpp:82-101 | the welcome replies, in order, to the new client |
| `CmdObject.Cmd.HandlePlusFlagOption` | src/Cmd/CmdMode.cpp:113-178 | validates everything, then executes: the batch function, or the channel untouched and the error |
| `CmdObject.Cmd.HandleMinusFlagOption` | src/Cmd/CmdMode.cpp:180-249 | the same for "-" |
| `CmdObject.Cmd.CmdMode` | src/Cmd/CmdMode.cpp:251-305 | MODE as its function says: checks, batch, announcement |
| `CmdObject.Cmd.CmdPrivmsg` | src/Cmd/CmdPrivmsg.cpp:87-171 | PRIVMSG as its function says: refusals in order, then one cast or broadcast per receiver |
| `CmdObject.Cmd.CmdPing` | src/Cmd/CmdPing.cpp:3-13 | PING answers registered clients |
| `CmdObject.Cmd.CmdQuit` | src/Cmd/CmdQuit.cpp:3-8 | QUIT only marks |
| `CmdObject.Cmd.ExtractCmd` | src/Cmd/Cmd.cpp:11-18 | the leading run without white space |
| `CmdObject.Cmd.ExtractCmdParams` | src/Cmd/Cmd.cpp:20-32 | what follows the command and one white-space character |
| `CmdObject.Cmd.AnswerError` | src/Cmd/Cmd.cpp:70-78 | the client gets the error text; it is marked, and false returned, exactly when it is not registered |
| `CmdObject.Cmd.HandleClientCmd` | src/Cmd/Cmd.cpp:34-80 | one message from its text to the error policy, as the state machine handles it; false exactly when the client is to go |
| `ServerRun.ProcessClientRead` | src/Server.cpp:513-548 | appends what was received and drains the buffer, stopping when the client gets marked |
| `ServerRun.DrainMessages` | src/Server.cpp:529-545 | the drain loop terminates and does what the state machine does message by message |
| `ServerRun.TakeSlot` | src/Server.cpp:177-216 | one slot's turn, the slot looked at again before writing and before the hang-up check |
| `ServerRun.ScanSlots` | src/Server.cpp:177-217 | the scan, ended early only by a failed accept |
| `ServerRun.RunTurn` | src/Server.cpp:163-229 | one turn of run() over the objects makes of the state what the function Turn says, and the state stays valid |

## Left out

- CmdObject.Cmd.CmdMode: MODE without any token reads past the end of a vector (src/Cmd/CmdMode.cpp:262) and is given no effect here.
- CmdObject.Cmd.CmdPrivmsg: src/Cmd/CmdPrivmsg.cpp:145 compares an iterator of a copied map with the end of the original; it is read as the existence test it stands for.
- CmdObject.Cmd.CmdInvite: the duplicate check (src/Cmd/CmdInvite.cpp:64) takes iterators from two temporaries; the invitation list is a set, which no reply can tell apart because removing an invitation drops all its copies.
- CmdObject.Cmd.SetChannelUserLimit: the limit is an unbounded natural number; `atoi` on a value that does not fit an int is not modelled.
- CmdObject.Cmd.CmdKick: the comment of a KICK is not modelled; the code shadows the variable and always sends an empty one.
- CmdObject.Cmd.CmdUser: a failed USER is one error text (`ERR USER`), and the server name it stores is not part of the model.
- CmdObject.Cmd.CmdPing: the time of the last PING, which the timeout check reads, is not part of the state.
- CmdObject.Cmd.PrintWelcome: the lines of the message of the day and their file.
- IrcServerObject.IrcServer.MarkClients: which clients timed out is an input; the clock is not modelled.
- IrcServerObject.IrcServer.AcceptClient: the failures of `accept` and `fcntl` are one input of the loop (`EventLoop.Incoming`), and closing the descriptor has no effect in the model.
- Reply texts: a numeric reply is its code and the nickname, the others are prefix and command; nothing in the server reads them back except the NAMES line, which is modelled in full.
- Identities of clients and channels are never reused, that is, no new object gets the address of a deleted one while something still points at it.
- `handleSocketRead` and `handleSocketWrite` (src/Server.cpp:231-282): nothing calls them.
- Argument and port parsing, signals, `main`, logging, the start-up picture, the destructor, and whether `run` goes on after an exception (`canRecover`).
