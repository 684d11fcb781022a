# The SFTP transport's claim, far end, client and harvest, modelled and proved

This project models an SFTP version 3 transport (draft-ietf-secsh-filexfer-02) and proves what it is for:
several nodes poll one directory, and each file is taken once, by one node, unharmed.

- `Wire.dfy`, `Packets.dfy`: big-endian integers, length-prefixed strings, UTF-8, handle numbers, the order of
  names; requests, replies, frames, and the attributes of section 5, with their round trips.
- `Directory.dfy`: the far end. `Serve` says what one request does to the directory and to its channel; the classes
  `Directory` and `Channel` do it in place, and are proved to do exactly that.
- `Runs.dfy`: any number of channels, their requests interleaved one at a time in any order, the clock showing
  anything at each. What holds over all such runs: versions, exclusive turns, frozen files, sizes, handles, telling.
- `Claims.dfy`: nodes and senders over that far end. Every file made carries a tag only the model sees, so "none
  lost, none held twice" is a statement about where each tag lies at each moment of every run. A node learns that a
  turn is its own only from the answers to its READs, each a step of its own.
- `Torn.dfy`: turns read while they change hands: which claimants' names can be read where they were never written,
  and that exactly those names break the turns.
- `Client.dfy`, `Site.dfy`: the client's loops and the claim's operations, byte for byte through the frames, with
  whatever other channels do in between given by a schedule: a list, one entry for each of the client's requests,
  of the others' requests that reach the far end before it. Each request is answered by the class `Directory`.
- `Nodes.dfy`: the verdict on a claimed file, and that what the claim's operations ask a node may ask.
- `Line.dfy`: the connection's line under its mutex, every lock a step, any number of calls to harvest.
- `Harvest.dfy`: one harvest's thread, its request queue, the channels of one that bodies go through, and the
  consumers' threads.
- `Delivery.dfy`: what those get of a file, in its bytes.

What the proofs turned up, each stated as a lemma:

- A refused call to harvest locks the line twice. A harvest that gives its client back between the two has it written
  over, and the line then says "lent" for good (`Lending.WindowLoses`, `Lending.LostForGood`). The client is
  conserved in exactly the runs where every thread starts and no put-back finds the line holding something
  (`Lending.ClientConserved`).
- The comment on `touch` says a write is always after the one before it. It is, exactly until the newest time is the
  last 32 bits can tell; from then on one time stands for two contents (`Runs.TouchFresh`,
  `Runs.SaturationCollides`).
- A handle holds a name. A write that comes after the file was claimed makes a new file of zeros and its data under
  the dropped name, and leaves the claimed one alone (`Runs.LateWrite`).
- A turn is read with an OPEN and several READs through a handle that holds a name. Where it passes from one node to
  another between two of them, the text read is the first name followed by what the second has beyond it: "node-1" and
  then "node-20" read as "node-10", and node-10 then takes a turn it never took for its own. Whether that can happen is
  told by the names of the nodes there are: a turn is one node's at a time in every run exactly where no node's name
  can be pieced together from others' (`Torn.ExclusiveExactly`, `Torn.TornRead`, `Torn.NodesTorn`). Distinct names of
  one length, at most a READ's worth, are safe (`Torn.EqualLengthsUntorn`), so "node-01", "node-10" and "node-20" are
  (`Torn.NodesUntorn`). Files and claims are safe whatever the names (`Claims.EachFileInOnePlace`,
  `Claims.HeldOnce`).
- The name a node writes into its turn goes through a handle too. Where the turn was given up and taken by another
  before that write arrives, it is written over the other's name (`Runs.LateName`). In the code only a dead process's
  last write can come so late.
- A consumer that tells a verdict before it drained or dropped a body it started can wait for a harvest that waits for
  it: whenever some claimed file is longer than one chunk, and never else (`Harvest.JamExactly`,
  `Harvest.TellingBeforeDraining`). A run stops short of the harvest's end exactly where the harvest is sending to a
  full body whose reader waits for the harvest to do something else (`Harvest.StuckExactly`), and that is for good
  (`Harvest.JammedForGood`). With bodies drained or dropped first nobody ever waits so (`Harvest.NeverStuck`).

What the runs of nodes and senders assume of them, each of its own doings: a node renames only between dropped names
and claimed names of its own; removes a claimed file only while it holds it, and a turn only while it holds it and is
not in the middle of reading it, as one site, which does one thing at a time, does; writes only its own name, and only
into a turn it took and did not give up since; a sender opens dropped names, and renames and removes nothing.

The far end's ceiling on a file's size is a constant of another library; it is a field here, any value below the
widest 64-bit address. `ceiling::within` is that the size is at most it. `Outgoing::pieces` is any list of pieces of
at most 32768 bytes. `transport::together` is that each arrival is settled once and the last to be settled closes.
The clock is an arbitrary 32-bit number at each request.

## Model

| member | source | states |
|---|---|---|
| Packets.TakeFrameBack | src/subsystem.rs:258-277 | a frame is taken off a stream whole, type and body, and what is behind it is left, for every body a 32-bit length can tell |
| Packets.UnderstoodBack | src/directory.rs:118-184 | what the client writes for any request the far end reads as that request, exactly where its names and handles are UTF-8 |
| Packets.UnderstoodOnly | src/directory.rs:118-184 | and nothing else is understood: a packet taken for a request is of its type, begins with its fields, and its names and handles are UTF-8 |
| Packets.StampBack | src/subsystem.rs:302-329 | attributes with any of size, owner, permissions, times, extended pairs and undefined flag bits are read past exactly, and give a stamp exactly where size and times are both there |
| Packets.StampOnly | src/subsystem.rs:302-329 | and nothing else is read as attributes: whatever is, is the encoding of some, and the stamp is theirs |
| Packets.EntriesBack | src/subsystem.rs:287-298 | every listing with any such attributes reads back as its names in order with those stamps, taking exactly its bytes |
| Packets.EntriesOnly | src/subsystem.rs:287-298 | and nothing else is read as a listing: whatever is, is the encoding of entries with those names and stamps |
| Packets.ParseEntries | src/subsystem.rs:287-298 | the loop over the cursor gives the listing, and an error exactly where some entry does not parse |
| Packets.NamesBack | src/directory.rs:330-344 | the far end's listing reads back as its names in order, each with its length and time |
| Packets.ReplyBack | src/directory.rs:317-353 | every reply fits its frame and carries the id, handle, data, code or stamp it was given |
| Packets.StatusBack | src/directory.rs:346-353 | a status with any text is read as its id and code, the text whole behind them |
| Packets.OpenBytes | src/subsystem.rs:87-142 | an OPEN goes on the wire as these bytes: length, type, id highest byte first, name, flags, no attributes |
| Packets.WriteBytes | src/subsystem.rs:111-126 | so does a WRITE: handle, 64-bit offset, data |
| Packets.ReadBytes | src/subsystem.rs:142-160 | a READ: handle, offset, 32768 |
| Packets.RenameBytes | src/site.rs:44-52 | a RENAME: the old name, then the new |
| Packets.NameBytes | src/subsystem.rs:167-200 | and OPENDIR of `.`, READDIR, CLOSE, REMOVE and STAT, which differ by their type alone |
| Packets.StatusBytes | src/directory.rs:346-353 | a STATUS goes as id, code, text and an empty language, its codes those of section 7 |
| Packets.ReplyBytes | src/directory.rs:317-328 | VERSION, HANDLE and DATA go as these bytes |
| Packets.ListingBytes | src/directory.rs:330-344 | a listing goes as its count, then name, long name and stamp of each; ATTRS as a stamp |
| Packets.StampLaid | src/directory.rs:165-178 | a stamp goes as flags 9, the length, and the time twice |
| Packets.AttributesBytes | src/subsystem.rs:302-329 | attributes go as flags, size, owner, permissions, the two times and the extended pairs, and the stamp is the size and the second time |
| Wire.SortedUnique | src/directory.rs:334-342 | there is one way to walk the names in byte order, so the listing's order is determined by the files |
| Wire.BeforeMeans | src/directory.rs:334-342 | the names' order goes by the first byte in which two differ, and a name goes before any it begins |
| Wire.Utf8Exactly | src/directory.rs:118-134 | the bytes taken as a name or a handle are exactly those some sequence of Unicode scalar values is written as |
| Directories.ReplyDue | src/directory.rs:118-184 | in every state the reply to a request bears its id and is of a kind the client's code for it accepts |
| Directories.Directory.Touch | src/directory.rs:71-79 | the newest time becomes the later of now and one past it, saturating, and is the file's |
| Directories.Directory.Open | src/directory.rs:206-233 | an open for writing makes or touches exactly its file: empty where new or TRUNC, its bytes kept else, refused with nothing changed where EXCL finds it; an open for reading changes nothing and needs the file; the handle number is spent either way |
| Directories.Directory.Write | src/directory.rs:236-264 | for every 64-bit offset and any data, grow-and-copy never slices out of range; accepted exactly through a handle to write and within the ceiling, and then the data is in place, the bytes outside as they were, zeros in the gap, every other file as it was; else nothing changed |
| Directories.OverlayMeans | src/directory.rs:252-261 | what writing over a file leaves: the data, the bytes on both sides, zeros between a shorter file's end and the data |
| Directories.Directory.Read | src/directory.rs:267-293 | the file from the offset on, at most what was wanted and all of that or to its end; the end exactly from the file's length on; FAILURE, never the end, for a handle not open for reading |
| Directories.Directory.NameReply | src/directory.rs:330-344 | the loop lists exactly the files there are, written since or not, each once, in order, with its length and its own time, 0 where never written |
| Directories.NamesOfLists | src/directory.rs:330-344 | a listing has every file there is and no other, once, in order, with the length of its bytes and the time it was last written, 0 where never |
| Directories.Directory.ReadDir | src/directory.rs:296-315 | a directory handle lists all there is once and then says its end; FAILURE for any other handle |
| Directories.Directory.Rename | src/directory.rs:188-203 | FAILURE onto a name that exists, NO_SUCH_FILE where the old one does not; else bytes and time are under the new name and every other file is as it was |
| Directories.Directory.Close | src/directory.rs:144-153 | the handle given up, the owner told exactly where it was open for writing |
| Directories.Directory.Remove | src/directory.rs:154-163 | file and time gone; OK exactly where the file was there |
| Directories.Directory.Stat | src/directory.rs:165-178 | the length of the file's bytes and the time it was last written, 0 where never; NO_SUCH_FILE exactly where it is not there |
| Directories.Directory.Answer | src/directory.rs:118-184 | a packet not understood changes nothing; any other has the effect and the framed reply `Serve` says |
| Runs.Presence | src/directory.rs:154-264 | a name disappears exactly by a successful REMOVE or RENAME away, and appears exactly by an open, a write or a RENAME onto it that makes it |
| Runs.ExclusiveTurns | src/directory.rs:217-226 | in every interleaving, between two successful EXCL opens of a name there is a successful REMOVE of it or RENAME away |
| Runs.ClaimedOnce | src/directory.rs:188-203 | between two successful RENAMEs away from a name it was made anew |
| Runs.PeaceRun | src/directory.rs:111-264 | whatever other channels do, a file they do not open for writing, rename or remove keeps its bytes and time |
| Runs.ClaimedFrozen | src/directory.rs:195-201 | a file renamed to a name nobody holds a handle to write keeps bytes and time in every continuation that leaves that name alone, whatever is written through older handles |
| Runs.LateWrite | src/directory.rs:245-262 | a write through a handle of the dropped name, after the claim, makes a new file of zeros and its data and leaves the claimed one |
| Runs.LateName | src/directory.rs:245-262 | a claimant's name written late, through the handle of a turn given up and taken by another since, goes over the other's name |
| Runs.WithinRun | src/directory.rs:252-261 | no run makes a file longer than the far end holds of one |
| Runs.TidyRun | src/directory.rs:52-85 | in every run only files have times, each positive and at most the newest |
| Runs.HistoryRecords | src/directory.rs:71-85 | while the clock is not saturated no two files share a time, and every time shown is one the history of touches knows with those bytes |
| Runs.SameTimeSameBytes | src/directory.rs:71-85 | the time is a version number: two files seen at any moments, under any names, with one non-zero time hold the same bytes, in every run where no touch starts from the last time, whatever the clock shows |
| Runs.SameStampSameBytes | src/directory.rs:165-178 | so it is to a client: two files whose stamps STAT or a listing answered at any two moments with one non-zero time held the same bytes |
| Runs.TouchFresh | src/directory.rs:68-79 | a touch is newer than all before it exactly while the newest time is below the last there is |
| Runs.SaturationCollides | src/directory.rs:77-78 | at the last time two contents of one file share it |
| Runs.RenameReplacesNothing | src/directory.rs:192-203 | a rename leaves every other file as it was, and everything where the new name is taken |
| Runs.RenameConserves | src/directory.rs:188-203 | a rename keeps the multiset of bytes and times, and the time even of a file never written |
| Runs.FreshHandle | src/directory.rs:138-140 | a new handle is never one still live |
| Runs.NumberedRun | src/directory.rs:215-228 | in every run every live handle is of its kind and numbered below the next |
| Runs.ToldByClose | src/directory.rs:144-153 | the owner is told exactly by the CLOSE of a handle open for writing, of the name it was opened under |
| Runs.ToldOnce | src/directory.rs:206-233 | over every run, successful opens for writing equal names told plus handles still open plus handles lost with their channel |
| Claims.EffectStep | src/directory.rs:118-264 | every request does one of four things to the files: nothing, one file made or written, one moved, one dropped |
| Claims.InvStep | src/site.rs:143-209 | what every request a sender or node may make keeps, whatever the nodes are called: tags, claims and handles agree with the directory |
| Claims.TurnStep | src/site.rs:121-179 | where no name is pieced together from others', what every such request keeps of turns: each holds its taker's name or nothing, who believes it holds one does, and what a node read so far of one it does not hold is others' names |
| Claims.EachFileInOnePlace | src/site.rs:143-209 | at every moment of every run each file ever made lies under exactly one name, a dropped file under a dropped name or one node's claimed name, or it has ended, and not both |
| Claims.HeldOnce | src/site.rs:181-199 | two nodes that hold one file are one node holding it under one name, and the file there has the bytes and time it had when claimed |
| Claims.TurnHeldOnce | src/site.rs:163-179 | one node holds a turn at a time, and it is there, in every run in which turns are learned of READ by READ, where no name is pieced together from others' |
| Claims.TurnKept | src/site.rs:163-179 | a turn is its taker's until a successful REMOVE of its own |
| Claims.EndedByItsHolder | src/connection.rs:8-11 | a dropped file ends only by the REMOVE of the node that holds its claim, still as it was claimed; a turn only by the node that took it, where no name is pieced together from others' |
| Claims.EndedForGood | src/connection.rs:8-11 | what ended stays ended as it did, and no file made is forgotten |
| Torn.ExclusiveExactly | src/site.rs:121-131 | for every finite set of two nodes or more, from every beginning: in every run a turn is one node's at a time if and only if no node's name can be pieced together from other nodes' READ by READ |
| Torn.TornRead | src/site.rs:121-131 | every name that can be is: a run of permitted requests in which its node reads it in a turn it never took, and two nodes hold the turn |
| Torn.TornInTwo | src/site.rs:121-131 | a name that begins as a shorter and goes on as a longer one is such a name |
| Torn.EqualLengthsUntorn | src/site.rs:121-131 | nodes' distinct names of one length, at most one READ's worth, are never such names |
| Torn.NodesTorn | src/site.rs:121-131 | of nodes called node-1, node-10 and node-20 two can hold one turn at once |
| Torn.NodesUntorn | src/site.rs:121-131 | of nodes called node-01, node-10 and node-20 no two ever do |
| Torn.UntornDistinct | src/site.rs:163-175 | nodes' names that are never pieced together are distinct and none is empty |
| Client.SessionAgrees | src/subsystem.rs:220-266 | at every moment of every run the client's request is understood as itself, and the framed reply is of a kind that was due and reads back under its id |
| Client.Sftp.Exchange | src/subsystem.rs:254-266 | a request framed, taken off the channel, answered by the directory's own code after what others did, and its reply taken back whole |
| Client.Sftp.Start | src/subsystem.rs:87-102 | INIT is answered with version 3 |
| Client.Sftp.ReadAt | src/subsystem.rs:142-160 | the chunk, nothing exactly at the end, an error exactly where refused |
| Client.Sftp.Put | src/subsystem.rs:111-126 | a put nobody disturbs leaves exactly the body, exactly where it fits the ceiling, and the owner is told of the name exactly once more, by its one last CLOSE; else exactly the pieces before the first refused, never a CLOSE, and nobody is told |
| Client.Sftp.ReadWhole | src/connection.rs:243-273 | the chunks read, none empty, make up the file, in ceil(length / 32768) + 1 READs, the handle given up; an error exactly where the file is not there |
| Client.Sftp.PutThenRead | src/subsystem.rs:111-160 | put then read is the identity for every body that fits and every split |
| Client.Sftp.List | src/subsystem.rs:167-188 | under any interleaving the listing shows a name exactly where the first READDIR found it in the directory and it is neither `.` nor `..`, once, in order, with its own length and time; after exactly two READDIRs, the handle table as it was |
| Client.RetainedJoins | src/subsystem.rs:186-187 | leaving out `.` and `..` keeps every other entry, once and in its order |
| Site.Stat | src/site.rs:66-81 | a stamp exactly where the file is there, with the length of its bytes and the time it was last written, 0 where never |
| Site.TakeTurn | src/site.rs:88-115 | under any interleaving: false, and nothing done, exactly where the name is taken as the open arrives; else the claimant's name is at the turn's start as its write is answered, an error exactly where it is too long; where nobody else can write the turn or touches it, it holds exactly the name |
| Site.ReadSmall | src/site.rs:121-131 | under any interleaving the loop ends at the first READ that finds no more, with what the READs before found, the handle given up and nothing changed |
| Site.Holder | src/site.rs:169-175 | under any interleaving the text the READs' answers come to, each of the turn as it then was, nobody where it was not there at the open or is no text; where nobody touches the turn, what it holds, in ceil(length / 32768) + 1 READs |
| Site.TakenThenHeld | src/site.rs:163-175 | a turn taken and left alone is its claimant's: whoever asks reads exactly the name that was written |
| Site.Restore | src/site.rs:185-199 | back exactly where claimed was there and dropped free as the rename arrived, with bytes and time; gone exactly where claimed was absent; kept exactly where both were there, saying whether dropped is still there at the last STAT and the status of the rename; in the last two only the others changed anything |
| Site.Delete | src/site.rs:201-208 | the name is gone whether it was there or not, and nothing else changed |
| Nodes.Told | src/connection.rs:8-11 | accepted, the claimed file is removed and nothing else; else, and without a verdict, it is returned as `Restore` says, and nothing is removed |
| Nodes.SendingMay | src/subsystem.rs:111-126 | what putting a file under a dropped name asks a sender may ask |
| Nodes.OperationsMay | src/site.rs:143-199 | what listing, reading, claiming and returning ask, a node may ask |
| Nodes.DeletingMay | src/site.rs:201-208 | a node may remove a file it claimed or a turn it took, from its rename or open on until it parts with it or is started anew, whatever others do, a turn not while it reads it |
| Nodes.RestartedReturns | src/connection.rs:8-11 | a node started anew removes none of the files claimed under its name before, until it claims one anew |
| Nodes.TakingMay | src/site.rs:88-115 | what taking a turn asks a node may ask, its write too, whatever others did since its open, as long as it did not give the turn up itself |
| Nodes.HolderWeaves | src/site.rs:121-131 | what a turn's reading comes to, each READ finding no name or one node's, is a piecing together of nodes' names |
| Lending.TokensStep | src/connection.rs:85-115 | what the line should hold is in one place fewer after a step exactly where the step writes over it or drops it |
| Lending.ClientConserved | src/connection.rs:108-115 | the client is in exactly one place, or gone with its mark in exactly one, in exactly the runs where every thread starts and no held line is written over |
| Lending.BrokenForGood | src/connection.rs:211-216 | once a harvest's connection broke, in every run, no line, call or thread has a client and no harvest starts, ever after |
| Lending.MarkedExactly | src/connection.rs:196-217 | in a run that loses nothing the mark that it broke is on the line or in a call's hand exactly where some harvest's connection broke |
| Lending.UnracedConserves | src/connection.rs:108-115 | so it is wherever nobody writes the line between a refused call's two locks and every thread starts |
| Lending.WindowLoses | src/connection.rs:108-113 | a harvest that ends in that window has its client written over |
| Lending.LostForGood | src/connection.rs:85-113 | and no call gets a client, or is told the line broke, ever after |
| Harvest.InvStep | src/connection.rs:179-335 | what every send, receive, request and lock of a harvest keeps, consumers disciplined or not: requests, askers, bodies and fates agree |
| Harvest.NeverStuck | src/connection.rs:222-335 | in every run whose consumers drain or drop a body they started before they ask anything else, until the harvest is over, some step is possible that keeps to that |
| Harvest.StuckExactly | src/connection.rs:222-335 | whatever the consumers do, a run that can go no further has not ended the harvest if and only if the harvest is sending to a full body whose reader waits for it to do something else |
| Harvest.JammedForGood | src/connection.rs:256-263 | once that is so the harvest stays there in every continuation |
| Harvest.RunsEnd | src/connection.rs:222-335 | no run, whatever the consumers do, has more steps than there was work at its start |
| Harvest.EndsInTheEnd | src/connection.rs:196-217 | a disciplined run that can go no further has ended the harvest, broken or with the client back, every arrival settled, every verdict and Finish served, and every body too where none was asked for after its arrival was settled |
| Harvest.EndedAs | src/connection.rs:196-217 | in every run: the line is broken exactly where the connection broke, and else the client is back once the harvest is over; the receive got files exactly where some were claimed, was told of none exactly where the harvest said so, and was refused exactly where it broke before any were |
| Harvest.EndedWhole | src/connection.rs:243-273 | a body that ended was whole exactly where the far end refused neither to open it nor to read on |
| Harvest.BreaksCanHappen | src/connection.rs:196-217 | a harvest can break while it claims, while it gives an empty harvest's client back, and as it closes the handle of a body that failed |
| Harvest.TellingBeforeDraining | src/connection.rs:256-263 | for every harvest with a file of two chunks or more, a run from its start, disciplined but for its last step, a verdict told before the body is drained, that comes to that; a lone consumer then leaves nothing possible |
| Harvest.JamExactly | src/connection.rs:256-263 | some run comes to that if and only if some claimed file is two chunks long or more |
| Harvest.ToldOnceBeforeFinish | src/connection.rs:136-148 | when a Finish is taken every claimed file was told of exactly once, its verdict or that it was let go |
| Harvest.SeenOnceBack | src/connection.rs:196-210 | an empty listing or an answered Finish is seen only with the client back on the line |
| Harvest.BodiesWhole | src/connection.rs:319-334 | what a body delivers is always the file's chunks from its front, in order, and all of them where its end was seen |
| Delivery.BodyIsFile | src/connection.rs:243-273 | where the chunks are those a file is read in, the bytes a body delivers are the file's from its front, and the whole file where its end was seen |

## Left out

- SSH key exchange, authentication, host keys and the channel's own protocol: a channel is a reliable, ordered stream of frames.
- Configuration, addresses, secrets, the loopback and fixtures: glue over libraries not part of this model.
- The loop of `serve`: a channel's packets are the events of a run, one by one, and a channel that ends is a hang-up.
- The inside of `transport::claim`: which names it lists, waits for and refuses; the model says which requests a sender and a node may make, and lets them come in any order.
- `turns`, the filter of a listing by name: only an easy member.
- Error texts and which errors may be tried again: an error is one value.
- Packets.ReplyBack: the far end's replies carry a STATUS with an empty text; that any other text reads the same is `Packets.StatusBack`.
- Directories.Directory.Answer: a reply whose length 32 bits cannot tell is excluded; the code then writes the largest length there is.
- Overflow of the 64-bit handle counter, and names or packets at or beyond what a 32-bit length tells: excluded by preconditions.
- A harvest whose request channel closes without a Finish: it takes consumers that forget their arrivals, which `together` rules out.
- What consumers see after a harvest broke: the model of a harvest ends where its thread does.
- A body handed from one thread to another: the thread that started it reads it or lets it go. A body asked for after its arrival's verdict may be refused or not; which is the far end's, not modelled in a harvest.
- Torn.ExclusiveExactly: every node's name fits the far end's ceiling; one that does not is never written.
- Claims.TurnStep: a write of a dead process's that comes after its node gave the turn up is excluded; what it does is `Runs.LateName`. Two channels of one node of which one removes a turn while the other reads it are excluded too.
- Client.Sftp.ReadWhole: reads a file others leave alone, as they do a claimed one; a consumer that lets the body go early is in `Harvest`, not here.
- Claims.EachFileInOnePlace: a TRUNC of a dropped file by its sender changes the bytes of the same file; it does not end one and make another.
- Lending.ClientConserved: a use of the client under the lock is one step that leaves the line as it was.
