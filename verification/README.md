# Formal model of the call-control and media core

This project models, in Dafny, the parts of the repository whose correctness depends on how
state evolves over many events, and proves properties of every run of them. Each component has a
value model (a datatype and one function per operation) and, where the program updates an object
in place, a class with the program's own fields whose methods are proved to do exactly what those
functions say: for the dialog and the registrar, that each event is the step of the state machine,
and that a dialog keeps its run invariant. The theorems are about the functions and hold for all
inputs, all runs, or all reachable states.

| file | component |
|---|---|
| `JitterBuffer`, `JitterReorder`, `JitterTicks`, `JitterTight`, `JitterSafety` | the two rings of 20 that reorder received RTP packets |
| `JitterLowStart`, `JitterLoss`, `JitterWrap`, `JitterWrapRun` | where they fail: low first numbers, lost packets, the wrap at 65536 |
| `OutgoingStream` | stamping of forwarded RTP packets |
| `FirFilter` | the 17-tap low-pass filter with a circular history |
| `SoundSoup` | the counter machine that plays nested loops of files |
| `WebDocument`, `WebDocumentObject` | the SIP/HTTP document: parser, builder, receiving in chunks |
| `WebDocumentHeaders`, `WebDocumentFirstLine`, `WebDocumentRoundTrip` | what is built is read back |
| `WebDocumentChunks`, `WebDocumentReceive` | a document cut in pieces, and when it is complete |
| `Directory`, `DirectoryTree`, `DirectoryRemoval`, `DirectoryRefinement` | the tree of domain labels and users |
| `SipDialog`, `SipDialogObject` | the dialog state machine and its object |
| `SipDialogSteps`, `SipDialogRuns`, `SipOutbound`, `SipInvites` | what its steps and runs keep |
| `SipReplies`, `SipFields`, `SipAccounts` | what it sends and how each field moves, and what that comes to over runs |
| `Registrar`, `RegistrarObject`, `RegistrarExpiry`, `RegistrarReplies` | registration, OPTIONS pings and expiry |
| `Common` | shared types |

Network reads, timer firings, control requests and replies from the control server are events that
come in any order. Cancelling a timer suppresses its handler. Random numbers (nonces, the first CSeq,
the SSRC) are parameters. Digest checking is a set of challenges that a packet answers; header and
method lookup by checksum is a function that takes each known name back to its number. For SIP that
is an assumption: its lookups take an `int` (`sip/projectsippacket.h:144`, `146`) where those of the
base class, which the parser calls, take an `unsigned int` (`projectlib/projectwebdocument.h:140-141`)
and so are not overridden.

## What the program does that its documentation does not say

* `removedomain` removes a top-level domain that still has subdomains but no users (or the reverse):
  the test at `sip/projectsipdirectory.cpp:345` is an "or" where line 330 has an "and". The
  documentation's own example, lines 294-303, comes out differently (`DocumentedExampleFails`).
* `removedomain` does not take a name that ends in a dot as lookups do: splitting drops the empty label
  after the dot, while the search for the first dot does not, so the last label is looked for below the
  empty label. `a.com.` is removed but leaves a deserted `com`, `com.` is found by lookups and not
  removed, and if there is a node for `com` below the empty label it may go as well
  (`TrailingDotFails`). `RemoveDeletesSubtrees` says what goes for every name, and
  `RemoveAsDocumentedIff` is the exact condition for what the documentation says.
* `adddomain` accepts any number of labels, while `lookupdomain` gives up at more than five
  (`AddedIsFoundIff`).
* If the first packet is the lowest and is overtaken by 10, bounded reordering is repaired if and only
  if the first RTP sequence number is 0 or above 20 (`RepairedIff`). If it is 1 to 20, the numbers are
  distinct and at least 1, and the bounds stay below 65536, no number up to 20 is released, in whatever
  order the packets come (`LowStartIsLost`). If it is above 20, no number below it is released before
  the lower bound wraps (`BelowFirstIsLost`).
* Between two ticks an in-order stream may bring ten packets (`BurstsAreTimely`) but not eleven
  (`ElevenAreTooMany`).
* One packet lost from an in-order stream costs 21: it and the 20 after it are not released
  (`OneLossDropsTwentyOne`). In any run an empty slot at the bottom stops everything until a number in
  that slot or more than 20 above the lower bound is accepted (`StuckUntil`, `StaysStuck`).
* 65536 is not a multiple of 20, so the lower bound's step past 65535 puts the bottom of the ring out
  of line. In every run it is in line exactly when the wraps since the last restart are a multiple of
  five (`AlignedIff`); one step brings it back exactly by a restart, which is an accepted number more
  than 20 above the lower bound, or by a wrap from slot 19 (`AlignedAgainIff`). Meanwhile nothing is
  released from a buffer that still holds the packet its pointer was set for
  (`OutOfLineReleasesNothing`), but a buffer overwritten by the expected number is
  (`OverwrittenBufferIsReleased`). An in-order stream through 65535 that starts at 0 or above 20 stops
  at 65525 for the rest of that lap (`StreamStopsAtTheWrap`).
* A bool as the loop entry of a single file throws, although it is handled two lines above and is
  accepted for the whole soup, and a start position on a file without a sound follows a null pointer
  (`ConfiguresIff`).
* A document's parser starts the reason phrase at the space before it and reads a negative status code
  as -1 (`BuilderAgreesWithParser`). Reading the builder's own object stores every header again as
  long as it has a slot free: the table stays as it is exactly when every header in it occurs at least
  three times (`ReadingTheBuilderStoresTwice`). A header added after a body is stored with a start that
  is too early by the length of its name (`HeaderAfterBodyStartsEarly`), and a second status line
  leaves the line feed of the first between it and the headers (`SecondStatusLineLeavesLineFeed`).
  A head is found at its end exactly when no header value makes a blank line (`BuiltHeadIsHead`).
* All ACKs carry the CSeq of their INVITE exactly when each is the first for it or follows a CANCEL
  that had the INVITE's own CSeq (`AcksMatchIff`). So a retransmitted final answer to the second
  INVITE is acknowledged with a wrong one (`SecondAckMatchesIff`), and a call hung up during setup is,
  unless the packet received last before the CANCEL had the CSeq before the INVITE's
  (`CancelledAckMatchesIff`, and `HangupMisnumbersTheAck` for the usual case).
* A dialog without a timer is never removed by silence (`SilenceEndsIff`): one whose challenge has been
  acknowledged stays if the client goes away (`AcknowledgedChallengeStays`), and so does one whose
  INVITE is never answered (`UnansweredInviteStays`).
* The registrar's test that a repeated REGISTER has the CSeq it was challenged with compares lengths
  only, because of what `!=` between two substrings does (`projectlib/projectsipstring.cpp:205`):
  `AcceptedIff` is the condition, `AnotherCSeqIsAccepted` an input.
* A REGISTER that asks to expire at once and carries no credentials unregisters a live entry, which is
  then erased (`UnregisteredIff`, `UnregisteredWithoutCredentials`).
* Each forwarded RTP packet that cannot be sent leaves the outgoing clock 160 behind, though the sequence
  counts it (`CountersAfter`).
* A REGISTER accepted for a domain that the directory does not know may be sent again and is accepted
  again, because its challenge is left waiting (`AcceptedAgainIff`).
* The domain lookup for a realm from a packet cuts the name at a colon, adddomain does not
  (`AddedIsFoundByRealmIff`).
* An entry that a client has unregistered keeps its timer, and when that runs out it erases whatever
  entry the user has by then (`AbandonedEntryErasesItsSuccessor`).

## Model

| member | source | states |
|---|---|---|
| JitterBuffer.Channel.constructor | rtp/projectrtpchannel.cpp:27-60 | a fresh channel has all 20 pointers null and every counter at zero |
| JitterBuffer.Channel.Open | rtp/projectrtpchannel.cpp:85-136 | opening again resets the counters and only the first 10 pointers |
| JitterBuffer.Channel.ReadSomeRtp | rtp/projectrtpchannel.cpp:242-303 | one datagram: a stranger overwrites the next buffer and stops the reading, the first sender's packet is ordered and the next buffer taken |
| JitterBuffer.Channel.OrderPacket | rtp/projectrtpchannel.cpp:281-296 | the pointer, the upper bound, and the restart when a number is more than 20 above the lower bound |
| JitterBuffer.Channel.HandleRtpData | rtp/projectrtpchannel.cpp:311-338 | one call releases or discards the bottom packet exactly when it is at least 10 behind, and says whether there may be more |
| JitterBuffer.Channel.HandleTick | rtp/projectrtpchannel.cpp:184-230 | the loop over it empties what is old enough and terminates |
| JitterReorder.RoomInRing | rtp/projectrtpchannel.cpp:242-303 | with windowed reordering at most 18 packets arrive between a packet and its release, so no buffer of the ring of 20 is overwritten early |
| JitterReorder.BoundedReorderingIsRepaired | rtp/projectrtpchannel.cpp:277-337 | drained after every packet, any arrival order of distinct numbers whose first is the lowest and is 0 or above 20, and in which packet m comes after all numbers up to m-10, is fully repaired: exactly the packets overtaken by 10 have been released, once each, in order, unaltered, with no skip |
| JitterReorder.WindowPrefix | rtp/projectrtpchannel.cpp:277-337 | every prefix of such an order is one, so each packet goes at the first drain after it has been overtaken by 10, and not before |
| JitterTicks.TimelyReorderingIsRepaired | rtp/projectrtpchannel.cpp:184-337 | drained only at the ticks, whenever they come: if the first number is 0 or above 20, each packet is new, at or above what is due and within 20 of it, and takes no buffer still in use, and nothing overtaken by 10 is missing at a tick, then exactly what had been overtaken by 10 at the last tick has been released, once each, in order, unaltered, with no skip |
| JitterTicks.BurstsAreTimely | rtp/projectrtpchannel.cpp:184-337 | an in-order stream from 0 or above 20 may come in bursts of up to ten packets between ticks |
| JitterTicks.ElevenAreTooMany | rtp/projectrtpchannel.cpp:184-337 | the eleventh takes the slot of the packet that is due, and the next tick releases nothing |
| JitterLowStart.RepairedIff | rtp/projectrtpchannel.cpp:277-337 | for a windowed order whose first packet is overtaken by 10: every packet overtaken by 10 is released if and only if the first number is 0 or above 20 |
| JitterLowStart.LowStartIsLost | rtp/projectrtpchannel.cpp:290-295 | distinct numbers from 1 up, in any order, some lost, the first of them 1 to 20: no number up to 20 is released, as long as the largest number and the count of packets together stay below 65536 |
| JitterLoss.StuckUntil | rtp/projectrtpchannel.cpp:283-315 | with an empty slot at the bottom, one event releases nothing; and it leaves that slot empty and the bottom and lower bound as they are, exactly unless it is an accepted number of that slot or more than 20 above the lower bound |
| JitterLoss.StaysStuck | rtp/projectrtpchannel.cpp:283-315 | over any stretch of a run without such a number nothing is released and the bounds stay |
| JitterLoss.OneLossDropsTwentyOne | rtp/projectrtpchannel.cpp:277-337 | drained after every packet, an in-order stream from 0 or above 20 that lacks number q and goes on to q+9 or more releases exactly what precedes q and, from q+21 on, what is overtaken by 10, the first of that with a skip count of 21 |
| JitterTight.OnePlaceMoreLosesAPacket | rtp/projectrtpchannel.cpp:281-337 | with one more place of reordering a packet is overwritten before it can be released, so 10 and 20 are tight |
| JitterTight.ReopenedIsFreshIff | rtp/projectrtpchannel.cpp:121-128 | a reopened channel has the pointers of a fresh one exactly when slots 10 to 19 were already null |
| JitterTight.ReopenedGoesOnAsFresh | rtp/projectrtpchannel.cpp:85-136 | and then it does from then on, for any events, exactly what a fresh one does |
| JitterSafety.RingInvariant | rtp/projectrtpchannel.cpp:277-303 | in every run the buffers hold the last 19 accepted packets and each pointer was set by the last accepted packet of its slot |
| JitterSafety.PointersAreTrue | rtp/projectrtpchannel.cpp:283-298 | a pointer written fewer than 20 arrivals ago leads to a packet of its own slot, the very one that set it |
| JitterSafety.BoundsInvariant | rtp/projectrtpchannel.cpp:283-298 | without a wrap the bottom is the lower bound modulo 20, and the upper bound is the largest number received and at most 20 above the lower |
| JitterSafety.AlignmentLostExactlyByWrap | rtp/projectrtpchannel.cpp:334-335 | one step puts bottom and lower bound out of line exactly when it takes the lower bound past 65535 |
| JitterWrap.AlignedIff | rtp/projectrtpchannel.cpp:291-335 | in every run the bottom is the lower bound plus 16 for each wrap since the last restart, modulo 20, and so in line exactly after a multiple of five wraps |
| JitterWrap.AlignedAgainIff | rtp/projectrtpchannel.cpp:291-335 | one step brings bottom and lower bound back in line exactly by a restart or by a wrap from slot 19 |
| JitterWrap.OutOfLineReleasesNothing | rtp/projectrtpchannel.cpp:311-338 | in any run, from out of line until the next restart or wrap nothing is released and the bounds stay out of line, if no call works on a pointer 20 accepted packets old |
| JitterWrapRun.OverwrittenBufferIsReleased | rtp/projectrtpchannel.cpp:311-338 | that condition is needed: a run that releases number 0 from an overwritten buffer while out of line |
| JitterWrapRun.StreamStopsAtTheWrap | rtp/projectrtpchannel.cpp:277-337 | an in-order stream from 0 or above 20 through 65535, drained after every packet, releases what is overtaken by 10 up to 65525 and then nothing for the rest of that lap |
| JitterSafety.ShortRunsNeverWrap | rtp/projectrtpchannel.cpp:311-338 | numbers and run length that together stay below 65536 rule the wrap out |
| JitterSafety.ReleasesMoveForward | rtp/projectrtpchannel.cpp:311-338 | in every run, wraps, losses, duplicates and strangers included, each release is at a later position than the one before, and has that position's number |
| JitterSafety.ReleasesIncrease | rtp/projectrtpchannel.cpp:311-338 | without a wrap the numbers handed to processrtpdata strictly increase |
| JitterSafety.OneSenderAccepted | rtp/projectrtpchannel.cpp:262-275 | with one sender every datagram is accepted and reading never stops |
| JitterSafety.StrangerEndsReading | rtp/projectrtpchannel.cpp:262-275 | in any run, one datagram from an endpoint other than the first ends the reading for good: it is left in the buffer that was next to be filled, the others keep their packets, and whatever comes later none is accepted |
| JitterSafety.ReleasedLate | rtp/projectrtpchannel.cpp:311-338 | with one sender and no wrap of the lower bound, every packet released was really received, and a number at least 10 above it had been too, whatever stale or aliased pointers there are |
| JitterSafety.BelowFirstIsLost | rtp/projectrtpchannel.cpp:290-335 | in every run without a wrap whose first accepted number is above 20, no number below it is released |
| JitterSafety.UndiscardedRunsChain | rtp/projectrtpchannel.cpp:324-332 | while nothing is discarded, each skip count is the distance from the previous release less one |
| JitterSafety.SkipMeasuredFromDiscarded | rtp/projectrtpchannel.cpp:324-332 | when one call discards a packet and the next releases one, the skip counts stay true gaps exactly when the discarded number is that of the previous release |
| OutgoingStream.Sender.GetTempOutBuf | rtp/projectrtpchannel.cpp:376-397 | takes the next of 20 buffers, stamps it and moves both counters on, with 16-bit and 32-bit wrap-around |
| OutgoingStream.Sender.WritePacket | rtp/projectrtpchannel.cpp:434-451 | an empty packet or an unconfirmed target sends nothing; otherwise the clock is set to the packet's next timestamp |
| OutgoingStream.Sender.ProcessRtpData | rtp/projectrtpchannel.cpp:346-368 | forwarding one released packet between two mixed channels |
| OutgoingStream.EachIsSent | rtp/projectrtpchannel.cpp:346-451 | with a confirmed target and non-empty packets every release goes out once, in order |
| OutgoingStream.CountersAfter | rtp/projectrtpchannel.cpp:346-451 | over any releases, sent or not, the sequence moves on by one for each and by what was skipped, and the clock by 160 for each skipped and each sent, so that it falls behind by 160 for each that is not sent |
| OutgoingStream.RingKeepsLast20 | rtp/projectrtpchannel.cpp:376-397 | the last 20 packets made are all still in the ring, sent or not |
| OutgoingStream.UnfilledIsSent | rtp/projectrtpchannel.cpp:376-451 | a buffer that has not been filled goes out with the length its codec gives it |
| OutgoingStream.OffsetsFixed | rtp/projectrtpchannel.cpp:376-397 | if each skip count is the gap to the release before, the outgoing sequence stays at a fixed offset from the positions of the releases, and so does the clock if these are less than 65536 apart |
| OutgoingStream.MixedChannelsStayLocked | rtp/projectrtpchannel.cpp:346-451 | over any run of the receiving channel, wraps included, every release goes out, and sequence differences out equal those of the positions released at, modulo 2^16, exactly when each skip count is the gap to the release before (as it is without discards); then, if successive releases are less than 65536 apart, timestamp differences are 160 times those modulo 2^32 (section 5.1 of RFC 3550) |
| OutgoingStream.UnwrappedIsClose | rtp/projectrtpchannel.cpp:311-338 | without a wrap the positions are the numbers, and never that far apart |
| FirFilter.LowPass.Reset | rtp/firfilter.cpp:18-22 | the filter remembers no input |
| FirFilter.LowPass.Execute | rtp/firfilter.cpp:71-95 | the running total is the direct convolution of the last 17 inputs, for every position of the round index |
| FirFilter.LowPass.Accumulate | rtp/firfilter.cpp:77-92 | the two loops together add every coefficient times the input it belongs to |
| FirFilter.Remember | rtp/firfilter.cpp:76-94 | overwriting the oldest slot moves the window on by one input |
| FirFilter.GainIsTheSum | rtp/firfilter.cpp:52-69 | the magnitudes of the coefficients add up to 1.403122 |
| FirFilter.SafeMagnitudeFits | rtp/firfilter.cpp:52-94 | inputs of magnitude at most 23353 never overflow 16 bits |
| FirFilter.OverflowFreeIff | rtp/firfilter.cpp:52-94 | and 23353 is exactly the largest such magnitude |
| SoundSoup.ConfiguresIff | rtp/projetcrtpsoundsoup.cpp:180-252 | a new player accepts a definition exactly when every file's loop, start and stop are missing or ints and no file without a sound has a start |
| SoundSoup.ConfiguredIsStartedIff | rtp/projetcrtpsoundsoup.cpp:180-275 | a configured player meets the schedule's conditions exactly when no count is negative and every repeated file has a sound |
| SoundSoup.ConfiguredPlaysDefinition | rtp/projetcrtpsoundsoup.cpp:180-275 | and then its schedule is each file once more than its loop entry says, the whole list once more than its own says, a true being the largest int |
| SoundSoup.Player.Advance | rtp/projetcrtpsoundsoup.cpp:277-306 | plusone on the counters, with its loop that rewinds the files |
| SoundSoup.Player.Read | rtp/projetcrtpsoundsoup.cpp:308-334 | a file without sound, complete or past its stop position is left behind; otherwise it is read |
| SoundSoup.PlusOneDropsHead | rtp/projetcrtpsoundsoup.cpp:277-306 | each advance takes the head off what is still to be played, and the last entry stays |
| SoundSoup.PlayerFollowsSchedule | rtp/projetcrtpsoundsoup.cpp:277-306 | after k advances the current file is entry k of the flattened nested loops, of which there are (L+1)*sum(l_i+1), and the player stands still from the last one on and not before |
| SoundSoup.ReadMovesOn | rtp/projetcrtpsoundsoup.cpp:308-334 | a tick reads silence and takes the head off what is to come exactly if the current file has finished or has no sound; otherwise it reads that file and changes nothing |
| SoundSoup.TicksPlaySchedule | rtp/projetcrtpsoundsoup.cpp:308-334 | over any ticks, the file read is entry n of the schedule, n being the earlier ticks at which the file then due had finished or had no sound |
| WebDocumentObject.GetHeaderValue | projectlib/projectwebdocument.cpp:619-672 | the two loops find the value after the separators, up to a line end that is not a fold |
| WebDocumentObject.Document.StoreHeader | projectlib/projectwebdocument.cpp:680-690 | the first free of a header's three slots |
| WebDocumentObject.Document.ParseRsLine | projectlib/projectwebdocument.cpp:699-762 | finds version, spaces and line end, and tells status from request line |
| WebDocumentObject.Document.ScanHeaders | projectlib/projectwebdocument.cpp:771-827 | the character loop over names and values does what the header-by-header function says |
| WebDocumentObject.Document.ParseAllHeaders | projectlib/projectwebdocument.cpp:771-841 | the table, the header count and the body range after parsing |
| WebDocumentObject.Document.SetStatus | projectlib/projectwebdocument.cpp:853-898 | status line, its ranges, and what it does to an older first line |
| WebDocumentObject.Document.SetRequest | projectlib/projectwebdocument.cpp:911-944 | the same for a request line |
| WebDocumentObject.Document.AddHeaderField | projectlib/projectwebdocument.cpp:997-1036 | both branches of addheader, before and after a body |
| WebDocumentObject.Document.SetBodyText | projectlib/projectwebdocument.cpp:1043-1054 | replaces the body and its range |
| WebDocumentObject.Document.AppendChunk | projectlib/projectwebdocument.cpp:460-469 | adds a chunk up to its first NUL and lengthens a parsed body by all of it |
| WebDocumentObject.Document.IsComplete | projectlib/projectwebdocument.cpp:425-451 | the answer, and the parsing it does once the head is there |
| WebDocumentHeaders.ValueFoundIff | projectlib/projectwebdocument.cpp:619-672 | the parser finds a value where the builder put it exactly when it does not start with a separator and each CR in it is a fold or hides one more of its characters |
| WebDocumentHeaders.LookedUpAlikeIff | projectlib/projectwebdocument.cpp:749-825 | two names are looked up alike exactly if they differ only in the case of ASCII letters |
| WebDocumentHeaders.ParserReadsAnyCase | projectlib/projectwebdocument.cpp:771-827 | on any list of well-formed fields, their names in any case, the header loop gives the reference table, and ends at the blank line |
| WebDocumentHeaders.ParserFollowsLayout | projectlib/projectwebdocument.cpp:771-827 | in particular with the names as the builder writes them |
| WebDocumentHeaders.UnknownHeaderSkipped | projectlib/projectwebdocument.cpp:771-827 | a header whose name is not known is passed over and the loop goes on |
| WebDocumentHeaders.UnfinishedNameIgnored | projectlib/projectwebdocument.cpp:771-827 | a name that no colon or space follows is no header |
| WebDocumentHeaders.BuilderFollowsLayout | projectlib/projectwebdocument.cpp:997-1016 | any list of addheader calls gives the same reference table |
| WebDocumentFirstLine.CodeReadBack | projectlib/projectwebdocument.cpp:853-878 | a padded status code reads back as itself, and a negative one does not read back at all |
| WebDocumentFirstLine.CastsReadBack | projectlib/projectwebdocument.cpp:425-451 | a written number is converted back exactly within the range of an int, or of a size_t, where a negative one becomes its value modulo 2^64 |
| WebDocumentFirstLine.PlusReadsBack | projectlib/projectwebdocument.cpp:425-451 | a plus sign before a number makes no difference |
| WebDocumentFirstLine.NotReadBack | projectlib/projectwebdocument.cpp:425-451 | anything but digits after the sign is not converted |
| WebDocumentFirstLine.StatusLineFound | projectlib/projectwebdocument.cpp:699-737 | where the parser finds the parts of a written status line |
| WebDocumentFirstLine.RequestLineFound | projectlib/projectwebdocument.cpp:699-761 | the same for a request line; the second space is the right one exactly when the URI has none |
| WebDocumentFirstLine.AnyTextRead | projectlib/projectwebdocument.cpp:699-841 | whatever the text, its body is at its end, and it has a status code only from a first line with the version first |
| WebDocumentRoundTrip.BuilderAgreesWithParser | projectlib/projectwebdocument.cpp:997-1054 | a fresh parse of what was built gives the builder's own table, duplicates included, the same body, method and body text; status code, code range and URI range agree exactly under stated conditions |
| WebDocumentRoundTrip.BuiltTableHolds | projectlib/projectwebdocument.cpp:680-690 | the three slots of a header hold its first three values in the order added, and later values are nowhere |
| WebDocumentRoundTrip.ReadingTheBuilderStoresTwice | projectlib/projectwebdocument.cpp:589-608 | reading a header from the builder's own object lays every header out again over the table it has, which leaves it as it is exactly when every header in it occurs at least three times |
| WebDocumentRoundTrip.HeaderAfterBodyStartsEarly | projectlib/projectwebdocument.cpp:1018-1034 | a header added after a body, whatever slots are taken, is in the string and leaves the body alone, but the range stored for it starts early by the length of its name; if it is the first header of all, it and the body are two more characters early |
| WebDocumentRoundTrip.LastBodyCounts | projectlib/projectwebdocument.cpp:1043-1054 | a body set again replaces the one before and is found where its range says |
| WebDocumentRoundTrip.SecondStatusLineLeavesLineFeed | projectlib/projectwebdocument.cpp:882-897 | setting the status line of a built head again leaves a line feed between it and the headers |
| WebDocumentChunks.HeadStable | projectlib/projectwebdocument.cpp:699-841 | what the parser makes of a head does not change when more text follows |
| WebDocumentReceive.HeadThereIff | projectlib/projectwebdocument.cpp:425-435 | the head counts as there exactly when the text has a blank line |
| WebDocumentChunks.ChunkingDoesNotMatter | projectlib/projectwebdocument.cpp:425-469 | however a text with a well-formed head is cut into chunks, the document after the last is the one a single chunk gives; before the head is whole nothing is read |
| WebDocumentReceive.BuiltHeadIsHead | projectlib/projectwebdocument.cpp:853-1016 | what the builder writes before the body is such a head exactly when no header value makes a blank line |
| WebDocumentReceive.CompleteExactlyWhenWhole | projectlib/projectwebdocument.cpp:425-469 | a built document with a true Content-Length, sent in any chunks, is complete exactly when all of it has arrived; without the header, when the head has |
| DirectoryTree.DirDomain.AddUser | sip/projectsipdirectory.cpp:55-70 | replaces or adds one user |
| DirectoryTree.DirDomain.RemoveUser | sip/projectsipdirectory.cpp:78-86 | removes one user if it is there |
| DirectoryTree.Tree.LookupDomain | sip/projectsipdirectory.cpp:231-252 | the walk down the tree finds the node of the domain's path, if it has at most five labels |
| DirectoryTree.Tree.LookupDomainOfRealm | sip/projectsipdirectory.cpp:196-223 | the same after cutting the name at its first colon |
| DirectoryTree.Tree.LookupPassword | sip/projectsipdirectory.cpp:124-143 | the user's secret at the node of the domain |
| DirectoryTree.Tree.LookupPasswordOfRealm | sip/projectsipdirectory.cpp:97-117 | the same for a realm |
| DirectoryTree.Tree.AddDomain | sip/projectsipdirectory.cpp:261-289 | adds the node and its missing ancestors and returns it |
| DirectoryTree.Tree.Put | sip/projectsipdirectory.cpp:456-485 | makes the domain, clears its users and refills them in order; the control host is not kept |
| DirectoryTree.Tree.AddUserTo | sip/projectsipdirectory.cpp:456-482 | makes the domain if need be and sets one user |
| DirectoryTree.Tree.DeleteUser | sip/projectsipdirectory.cpp:589-606 | removes a user of an existing domain |
| DirectoryTree.Tree.RemoveDomain | sip/projectsipdirectory.cpp:310-354 | the recursive removal on the heap tree does what the removal on the map of paths says |
| DirectoryRefinement.AddedIsFoundIff | sip/projectsipdirectory.cpp:231-289 | lookups find the node adddomain returned exactly when the domain has at most five labels |
| DirectoryRefinement.AddedIsFoundByRealmIff | sip/projectsipdirectory.cpp:196-289 | lookups by realm find it exactly when it has no colon either |
| DirectoryRefinement.HistoriesAreClosed | sip/projectsipdirectory.cpp:55-489 | after any history of additions, clears and removals every node has its ancestors |
| DirectoryRefinement.AddDomainKeepsLookups | sip/projectsipdirectory.cpp:261-289 | adding a domain changes no lookup except that its missing ancestors now exist |
| DirectoryRefinement.LastDuplicateWins | sip/projectsipdirectory.cpp:461-485 | refilling keeps the last secret given for each user |
| DirectoryRefinement.TreeHoldsFlatEntries | sip/projectsipdirectory.cpp:55-489 | after any history of additions, clears and removals each node holds what a map keyed by path and user would, a removal taking the entries at and below its tops |
| DirectoryRefinement.TreeRefinesFlatMap | sip/projectsipdirectory.cpp:97-489 | after any history a password lookup gives what the flat map holds |
| DirectoryRefinement.RemoveOnlyPrunes | sip/projectsipdirectory.cpp:310-354 | in any tree, whatever the name and forced or not, a removal adds no node and alters none that it leaves |
| DirectoryRemoval.RemoveDomainIsRemovePath | sip/projectsipdirectory.cpp:310-354 | the recursion on the name is one on its path, with a flag for a dot at the end |
| DirectoryRefinement.RemoveDeletesSubtrees | sip/projectsipdirectory.cpp:310-354 | after any history and for every name, a forced removal deletes exactly the subtrees at its tops, computed from the tree, and answers whether there are any |
| DirectoryRefinement.TopsAreAbove | sip/projectsipdirectory.cpp:310-354 | a name that does not end in a dot has at most one top, at or above the domain; one that does may have a second, at the empty label or the node for the last label below it |
| DirectoryRefinement.RemoveKeepsOtherLookups | sip/projectsipdirectory.cpp:310-354 | after any history and for every name, lookups outside those subtrees answer as before and none inside does |
| DirectoryRefinement.RemoveAsDocumentedIff | sip/projectsipdirectory.cpp:291-354 | after any history and for every name, removed is the named subtree and the maximal chain of deserted ancestors, or nothing for a domain that is not there, exactly under RemovesAsDocumented: a condition on the tree, on the number of labels and on a dot at the end of the name |
| DirectoryRefinement.DocumentedExampleFails | sip/projectsipdirectory.cpp:294-303 | the documentation's example, made with adddomain and removed with removedomain, leaves nothing where it is said to leave a domain |
| DirectoryRefinement.TrailingDotFails | sip/projectsipdirectory.cpp:310-334 | host.com. leaves the deserted com that host.com takes away; com. is found and not removed; and host.com. takes away the node for com below the empty label |
| SipDialogObject.Dialog.constructor | sip/projectsipdialog.cpp:23-53 | a new dialog |
| SipDialogObject.Dialog.FromInvite | sip/projectsipdialog.cpp:88-158 | the dialog an INVITE with an unknown Call-ID makes satisfies the run invariant |
| SipDialogObject.Dialog.FromPost | sip/projectsipdialog.cpp:1460-1538 | so does the dialog a POST makes |
| SipDialogObject.Dialog.InviteSipPacket | sip/projectsipdialog.cpp:140-158 | a packet for a dialog that exists is the state machine's step: it keeps the run invariant and takes no flag back; BYE and CANCEL come first, anything else goes through the next state |
| SipDialogObject.Dialog.CallNextState | sip/projectsipdialog.cpp:149-156 | the call through nextstate |
| SipDialogObject.Dialog.OnBye | sip/projectsipdialog.cpp:214-228 | hangs up, answers 200 and tells the control server |
| SipDialogObject.Dialog.OnInviteStart | sip/projectsipdialoginvite.cpp:21-65 | challenge with three retries, or straight on to authentication |
| SipDialogObject.Dialog.OnWaitForAckThenInviteAuth | sip/projectsipdialoginvite.cpp:72-81 | the ACK of the challenge |
| SipDialogObject.Dialog.OnInviteAuth | sip/projectsipdialoginvite.cpp:87-121 | refuses with 403 or accepts tag, CSeq and packet |
| SipDialogObject.Dialog.OnInvite | sip/projectsipdialoginvite.cpp:127-149 | keeps the INVITE as the one to reply to |
| SipDialogObject.Dialog.OnWaitForAck | sip/projectsipdialog.cpp:382-397 | an established dialog |
| SipDialogObject.Dialog.OnWaitForNextInstruction | sip/projectsipdialog.cpp:468-497 | INVITE and REFER in an established dialog |
| SipDialogObject.Dialog.OnRefer | sip/projectsipdialogrefer.cpp:18-45 | a REFER is challenged or authenticated |
| SipDialogObject.Dialog.OnWaitForInviteProgress | sip/projectsipdialog.cpp:1200-1244 | responses to the first INVITE |
| SipDialogObject.Dialog.OnWaitForInviteProgressAfterAuth | sip/projectsipdialog.cpp:1251-1287 | responses to the second |
| SipDialogObject.Dialog.SendInviteRequest | sip/projectsipdialog.cpp:1067-1157 | takes the next CSeq, sends, and chooses the state to wait in |
| SipDialogObject.Dialog.SendAckRequest | sip/projectsipdialog.cpp:1163-1193 | sends with the present CSeq and takes the next |
| SipDialogObject.Dialog.SendByeRequest | sip/projectsipdialog.cpp:810-866 | needs the other side's tag and an ACK |
| SipDialogObject.Dialog.TimerFired | sip/projectsipdialog.cpp:169-211 | the timer is the state machine's step: the armed handler runs once, and the run invariant is kept |
| SipDialogObject.Dialog.RunHandler | sip/projectsipdialog.cpp:872-970 | two timeouts and six resends, with the retry count |
| SipDialogObject.Dialog.TellControl | sip/projectsipdialog.cpp:1313-1410 | asks the control server, or ends a hung-up dialog of an unknown domain |
| SipDialogObject.Dialog.HttpPut | sip/projectsipdialog.cpp:1546-1669 | a control request is the step: ring, answer, ok, hangup, notify and invite, with the run invariant kept |
| SipDialogObject.Dialog.HttpCallback | sip/projectsipdialog.cpp:1413-1434 | the control server's reply is the step, with the run invariant kept |
| SipDialogSteps.StepMoves | sip/projectsipdialog.cpp:72-1438 | what any single event may change: flags only forward, retries only by reset or one down, at most one packet or an ACK and an INVITE sent, challenge and authenticated packet only together with what justifies them |
| SipDialogRuns.RetriesStayInRange | sip/projectsipdialog.cpp:292-312 | the retry count stays within 0 to 3 in every run |
| SipDialogRuns.FireCountsDown | sip/projectsipdialog.cpp:872-970 | each firing lowers the number of firings left by one, or ends the dialog |
| SipDialogRuns.SilenceTerminates | sip/projectsipdialog.cpp:872-970 | from any reachable state with the timer armed, silence removes the dialog at exactly the computed firing, at most max(2, retries+1) and never more than four |
| SipDialogRuns.SilenceEndsIff | sip/projectsipdialog.cpp:872-970 | a dialog in any reachable state is removed by silence exactly if its timer is armed |
| SipDialogRuns.AcknowledgedChallengeStays | sip/projectsipdialoginvite.cpp:72-81 | it is not after the ACK of a challenge, in any run |
| SipDialogRuns.UnansweredInviteStays | sip/projectsipdialog.cpp:1067-1157 | nor while an INVITE sent out has had no answer |
| SipDialogRuns.SentOnceAlways | sip/projectsipdialog.cpp:503-580 | the ringing and answered flags account for every 180 and answering 200 sent |
| SipDialogRuns.LifecycleIsMonotone | sip/projectsipdialog.cpp:503-580 | over every run and continuation no flag goes back, at most one 180 is sent and none once ringing, answered or hung up, and at most one answering 200 |
| SipDialogRuns.ByeHangsUp | sip/projectsipdialog.cpp:214-228 | a BYE or CANCEL hangs up in any state |
| SipDialogRuns.AuthenticationIsTrue | sip/projectsipdialoginvite.cpp:87-149 | the packet kept as authenticated is none, or an INVITE that answers a challenge this dialog sent |
| SipDialogRuns.RepliesGoToAuthenticatedSource | sip/projectsipdialoginvite.cpp:87-149 | once set it is only replaced by a newer such INVITE, never cleared, and everything sent goes to its source |
| SipDialogRuns.LastPacketIsThere | sip/projectsipdialog.cpp:231-258 | a dialog made by an INVITE always has a last received packet; in one made by the control server nothing but a request can look for one before the first packet |
| SipDialogRuns.StepKeepsSound | sip/projectsipdialog.cpp:72-1438 | the invariant of every run, kept by each single step: retries in range, each 180 and answer accounted for, the authenticated packet an answer to a challenge sent; and no flag goes back |
| SipReplies.StepDoes | sip/projectsipdialog.cpp:72-1669 | in every state, what each event sends, with which CSeq and where to, and whether it rings, answers or hangs up the call, by a table that is independent of the handlers |
| SipFields.StepMovesFields | sip/projectsipdialog.cpp:72-1669 | in every state, how each event moves every other field, field by field: tags and CSeq numbers, challenges and retries, next state, timer, and what the control server is told |
| SipAccounts.AnsweredExactlyOnce | sip/projectsipdialog.cpp:503-580 | over every run of a dialog made by an INVITE, short of a re-invite by the control server: exactly one 180 sent if it is ringing and none if not, exactly one answering 200 if it is answered and none if not |
| SipAccounts.AnswerIsSent | sip/projectsipdialog.cpp:560-580 | an answer request on a call not yet answered sends that 200 with the CSeq of the packet received last, and the dialog waits for its ACK |
| SipAccounts.ByesAndOksAnswered | sip/projectsipdialog.cpp:214-228 | over every run, one 200 for each BYE or CANCEL received and one for each ok request |
| SipAccounts.EveryRequestAnswered | sip/projectsipdialog.cpp:72-497 | a BYE or CANCEL, and an INVITE or REFER in a state that takes one, is answered at once and with its own CSeq, except an authenticated re-INVITE, which waits for the control server |
| SipAccounts.FlagsTellTheStory | sip/projectsipdialog.cpp:214-1287 | over every run of every dialog, ringing, answered and hung up say exactly whether an event has rung, answered or hung up the call |
| SipAccounts.BooksAreKept | sip/projectsipdialog.cpp:72-1669 | over every run of every dialog, whether it has the other side's tag, has authenticated it, made the call and knows its control server, how many of its requests are outstanding and how many challenges it has sent are what its history says |
| SipAccounts.WaitsAreTimed | sip/projectsipdialog.cpp:72-1669 | over every run, while a dialog waits for an ACK, or for the 200 that ends it, its timer is armed |
| SipAccounts.SilenceResends | sip/projectsipdialog.cpp:872-970 | under silence, a handler with something to resend sends it once at each firing, as often as there are retries, and then the dialog is gone |
| SipInvites.AtMostTwoInvites | sip/projectsipdialog.cpp:1067-1287 | whatever packets, timers, replies and requests other than a re-invite come, an outbound dialog sends at most two INVITEs, the second with the first's CSeq plus two (section 22.2 of RFC 3261) |
| SipOutbound.AcksMatchIff | sip/projectsipdialog.cpp:895-1287 | over every run of every dialog, with all packets, timers, replies and requests: all ACKs carry the CSeq of the INVITE they answer exactly when each is the first for its INVITE or follows a CANCEL with that CSeq (sections 13.2.2.4 and 17.1.1.3 of RFC 3261) |
| SipOutbound.SetupLasts | sip/projectsipdialog.cpp:1200-1287 | an INVITE that can be sent stays in setup, its dialog in the container and no INVITE acknowledged twice, until a final response, a BYE or CANCEL, a refusal, a timeout or a request other than ringing |
| SipOutbound.SetupAcksMatch | sip/projectsipdialog.cpp:1163-1287 | in any run with no final response yet, whatever the requests, every ACK carries the CSeq of the INVITE it answers; and so after any next event, exactly unless that ends a call cancelled under another CSeq |
| SipOutbound.CancelledAckMatchesIff | sip/projectsipdialog.cpp:895-967 | in any run, the ACK that ends a cancelled call carries the INVITE's CSeq exactly when that is one more than the CSeq of the packet received last before the CANCEL |
| SipOutbound.HangupMisnumbersTheAck | sip/projectsipdialog.cpp:895-967 | so a hang-up after a provisional response sends INVITE n, CANCEL n+1 and ACK n+1 |
| SipOutbound.SecondAckMatchesIff | sip/projectsipdialog.cpp:1251-1287 | in any run, an answer to the second INVITE is acknowledged with its CSeq exactly when no ACK has been sent since it |
| Registrar.KeepaliveInvariant | sip/projectsipregistrar.cpp:40-507 | in every reachable state every entry has 0 to 7 pings outstanding, exactly as its history accounts for them, and is pinged or registered only after a REGISTER that answered a challenge of its own |
| Registrar.OutstandingIsGreatestSurplus | sip/projectsipregistrar.cpp:443-507 | the outstanding count is the greatest surplus of pings over answers in any stretch of history up to now since the last accepted REGISTER |
| Registrar.SilentClientExpires | sip/projectsipregistrar.cpp:416-437 | whatever else arrives, an entry that hears no answer and accepts no REGISTER goes on being pinged exactly while its firings are in time and within what is left of seven, and is expired at the next |
| RegistrarExpiry.AcceptedUntil | sip/projectsipregistrar.cpp:222-295 | an accepted REGISTER registers for as long as it asks from its arrival, an hour if it names nothing, with no ping outstanding and the timer running |
| RegistrarExpiry.ExpiresAsAsked | sip/projectsipregistrar.cpp:21-295 | in every reachable state an entry expires when its last accepted REGISTER asked for, or an hour after it was made |
| RegistrarExpiry.AnsweringClientLasts | sip/projectsipregistrar.cpp:416-437 | whatever else arrives, an entry with fewer than seven pings unanswered at each firing and no new REGISTER is pinged at every firing up to its expiry time, expired at the next, and stays registered until then unless it unregisters |
| RegistrarExpiry.AcceptedClientLasts | sip/projectsipregistrar.cpp:222-437 | so a client that answers its pings keeps its registration for exactly as long as it asked for |
| Registrar.ErasedIff | sip/projectsipregistrar.cpp:215-361 | the container drops the user's entry exactly on its own authenticated zero expiry or when the DELETE of an unregistered entry is answered |
| Registrar.AcceptedIff | sip/projectsipregistrar.cpp:167-335 | a REGISTER is accepted exactly when it answers the waiting challenge, does not ask to expire at once, and its CSeq is as long as the one challenged |
| RegistrarReplies.AnsweredWith | sip/projectsipregistrar.cpp:40-335 | in every state of an entry, exactly when a REGISTER unregisters, is answered 423, 401, 403 or 200, or is not answered |
| RegistrarReplies.OtherwiseUntouched | sip/projectsipregistrar.cpp:84-190 | a 423, a 403 or silence changes nothing of the entry |
| RegistrarReplies.NoChallengeStarts | sip/projectsipregistrar.cpp:167-182 | without a challenge waiting it makes no difference which of the two handlers a REGISTER reaches |
| RegistrarReplies.DeleteSentIff | sip/projectsipregistrar.cpp:367-437 | a DELETE is sent exactly when an entry once accepted is unregistered or expired and its domain is known; when the timer expires an entry and when it pings |
| RegistrarReplies.AcceptedAgainIff | sip/projectsipregistrar.cpp:301-335 | an accepted REGISTER sent again is accepted again exactly if its domain is not known to the directory |
| RegistrarReplies.HeardIff | sip/projectsipregistrar.cpp:490-507 | exactly which responses count as answers, and the others change nothing |
| RegistrarReplies.PingsAreNumbered | sip/projectsipregistrar.cpp:443-507 | in every reachable state the CSeq of the next OPTIONS is the number of pings answered, modulo 2^32 |
| Registrar.AnotherCSeqIsAccepted | sip/projectsipregistrar.cpp:235-242 | so another CSeq of the same length is accepted, which the comment there excludes |
| Registrar.UnregisteredIff | sip/projectsipregistrar.cpp:40-83 | a REGISTER unregisters an entry exactly when it asks to expire at once without credentials for a waiting challenge |
| Registrar.UnregisteredWithoutCredentials | sip/projectsipregistrar.cpp:40-83 | and a live entry is then erased by the answer to its DELETE |
| Registrar.ClientRegisters | sip/projectsipregistrar.cpp:40-335 | a client that answers its challenge is registered, with its timer running |
| Registrar.AbandonedEntryErasesItsSuccessor | sip/projectsipregistrar.cpp:346-388 | a client that leaves and registers again is erased when the timer of its first entry runs out |
| RegistrarObject.Registration.Start | sip/projectsipregistrar.cpp:40-161 | a REGISTER without usable credentials: 200 and expiry, 423, or a challenge |
| RegistrarObject.Registration.WaitAuth | sip/projectsipregistrar.cpp:167-335 | a REGISTER with credentials: 403, erasure, silence or acceptance |
| RegistrarObject.Registration.OnTimer | sip/projectsipregistrar.cpp:416-437 | expiry by time or by seven unanswered pings, or another ping |
| RegistrarObject.Registration.OnResponse | sip/projectsipregistrar.cpp:490-507 | an OPTIONS answer takes one ping off |
| RegistrarObject.Registration.ExpireNow | sip/projectsipregistrar.cpp:367-388 | unregisters, with a DELETE only for an accepted user of a known domain |
| RegistrarObject.Container.OnRegister | sip/projectsipregistrar.cpp:516-551 | finds or makes the user's entry, hands the REGISTER to it, and erases it when told to: the registrar's step for that user, all others unchanged |
| RegistrarObject.Container.OnResponsePacket | sip/projectsipregistrar.cpp:516-554 | the same for a response |
| RegistrarObject.Container.TimerFired | sip/projectsipregistrar.cpp:416-437 | the step for an entry's timer, whether it is in the container or not |
| RegistrarObject.Container.HttpCallbackAndDie | sip/projectsipregistrar.cpp:346-361 | erases by name, so perhaps another entry than the one that asked: the step for the answer to its DELETE |

## Left out

- Sockets, asio, HTTP client and server, DNS resolution, asynchronous file reads, daemonising: they appear only as events and outcomes.
- MD5, tags, branches, UUIDs and the CRC-32 tables: challenges are numbered, and a lookup is a function that knows each name.
- Codecs, tone generation, the rounding of `float` in the filter (the coefficients and sums are reals), and the narrowing cast itself.
- JSON parsing, SDP conversion, call hold and URL encoding.
- Mixing lists: two mixed channels are taken as given. Unmixing resets the confirmed sender, which is not modelled; nor are RTCP, closing a channel, and the tick that plays a soup to a lone channel.
- The simulated packet loss of a test build, and datagrams shorter than an RTP header.
- Reconfiguring a soup while it plays, and positions within a sound file: whether a file has finished is an input.
- `httppatch`: its length test can never pass, so a PUT with a user name always ends there (sip/projectsipdirectory.cpp:515).
- Case-insensitive and partial comparisons of substrings, apart from the length comparison that `!=` between two substrings comes to, which the registrar's CSeq test relies on.
- A container of many dialogs: one dialog is modelled, with removal from the container.
- What is in a SIP message beyond its kind, CSeq and destination; a resent 200 carries no SDP, which is therefore not seen.
- A REGISTER whose request URI is shorter than four characters is ignored by the program and is not an event here. The flag isavailable is never read and is left out, and so is forwarding packets to a registered client.
- SipDialog.Respond: with no packet received the program would follow a null pointer; the model sends CSeq 0, and LastPacketIsThere shows that only a control request can lead there.
- SipDialog.DoRinging: with no INVITE kept the program would follow a null pointer; the model does nothing there.
- SipDialogObject.Dialog.InviteSipPacket: one dialog; the 481 for an unknown Call-ID and the test for Call-IDs shorter than five characters are not modelled.
- DirectoryTree.Tree.Put: the users only; the control host, the answer sent and the exits for paths of one or three parts are left out.
- JitterReorder.BoundedReorderingIsRepaired: one sender and no wrap of the lower bound; numbers are below 65536 and are not reused. JitterLowStart.RepairedIff is the exact condition on the first number, JitterSafety.BelowFirstIsLost shows why it has to be the lowest, and JitterTicks.TimelyReorderingIsRepaired admits several packets between two drains.
- JitterWrapRun.StreamStopsAtTheWrap: stated until 40 numbers before 65535 comes a second time; JitterWrap.AlignedIff says what later wraps do to the bottom.
- WebDocumentRoundTrip.BuilderAgreesWithParser: headers before the body, at least one, and the first line set once, since the other orders give the wrong ranges shown by the lemmas beside it.
