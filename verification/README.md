# Verification of the HTTP/2 engine, the io_uring rings and pool, and the TLS read-ahead

This project models, in Dafny, the protocol core of the server and proves what it keeps over every run.

- **Stream table** (`Probing.dfy`, `StreamTable.dfy`): the 256-slot open-addressing table with backward-shift
  deletion, as functions on slot layouts and as the arrays the source updates.
- **Frame codec** (`Frames.dfy`, `HeaderFrames.dfy`): the 9-octet header, SETTINGS, the frame writers, and the cut of
  a header block into HEADERS and CONTINUATION frames.
- **HPACK** (`Bits.dfy`, `Huffman.dfy`, `HuffmanTable.dfy`, `HuffmanCoding.dfy`, `HpackInt.dfy`, `HpackTable.dfy`,
  `HpackBlock.dfy`, `HpackDecoder.dfy`, `HpackEncoder.dfy`): prefix integers, the canonical Huffman decoder over its
  bit window, the dynamic table, whole header blocks, and the encoding helpers.
- **Request rules** (`RequestRules.dfy`): the malformed-request rules in declarative form and the loops that check them.
- **Connection** (`ConnModel.dfy`, `ConnShapes.dfy`, `ConnLog.dfy`, `ConnInv.dfy`, `ConnSend.dfy`, `ConnRecv.dfy`,
  `ConnBlocks.dfy`, `Segmentation.dfy`, `ConnRuns.dfy`, `ConnSteps.dfy`, `ConnHops.dfy`, `ConnEnding.dfy`,
  `ConnCuts.dfy`, `ConnFates.dfy`, `ConnReplies.dfy`, `ConnIntake.dfy`, `ConnPeer.dfy`, `ConnSpent.dfy`,
  `ConnExact.dfy`, `ConnAddress.dfy`, `ConnWire.dfy`, `ConnLimits.dfy`, `ConnExample.dfy`, `ConnExtremes.dfy`): the
  connection as a value, every operation as a function on it, the theorems about all runs, and runs that show what can
  happen.
- **The connection object** (`StreamPool.dfy`, `ServerConn.dfy`): the imperative connection, over its table, its
  decoder and its pooled stream states, each method proved against its function in `ConnModel.dfy`.
- **io_uring** (`Rings.dfy`, `ConnPool.dfy`): the submission and completion rings between worker and kernel, and the
  pool of connection slots.
- **TLS read-ahead** (`ReadAhead.dfy`): the receive callback, its buffer and its `readable` flag under edge-triggered
  readiness.

## How the model is built

A `World` is a connection value `Conn` with a `Log` of what crossed the wire and the application boundary: frames
received and sent, streams opened and released, requests surfaced, response calls made. `Run(w, calls)` performs any
sequence of public calls: the server preface, `consume` on any octets, response headers, bodies and trailers, aborts.
A connection for which `consume` asked to close takes no further calls. The theorems quantify over all such runs. Two
decompositions carry most of their proofs: `ConnSteps.dfy` writes everything the response side does as a list of a few
kinds of step, and `ConnHops.dfy` every run as a list of hops (a frame accepted or passed over, the preface, a call), so
that a property is proved kind by kind. Amounts (credit received, DATA sent, bodies written, peak of open
streams) and the requests that are due are folds over the log, so they do not refer to the fields they are compared
with.

`ServerConn` holds the fields of the source and refines these functions: after each method `Now()`, the object as a
`World`, is the function applied to `Now()` before it, and the octets and requests the method returns are what the
function added to the log. `Drive` puts the two together: a new object driven by any calls returns exactly the octets
and requests of the run, so the run theorems speak about the object.

Conventions:

- Methods that append to a caller's buffer (`out`, `reqs`) return what they append.
- A pointer to a `StreamState` is a handle into the sequence of states allocated so far; two streams share a state
  exactly when their handles are equal. A stream's `pending[pending_off..]` is the `parked` field of its value.
- `slots` in `Conn` is the layout of the stream table. It fixes the order in which a walk visits the streams.
- A request is its values at the moment it surfaces.
- Stream ids are read modulo 2^31, as the codec does. 64-bit windows are integers: every value they take is proved to
  stay far below 2^63. The 32-bit ring indices wrap explicitly.
- Contracts often say `P(x) == true` for a predicate `P`. The verifier unfolds a bare `P(x)` in a contract at every
  call; the equation keeps it closed.

Where the code and its documentation differ, the model follows the code:

- Section 6.9.2 of RFC 9113 makes it an error when a SETTINGS change pushes a stream's send window past 2^31-1.
  `on_settings` does not check this (http2/conn.v:687-738), so the bound proved for stream windows is the one the code
  gives, 2 * (2^31-1). `AcceptsAsRequiredIff` gives the exact condition under which the code accepts what the section
  accepts, `RequiredByCreditIff` the same in terms of the frames exchanged, and `RunOvershoots` a run that fails it and
  attains the bound.
- Section 5.1 of RFC 9113 lets a server send HEADERS only on a stream the client opened and nobody closed.
  `write_response_headers` does not test this (http2/conn.v:795-818), as bodies and trailers do (http2/conn.v:834,
  883). `OnOpenIff` gives the exact condition, and `RunAnswersClosed` a run that fails it.
- A stream id with the reserved bit set is masked on the wire only (http2/conn.v:786-818): the frame ends or resets one
  stream, and the connection keeps that stream. `CallPeer` says exactly when that happens, `RunMasks` shows it.
- The comment on `write_response_data` says the last DATA frame carries END_STREAM after the body. Two calls write
  END_STREAM at once even when earlier octets are parked, and drop those: final headers (http2/conn.v:795-818) and an
  empty final body (http2/conn.v:835-840). `CallTruncatesIff` gives the exact condition for every call, `CompleteIff`
  for every run, `RunsTruncate` two runs that fail, and the ending theorem asks the application not to make those calls
  then.
- The comment on `rejected` says a refused stream's frames keep being drained quietly (http2/conn.v:61-62).
  `finish_header_block` keeps no state for a refused stream (http2/conn.v:433-436), so DATA already in flight on it
  closes the connection with STREAM_CLOSED (http2/conn.v:634-638). `RefusedDataCloses` states this for every run, and
  `RunRefuses` is one.
- The comment on `pool_release` says buffers are freed; the code keeps buffers of base size on the slot.

## Model

| member | source | states |
|---|---|---|
| Probing.FindCorrect | http2/streams.v:39-55 | probing from the home slot finds exactly the ids in use, each at its only slot |
| Probing.PutCorrect | http2/streams.v:73-89 | insertion keeps every entry reachable and adds exactly the id when a slot is free; a full table drops a new id |
| Probing.RemoveCorrect | http2/streams.v:94-118 | backward shifting, wraparound included, keeps every other entry reachable from its home slot and removes exactly one id |
| Probing.ShiftSound | http2/streams.v:99-115 | the shifting loop, from any intermediate state, ends in a valid table holding what it held outside the hole |
| Probing.IdsExact | http2/streams.v:123-133 | the walk lists each id in use exactly once |
| Probing.RoomByCount | http2/streams.v:14-16 | a table with fewer ids than slots has a free slot |
| StreamTables.StreamTable.Find | http2/streams.v:39-55 | the probing loop returns the slot of the id in the map the table stands for, or -1 |
| StreamTables.StreamTable.Get | http2/streams.v:57-63 | lookup in the table is lookup in the map |
| StreamTables.StreamTable.Has | http2/streams.v:66-68 | membership in the table is membership in the map |
| StreamTables.StreamTable.Put | http2/streams.v:73-89 | the map gains or replaces the entry, unless the table is full and the id new; the arrays stay in step |
| StreamTables.StreamTable.Remove | http2/streams.v:94-118 | the map loses exactly the entry, the arrays end as the value-level deletion says, and the loop terminates |
| StreamTables.StreamTable.ShiftBack | http2/streams.v:99-115 | the in-place loop performs the value-level shift, moving each state with its id |
| StreamTables.StreamTable.IdsInto | http2/streams.v:123-133 | the ids in slot order |
| Frames.HeaderRoundTrip | http2/frame.v:49-85 | a written header with length below 2^24 parses back, whatever follows, its id modulo 2^31 |
| Frames.HeaderParsePrint | http2/frame.v:49-85 | printing a parsed header gives back its octets, but for the reserved bit |
| Frames.U32RoundTrip | http2/frame.v:87-100 | a 32-bit integer written anywhere in a buffer reads back |
| Frames.ParseAllEncodeAll | http2/frame.v:49-85 | any sequence of encoded frames parses back as exactly those frames |
| Frames.SettingsRoundTrip | http2/frame.v:103-131 | written settings parse back to the same list |
| Frames.ParseSettings | http2/frame.v:119-131 | the parsing loop returns the parameters in order, or none when the length is not a multiple of six |
| Frames.WriteSettings | http2/frame.v:103-110 | appends the encoding of a SETTINGS frame |
| Frames.WriteGoaway | http2/frame.v:141-145 | appends the encoding of a GOAWAY frame |
| Frames.WriteRstStream | http2/frame.v:148-151 | appends the encoding of a RST_STREAM frame |
| Frames.WriteWindowUpdate | http2/frame.v:155-158 | appends the encoding of a WINDOW_UPDATE frame |
| Frames.WriteData | http2/frame.v:162-165 | a data header and the payload after it are the encoding of a DATA frame |
| Frames.WritePingAck | http2/frame.v:135-138 | appends the encoding of a PING acknowledgement |
| HeaderFrames.BlockFramesShape | http2/conn.v:795-815 | the frames of a block carry it whole and in order, HEADERS first, each within the frame size, END_HEADERS on the last only, END_STREAM on the first only and only when asked |
| HeaderFrames.BlockBytes | http2/conn.v:795-815 | the splitting loop writes the encoding of exactly those frames |
| Huffman.UniqueLevel | http2/hpack.v:565-582 | in a canonical table at most one level matches a bit window |
| Huffman.LongWindowMatches | http2/hpack.v:583-586 | a window at least as long as the longest code always matches: the code is complete |
| Huffman.ParseUnique | http2/hpack.v:557-599 | a bit string has at most one reading as codes followed by an unfinished rest |
| Huffman.CodingUnique | http2/hpack.v:557-599 | octets are the coding of at most one string |
| Huffman.FindLevel | http2/hpack.v:564-582 | the level scan finds the matching level, or none when the window is unfinished |
| Huffman.CheckPadding | http2/hpack.v:591-598 | the final checks accept exactly when the codes read and the bits left over are a coding: up to seven bits, all ones |
| Huffman.Decode | http2/hpack.v:557-599 | succeeds exactly when the octets are the codes of some string padded with 0 to 7 ones, and appends it; the invalid-code outcome never happens, the window stays within 37 bits, at most 8/5 octets per octet read even on failure |
| HuffmanTable.HpackIsCanonical | http2/hpack.v:177-210 | the 21 constant levels satisfy the canonical recurrence and end at 2^30, with codes of 5 to 30 bits |
| HuffmanTable.HpackLists | http2/hpack.v:196-210 | the symbol table holds each of the 257 symbols at exactly one place |
| HuffmanCoding.CodingExists | http2/hpack.v:557-599 | under a canonical table that lists every symbol, every string has a coding in whole octets |
| HuffmanCoding.CodingInjective | http2/hpack.v:557-599 | and only one |
| HuffmanCoding.HuffmanExact | http2/hpack.v:177-210 | every string of octets has exactly one coding under the constant table, so there is one string of octets the decoder turns into it |
| HpackInt.IntRoundTrip | http2/hpack.v:434-481 | every value up to 2^28 reads back from its encoding with any prefix, flags and following octets |
| HpackInt.DecodeInt | http2/hpack.v:434-464 | the decoding loop is the value-level reading: overflow past five groups, truncation and values above 2^28 fail |
| HpackInt.EncodeInt | http2/hpack.v:468-481 | the encoding appends the prefix form of the value |
| HpackInt.EncodeGroups | http2/hpack.v:475-480 | its loop appends the value in groups of seven bits, low ones first |
| HpackTable.EvictLongest | http2/hpack.v:395-400 | eviction leaves the longest newest-first prefix that fits |
| HpackTable.InsertIsEvictThenInsert | http2/hpack.v:386-400 | insert-then-evict equals the evict-then-insert rule of section 4.4 of RFC 7541, oversized entries included |
| HpackTable.InsertValid | http2/hpack.v:386-400 | insertion keeps the size within the current maximum |
| HpackTable.ResizeValid | http2/hpack.v:322-334 | a size update within the advertised maximum keeps the table valid |
| HpackBlock.BlockKeepsTable | http2/hpack.v:265-360 | after every block, failed ones included, the dynamic table is valid |
| HpackBlock.DecodeInvertsEncoding | http2/hpack.v:265-360 | a block written by any encoder with shortest integers, indexing or not, Huffman or not, decodes to the meaning of its representations |
| HpackDecoders.HpackDecoder.Entry | http2/hpack.v:368-380 | static, then dynamic, then no entry |
| HpackDecoders.HpackDecoder.EvictOldest | http2/hpack.v:395-400 | the eviction loop is the value-level eviction, and the size stays the sum of the entries |
| HpackDecoders.HpackDecoder.Add | http2/hpack.v:386-393 | the object's table becomes the value-level insertion |
| HpackDecoders.HpackDecoder.DecodeStr | http2/hpack.v:404-429 | a string is read as the value-level reading says; the arena only grows, to at most 8/5 of the octets so far |
| HpackDecoders.HpackDecoder.DecodeRep | http2/hpack.v:278-358 | one representation changes table, fields and totals as the value-level reading says, or fails and leaves table and fields alone |
| HpackDecoders.HpackDecoder.DecodeInto | http2/hpack.v:265-360 | the block loop is the value-level decoding; the arena stays below twice the block and within its capacity, on failure too |
| HpackEncoder.EncodeStr | http2/hpack.v:484-489 | appends a plain string |
| HpackEncoder.EncodeIndexed | http2/hpack.v:493-495 | appends an indexed field |
| HpackEncoder.EncodeLiteralNameIdx | http2/hpack.v:499-502 | appends a literal with an indexed name |
| HpackEncoder.EncodeLiteral | http2/hpack.v:507-511 | appends a literal with a new name |
| HpackEncoder.EncodeStatus | http2/hpack.v:515-550 | appends the static entry of a common status, else the three digits |
| HpackEncoder.EncoderRoundTrip | http2/hpack.v:484-550 | any block built from the helpers decodes, from any decoder state, to exactly the intended fields and leaves the dynamic table alone |
| RequestRules.ValidRegularFieldName | http2/conn.v:592-602 | accepts exactly names without upper case, blanks, zero octets, that are not connection-specific |
| RequestRules.ValidTrailerFields | http2/conn.v:605-612 | accepts exactly lists of valid regular fields |
| RequestRules.ParseContentLength | http2/conn.v:616-628 | the decimal value of one to eighteen digits, else -1 |
| RequestRules.ValidateRequestFields | http2/conn.v:518-587 | one pass decides the declarative rules: order of pseudo-headers, exactly the required ones, CONNECT, field names, `te`, agreeing content-lengths; and returns the declared length |
| RequestRules.DeclaredLengthMeaning | http2/conn.v:564-573 | the declared length is that of every content-length field of an allowed list, -1 exactly when there is none |
| Segmentation.ConsumeSplit | http2/conn.v:153-210 | consuming a, then what it left over followed by b, is consuming a + b: state, log, count and close flag |
| Segmentation.SegmentationIndependence | http2/conn.v:153-210 | however the octets are cut into reads, the final state, output, requests, close flag and tail are those of one call |
| ConnBlocks.FrameInv | http2/conn.v:214-302 | every accepted frame keeps the connection invariant; one that closes leaves a safe log |
| ConnRuns.RunGood | http2/conn.v:153-928 | the invariant holds after every run that is still open, and every log is safe |
| ConnRuns.NothingStranded | http2/conn.v:687-928 | after any run, parked octets mean a closed window, and trailers or an ending wait only behind parked octets |
| ConnRuns.BodiesInOrder | http2/conn.v:833-928 | DATA payloads sent, then the parked octets, are the bodies written, in order; a stream that ended early sent a prefix |
| ConnRuns.WindowAccounting | http2/conn.v:687-780 | every send window is the initial window plus credit less DATA sent, across retroactive settings, within [-(2^31-1), 2 * (2^31-1)]; the connection's within [0, 2^31-1] |
| ConnLimits.AcceptsAsRequiredIff | http2/conn.v:687-738 | settings are accepted as section 6.9.2 of RFC 9113 requires if and only if the code accepts them and none of their values takes an open stream's window past 2^31-1; what the section accepts is applied alike |
| ConnLimits.AdjustedBeyondIff | http2/conn.v:687-738 | an accepted SETTINGS frame leaves a stream's window past 2^31-1 if and only if the window plus the change of the initial window is |
| ConnLimits.AcceptsBlindly | http2/conn.v:687-738 | whether the code accepts settings depends on no window |
| ConnLimits.RequiredByCreditIff | http2/conn.v:687-780 | over every run, that condition in terms of the frames: credit given to a stream, less DATA sent on it, plus the new initial window |
| ConnExtremes.RunOvershoots | http2/conn.v:687-780 | four frames from a new connection, none answered with an error, leave a stream window at 2 * (2^31-1), where the section has the last one refused |
| ConnRuns.FramesAllowed | http2/conn.v:795-928 | every frame, when written, fits the peer's frame size, and DATA with content fits both windows the exchanged frames define |
| ConnRuns.ReceiveWindowsFull | http2/conn.v:630-685 | between calls every receive window still in use is 65535, and the credit sent on the connection is all DATA received, padding included |
| ConnRuns.ReceivedDataFits | http2/conn.v:644-649 | the flow-control error of DATA cannot happen |
| ConnRuns.PoolIsPeak | http2/conn.v:345-412 | open streams and pooled states together number the peak of open streams, at most 128; open ids are odd and at most the last one seen |
| ConnRuns.PeakIsMaximum | http2/conn.v:93-100 | that peak is the greatest number of streams open at any moment |
| ConnIntake.RequestsSound | http2/conn.v:414-513 | a request, when surfaced, was not seen before, is well formed, carries the fields of its stream's first header block and the content of its DATA frames in order, and has its declared length |
| ConnIntake.RequestsAreDue | http2/conn.v:304-513 | while the connection is open the requests surfaced are exactly those the received frames amount to, in order: none is lost and none invented |
| ConnPeer.RequestsByFrames | http2/conn.v:153-513 | the same with the open streams read off the frames exchanged alone: header blocks, resets either way and END_STREAM; the connection's streams are those |
| ConnPeer.CallPeer | http2/conn.v:786-818 | after a call that reading and the connection agree if and only if the call did not end or reset a masked id that is open |
| ConnExtremes.RunMasks | http2/conn.v:786-791 | an abort of 2^31 + 1 resets stream 1 on the wire and leaves it open in the connection |
| ConnIntake.CompleteSurfaces | http2/conn.v:495-685 | a stream whose first block is well formed surfaces once END_STREAM arrives on DATA with the declared length |
| ConnRuns.RequestsSurfaceOnce | http2/conn.v:304-513 | over a whole run each id surfaces at most once, well formed, with its declared length |
| ConnRuns.OutputWellFramed | http2/conn.v:153-210 | everything a run writes parses back as exactly the frames sent |
| ConnHops.RunHops | http2/conn.v:153-928 | every run is a sequence of frames accepted, frames passed over, the preface and calls, and when it closes a GOAWAY behind them |
| ConnHops.RunGrows | http2/conn.v:153-928 | nothing that was recorded is ever taken back |
| ConnSteps.FrameSteps | http2/conn.v:214-302 | what an accepted frame lets out of responses is resets, trailers and DATA on open streams, behind what the connection says for itself |
| ConnSteps.CallSteps | http2/conn.v:786-928 | and so is what bodies, trailers and aborts write |
| ConnWire.HeadersContiguous | http2/conn.v:795-928 | in what any run sends, HEADERS without END_HEADERS is followed at once by CONTINUATION frames of its stream up to END_HEADERS, and no CONTINUATION stands elsewhere |
| ConnAddress.CallAddressed | http2/conn.v:786-928 | of all calls exactly a header call for a stream that is not open sends a response frame on one |
| ConnAddress.OnOpenIff | http2/conn.v:153-928 | in every run HEADERS, CONTINUATION and DATA go out on open streams if and only if the application writes headers for open streams only |
| ConnExtremes.RunAnswersClosed | http2/conn.v:795-818 | the client resets its request, and the response's headers go out all the same |
| ConnEnding.ResponsesEndOnce | http2/conn.v:795-928 | when each response is written in order with one ending, and no ending is asked for in a call that cuts it short, END_STREAM goes out at most once, no DATA or HEADERS of the stream follows it, and everything written went out before it, in runs that end open or closed |
| ConnEnding.NothingAfterEnd | http2/conn.v:795-928 | frame by frame, DATA and HEADERS go out only on streams that have not ended |
| ConnCuts.BodyTruncatesIff | http2/conn.v:833-876 | a body call ends a stream with octets unsent if and only if the body is empty and final and octets are parked |
| ConnCuts.HeadersCut | http2/conn.v:795-818 | a header call ends a stream with octets unsent if and only if it is final and octets are parked, or were dropped by an earlier reset |
| ConnCuts.CallTruncatesIff | http2/conn.v:153-928 | for every call and every stream: the call leaves the stream ended with octets unsent if and only if it is one of those two; feeding octets, trailers, resets and other streams never do |
| ConnExact.CompleteIff | http2/conn.v:795-928 | in a run that writes one response per stream in order, every response that ended is complete if and only if none of its calls is one of those two with octets unsent |
| ConnExample.RunsTruncate | http2/conn.v:795-876 | from a new connection, a request, a body past the window and then either call end the response without its last octet |
| ConnExample.RunServes | http2/conn.v:153-210 | a GET fed to a new connection surfaces as its request on an open stream |
| ConnFates.NoneLost | http2/conn.v:153-928 | while the connection is open, a stream that was opened is open, or END_STREAM was written on it, or either side reset it |
| ConnFates.ResponsesEnd | http2/conn.v:795-928 | an ending that was asked for has gone out after every octet, or waits behind octets parked at a closed window, or the stream was reset |
| ConnSpent.IdsNeverReturn | http2/conn.v:304-412 | a stream id that was closed, refused or passed over is never open again, and nothing more is written to it or sent on it as DATA |
| ConnSpent.StreamClosedIff | http2/conn.v:630-643 | DATA closes the connection with STREAM_CLOSED if and only if no header block is being received and its stream is closed for good, or its request side is complete |
| ConnSpent.BegunRefused | http2/conn.v:304-373 | a block begun by HEADERS without END_HEADERS is one to refuse exactly when the stream limit is reached |
| ConnSpent.RefusedDataCloses | http2/conn.v:433-436 | a header block over the stream limit, whether HEADERS or CONTINUATION ends it, is answered with REFUSED_STREAM, and DATA on that stream then closes the connection, in every run that goes on |
| ConnExtremes.RunCrowds | http2/conn.v:304-412 | requests on streams 1, 3 and so on fill the table up to the limit |
| ConnExtremes.RunRefuses | http2/conn.v:433-436 | one more request is refused, and DATA for it closes the connection with STREAM_CLOSED |
| ConnReplies.RepliesMatch | http2/conn.v:250-267 | while the connection is open every PING was answered with its payload, in order, every SETTINGS frame acknowledged once, and no GOAWAY written |
| ConnReplies.DecoderInStep | http2/conn.v:414-435 | the decoder's table is that of every header block received, each decompressed once and in order, whether its stream was opened, refused, malformed or ended by trailers |
| ConnReplies.ClosesWithGoaway | http2/conn.v:153-210 | a connection closes with its only GOAWAY, written last, naming an error and a stream at or above every request surfaced |
| StreamPool.Reset | http2/conn.v:381-393 | a reset state stands for a fresh stream, whatever it held |
| StreamPool.TakePooled | http2/conn.v:376-394 | taking the last retired state keeps every other state with its stream |
| StreamPool.Give | http2/conn.v:403-412 | retiring a state keeps every other state with its stream |
| ServerConns.ServerConn.constructor | http2/conn.v:123-129 | a new object is the new connection |
| ServerConns.ServerConn.ReleaseStream | http2/conn.v:403-412 | the object performs the release; an id that is not open changes nothing |
| ServerConns.ServerConn.NewStream | http2/conn.v:375-396 | the object opens a fresh stream, on the last retired state or, only when none is left, a new one |
| ServerConns.ServerConn.StatesApart | http2/conn.v:375-412 | open streams never share a state, and none of theirs is in the free list |
| ServerConns.ServerConn.StatesArePeak | http2/conn.v:93-100 | as many states were ever allocated as streams were open at once, at most 128 |
| ServerConns.ServerConn.CompleteStream | http2/conn.v:495-513 | surface, or drop a rejected request, or reset one of the wrong length |
| ServerConns.ServerConn.FinishHeaderBlock | http2/conn.v:414-457 | decode, then complete trailers, refuse, or open the stream, as the function says |
| ServerConns.ServerConn.HandleHeaders | http2/conn.v:304-366 | the checks and the assembly of a HEADERS frame |
| ServerConns.ServerConn.HandleContinuation | http2/conn.v:285-299 | a CONTINUATION extends or finishes the block, or fails |
| ServerConns.ServerConn.HandleData | http2/conn.v:630-685 | charge, unpad, keep, replenish, complete, in every branch as the function says |
| ServerConns.ServerConn.AdjustAll | http2/conn.v:704-713 | the walk over the slots moves every open stream's window exactly once |
| ServerConns.ServerConn.HandleSettings | http2/conn.v:687-738 | parameters applied in order up to an illegal one, acknowledgement, and a flush when the initial window changed |
| ServerConns.ServerConn.HandleWindowUpdate | http2/conn.v:740-780 | connection or stream credit, overflow and zero increments, and the flush that follows |
| ServerConns.ServerConn.HandleControl | http2/conn.v:225-281 | PRIORITY, RST_STREAM, PING and GOAWAY |
| ServerConns.ServerConn.HandleFrame | http2/conn.v:214-302 | the dispatch, and the contiguity of header blocks |
| ServerConns.ServerConn.ConsumeAll | http2/conn.v:168-209 | the frame loop is the value-level loop |
| ServerConns.ServerConn.Feed | http2/conn.v:153-210 | `consume`: octets consumed, close flag, octets for the peer and requests, as the function says |
| ServerConns.ServerConn.WriteServerPreface | http2/conn.v:135-146 | the SETTINGS frame of the server |
| ServerConns.ServerConn.WriteResponseHeaders | http2/conn.v:795-819 | the block's frames, and the release when they end the stream |
| ServerConns.ServerConn.EmitBody | http2/conn.v:847-869 | the chunk loop sends as far as windows and frame size allow |
| ServerConns.ServerConn.WriteResponseBody | http2/conn.v:833-876 | send, park the rest, or end the stream |
| ServerConns.ServerConn.WriteResponseTrailers | http2/conn.v:882-891 | trailers at once, or held behind parked octets |
| ServerConns.ServerConn.DrainPending | http2/conn.v:895-917 | the flush loop sends the parked octets as far as the windows allow |
| ServerConns.ServerConn.FlushPending | http2/conn.v:893-928 | flush, then the ending or the trailers that waited |
| ServerConns.ServerConn.FlushEach | http2/conn.v:753-756 | the walk flushes every open stream once, in slot order |
| ServerConns.ServerConn.AbortStream | http2/conn.v:786-789 | reset and release |
| ServerConns.ServerConn.Serve | http2/conn.v:135-928 | any public call does to the object what the function does to its value, and keeps the invariant |
| ServerConns.Drive | http2/conn.v:123-928 | a new object through any calls returns the octets, requests and close flag of the run, and the octets parse back as its frames |
| Rings.MaskIsRemainder | io_uring/io_uring_linux.c.v:455-455 | masking with a power of two less one is the remainder |
| Rings.PushHolds | io_uring/io_uring_linux.c.v:448-456 | filling a slot appends to the FIFO and overwrites nothing still held; a full ring is left alone |
| Rings.PeekHolds | io_uring/io_uring_linux.c.v:568-573 | the i-th ready entry is the i-th of the FIFO, across index wraparound |
| Rings.RingsAreFifos | io_uring/io_uring_linux.c.v:448-594 | after any interleaving of worker and kernel steps, SQEs are taken in order, each once and none before it is published, and CQEs are dispatched in order, each once |
| Rings.RingsProgress | io_uring/io_uring_linux.c.v:448-594 | an SQE is refused exactly when the ring is full; the flush count is what the kernel has not taken; the ready count is what is posted and not dispatched |
| Rings.RingMemory.GetSqe | io_uring/io_uring_linux.c.v:448-456 | the object's ring is pushed to, unless full |
| Rings.RingMemory.Flush | io_uring/io_uring_linux.c.v:462-471 | publishes what was filled and counts what the kernel has not taken |
| Rings.PushAllHolds | io_uring/io_uring_linux.c.v:556-582 | completions the kernel held back join the FIFO in order, as many as there is room for |
| Rings.RingMemory.PeekBatch | io_uring/io_uring_linux.c.v:562-583 | when no completion is ready and some are held back, the kernel is asked for them once; the slots returned hold the next completions in order |
| Rings.RingMemory.AdvanceCq | io_uring/io_uring_linux.c.v:590-594 | the completions handed back leave the ring |
| ConnPool.PoolPartitions | io_uring/io_uring_linux.c.v:685-835 | after any acquires and releases, repeated ones included, slots in use and the free stack partition all slots, and `usedLo` is the capacity less the peak, so the sweep reaches every slot in use |
| ConnPool.NextSlot | io_uring/io_uring_linux.c.v:726-748 | the next acquire gets a slot not in use, fully reset, and fails only when all are in use |
| ConnPool.ReleaseOk | io_uring/io_uring_linux.c.v:792-835 | a release keeps the partition; one of a slot not in use changes nothing |
| ConnPool.Worker.constructor | io_uring/io_uring_linux.c.v:711-723 | all slots free, none used yet |
| ConnPool.Worker.PoolAcquire | io_uring/io_uring_linux.c.v:726-785 | the object performs the acquire |
| ConnPool.Worker.PoolRelease | io_uring/io_uring_linux.c.v:792-835 | the object performs the release |
| ReadAhead.NothingStranded | tls/vanilla_tls.c:504-554 | after any interleaving of arrivals, edges and reads, octets delivered, in flight, read ahead and queued are those that arrived, in order; queued octets mean the flag stays up or an edge is still to come |
| ReadAhead.WantReadMeansDrained | tls/vanilla_tls.c:535-554 | WANT_READ is answered only with an empty read-ahead and a socket seen drained since the last mark, and whatever arrived meanwhile has an edge still to come |
| ReadAhead.QueuedIsRead | tls/vanilla_tls.c:535-554 | queued octets are read by the next ask, once their edge is reported |
| ReadAhead.EofMeansAll | tls/vanilla_tls.c:518-521 | the end of the stream is answered only when everything that arrived was delivered |
| ReadAhead.ZeroAskIff | tls/vanilla_tls.c:535-554 | while octets are queued, an ask that reaches the socket returns 0 if and only if it asks for none, which in the handshake latches the end of the stream |
| ReadAhead.VtlsSession.VtlsRecv | tls/vanilla_tls.c:504-524 | one recv and its bookkeeping |
| ReadAhead.VtlsSession.RaFill | tls/vanilla_tls.c:527-532 | the empty read-ahead is refilled by one recv |
| ReadAhead.VtlsSession.BioRecv | tls/vanilla_tls.c:535-554 | serve from the read-ahead, answer the latched state, or ask the socket, in every branch as the functions say |
| ReadAhead.VtlsSession.MarkReadable | tls/vanilla_tls.c:669-669 | the flag goes up and nothing else changes |

## Left out

- ConnIntake.RequestsAreDue: which streams are open is the connection's own record; `RequestsByFrames` reads it off the frames, for runs in which no call masks an open stream's id.
- ServerConns.ServerConn.Feed: after a connection error the contract fixes the log, so the octets and requests, and the close flag, not the fields; the connection takes no further calls, and the source leaves some fields half updated.
- HuffmanTable.HpackLists: each symbol has one code word; which one is as the constants of the source say, and is not compared with a second copy of Appendix B of RFC 7541.
- Rings.RingsAreFifos: a completion posted to a full ring waits in the kernel and is not part of the model; the kernel is a step that takes published SQEs and posts CQEs while there is room.
- Rings.RingMemory.PeekBatch: the flags `cq_needs_flush` reads and the completions the kernel holds back are parameters.
- ConnPool.NextSlot: buffers are their contents; their capacities and reuse are not modelled.
- ReadAhead.NothingStranded: runs ask for at least one octet, as the library does; `ZeroAskIff` says what an ask of none would do.
- ReadAhead.EofMeansAll: safety of the end of stream only; when a close behind data is reported depends on how its edge reaches the worker.
- ReadAhead.VtlsSession.VtlsRecv: without the retry on EINTR, which leaves socket and session as they were.
- `vtls_read` and its use of Mbed TLS, handshakes, certificates, kTLS and `vtls_write`: foreign library and kernel behaviour.
- The static table is used as constants, without a proof against Appendix A of RFC 7541.
- Storage: `hdr_bytes`, the scratch field list, capacities and reuse of buffers, and how long request views stay valid. Identity of stream states and the length of the arena are modelled.
- Huffman encoding: the server never encodes with it.
- The allocating `decode`, `dynamic_size` and `serialize_frame_header`: one-line wrappers.
- `io_uring_setup`, mapping, registration, memlock sizing and the preparation of individual operations.
- HTTP/1, routing, the epoll, kqueue, iocp and poll backends, the worker loop, PostgreSQL support and the examples: their own subjects, mostly system calls in sequence.
