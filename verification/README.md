# DtCraft: verified models

DtCraft runs stream graphs on a cluster: vertices in containers, streams between them, a master that places
the containers on agents, and reactors that run the vertices. These modules model the parts of it that carry an
invariant, and prove the invariant over every input, every run or every interleaving.

- **Concurrent queue.** `FreeList` is the reference-counted free list, one atomic load, store or CAS a step,
  with any number of threads, `FreeListCalls` what each call of it returns. `DequeueCounters` is the protocol of
  optimistic counts and overcommits with which consumers share what one producer enqueues, `DequeueCalls` the share
  of each call.
- **Messages.** `BinaryArchive` is what values become as bytes, `Archivers` and `Packager` are the objects that
  write and read them, `StreamBuffers` the two buffers with their small local areas, `Channel` the whole way from
  one end to the other under every schedule of partial writes and reads. `LittleEndian` holds the integers.
- **HTTP.** `HttpParser` and `HttpStream` are the parser one byte at a time; `HttpExecute` is the object with its
  marks and inner loops, proved to compute the same. `HttpFragments` compares ways to cut a stream,
  `HttpRequests` is what the callbacks make of it. `HttpWalk`, `HttpHeaders`, `HttpConnection`, `HttpTokens`,
  `HttpLengths`, `HttpValues` and `HttpRoundTrip` follow a printed request through the parser, `HttpChunks` one
  with a chunked body, `HttpMessages` streams of both, and `HttpServer` brings them together on the object.
  `HttpTargets`, `HttpRefusals` and `HttpHeads` say exactly which URLs, request lines and heads are taken. `HttpUrl`
  and `HttpUrlFields` are the splitting of URLs, with the 16-bit fields it stores, `HttpUrlPrinted` the way back.
- **Master.** `Scheduler` is the greedy best fit; `MasterState` the steps of the master, `MasterBooks`,
  `MasterAnswers`, `MasterQueue` and `MasterRuns` what every run keeps, sends and starts; `MasterNode` the object whose loops
  and updates are these steps.
- **Graphs.** `Topologies` cuts a topology into the pieces of its containers, `GraphTasks` is what the builders
  record and what running the records against each piece makes, `GraphSettings` which settings stand, `GraphKernel` the
  objects that do it.
- **Agents.** `Rendezvous` is the exchange of frontiers that decides when a task may start, `RendezvousNode` the
  object.
- **Events.** `TimeoutHeap` is the heap that knows the position of each event, with the drain of due timers;
  `Reactor` and `ReactorLives` the life of an event between registered, running and on its way back, `ReactorNode`
  the object.
- **Threads.** `RingBuffer` is the queue between one producer and one consumer, `ThreadPool` the workers and
  their shutdown.

What the source updates in place is a class whose methods are proved to be the steps of a specification on
values; the run theorems are about that specification. Protocols between threads are state machines whose
steps are the loads, stores and critical sections, and the theorems are about every schedule. Iteration orders
of unordered containers, results of devices, and answers of other processes are arguments, so that the theorems
hold for all of them.

## Findings

Where the code does not do what its comments or its callers expect, the exact condition is proved.

- The header limit depends on how a request is cut (`src/utility/http_parser.cpp:1343`): a fragment that ends
  within a name or a value makes the parser count one byte more. `HttpRoundTrip.CutsMatterInNames` is one
  stream with two outcomes.
- A control character in an ordinary value is noticed only where a fragment begins, since the rest of the value is
  skipped by `memchr` (`src/utility/http_parser.cpp:1468-1491`): `HttpRoundTrip.CutsMatterInValues`. Both
  together: `HttpRoundTrip.ExactlyWhenTaken` says for which requests every cutting has the same outcome.
- URL fields are stored in 16 bits (`include/dtc/utility/http_parser.hpp:363-364`) and the header limit is 80 KB:
  a path of 65536 characters is stored as empty (`HttpUrlFields.LongPathsWrapAround`). `HttpUrlFields.StoredExactly`
  gives the condition under which the fields are right.
- Joining the fields of a URL loses a `?` without a query, a `#` without a fragment or before another `#`, and an `@`
  without userinfo, and nothing else: `HttpUrlFields.RejoinsExactly`, with `/a?` in `HttpUrlFields.EmptyQueryIsLost`.
- The port is read with `strtoul` from the buffer (`src/utility/http_parser.cpp:2372`): digits behind a URL that ends
  with its port are read as part of it. `HttpUrlFields.PortsInBuffers` says what is read,
  `HttpUrlFields.DigitBehindIsRead` is an input.
- In a Connection value the character after a word that is broken off is taken for part of the word, a comma
  included: the parser does not find `close` in `k, close` (`HttpTokens.CloseIsMissed`). A later token that begins
  with `_` ends the search. `HttpTokens.WordsOfListsAreFound` says exactly what is found in a list.
- Characters of a chunk size above 127 count as the digit 0, as the table lists 128 of 256 entries
  (`src/utility/http_parser.cpp:224-237`): `HttpLengths.UpperHalfIsTaken` is an input. `HttpLengths.SizesTaken` says exactly what is taken for
  a size, and when it is the number that is written.
- Spaces among the digits of a Content-Length are passed over (`src/utility/http_parser.cpp:1502`), so that `1 2` is 12
  (`HttpLengths.SpacedLengthIsTaken`). `HttpLengths.LengthsTaken` says exactly what is taken for a length.
- The header bytes of a trailer are still counted when the next request begins, since the way out of a trailer does not
  reset the count (`src/utility/http_parser.cpp:1711-1716`): `HttpMessages.TrailersCountTwice` is a request that is
  accepted once and refused when it comes again. `HttpMessages.ExactlyWhenAllTaken` is the exact condition.
- What a trailer says of the connection counts (`src/utility/http_parser.cpp:2060-2076`), but the client was told before it
  came: `HttpMessages.ToldWhatIsDone` says exactly when the two differ. A version such as 2.0 counts as one before 1.1
  (`HttpMessages.TwoIsBeforeOne`).
- Removing or popping the last event of the heap writes the slot one behind the end
  (`src/event/event.cpp:109`): `TimeoutHeap.Heap.BubbleDown` says that nothing else happens.
- A read or periodic event that is frozen while it is active is registered again when its handler returns
  (`src/event/reactor.cpp:221-317`): `Reactor.FrozenComesBack` is a run, `Reactor.FreezeHoldsUnlessActive` the condition.
- A job queued in the thread pool after the last shutdown token never runs: `ThreadPool.LateJobIsLeft` is a run,
  `ThreadPool.ShutdownRunsAllQueued` says exactly which jobs run.

## Model

| member | source | states |
|---|---|---|
| FreeList.NeverHandedOutTwice | include/dtc/concurrent/queue.hpp:1362-1441 | In the trace of any interleaving of any number of threads, two hand-outs of one node have an add of that node strictly between them |
| FreeList.ListIsSound | include/dtc/concurrent/queue.hpp:1362-1441 | In every interleaving the chain from freeListHead is finite and free of repetitions, and no node a caller owns is on it |
| FreeList.TakenNodeIsUnmarked | include/dtc/concurrent/queue.hpp:1376-1413 | The assert in try_get never fires: a node just taken does not have its should-be-on-list bit set |
| FreeList.NoNodeIsLost | include/dtc/concurrent/queue.hpp:1362-1441 | Once every call has returned, each node is either owned by a caller or on the chain, never both, and its reference word is 1 exactly if it is on the chain |
| FreeList.WordBounded | include/dtc/concurrent/queue.hpp:1362-1448 | The reference count never runs into the top bit nor out of the word, and a node somebody reads is counted |
| FreeList.AddAlonePushes | include/dtc/concurrent/queue.hpp:1362-1374 | With no other call in progress add puts the node at the front of the list |
| FreeListCalls.NullMeansEmpty | include/dtc/concurrent/queue.hpp:1376-1413 | In every interleaving, a try_get that returns null was under way at a time when the list was empty |
| FreeListCalls.GotWasTheHead | include/dtc/concurrent/queue.hpp:1376-1413 | In every interleaving, the node a try_get returns was the head at some time in the call, and a step of the call then made the next node the head |
| FreeListCalls.CallsEndAlone | include/dtc/concurrent/queue.hpp:1362-1441 | From every state a run has come to, a call in progress ends after at most 28 steps of its own if the others pause |
| FreeList.TryGetAlonePops | include/dtc/concurrent/queue.hpp:1376-1413 | With no other call in progress try_get returns the front of the list and removes it, and null exactly on an empty list |
| DequeueCounters.EachIndexClaimedOnce | include/dtc/concurrent/queue.hpp:1873-1969 | In every interleaving each index below headIndex was claimed by exactly one dequeue, single or bulk, and no other index by any |
| DequeueCounters.HeadNeverPassesTail | include/dtc/concurrent/queue.hpp:2157-2248 | headIndex never passes tailIndex, not even with all that has been granted and not yet fetched |
| DequeueCounters.OvercommitBelowBid | include/dtc/concurrent/queue.hpp:1876-1903 | The overcommit a consumer saw, however stale, is at most the optimistic count its own fetch_add returned |
| DequeueCounters.ClaimedItemsArePublished | include/dtc/concurrent/queue.hpp:1873-1969 | A range is published by the time it is claimed |
| DequeueCounters.QueueIsFifo | include/dtc/concurrent/queue.hpp:1873-1969 | The items handed out, in the order of the claims, are the first headIndex items published |
| DequeueCounters.CountsSettle | include/dtc/concurrent/queue.hpp:1873-1969 | With all consumers idle, the optimistic count less the overcommit is the number of items claimed |
| DequeueCalls.DequeueTakesItsShare | include/dtc/concurrent/queue.hpp:2157-2248 | In every interleaving a dequeue bids for what seems left, at most max; of its bid d, with count m before it, overcommit o and reloaded tail T, it takes n and gives back d - n, where n is d, or n > 0 and m - o + n is T, or n is 0 and T is at most m - o; it ends after at most six loads and updates |
| DequeueCounters.DequeueAloneTakes | include/dtc/concurrent/queue.hpp:2157-2248 | With settled counters a lone dequeue of at most max items takes exactly as many as there are |
| DequeueCounters.CircularLessThanIsLess | include/dtc/concurrent/queue.hpp:395-407 | For indices less than a whole range apart, comparing the wrapped values is comparing the indices exactly if their difference is above minus half the range and at most half |
| BinaryArchive.RoundTrip | include/dtc/archive/binary.hpp:63-177 | For every type built from scalars, strings, vectors, maps, sets, arrays, variants, optionals, unique pointers and tuples: reading an encoding followed by any bytes gives the value and leaves those bytes |
| BinaryArchive.EncodingsAreSelfDelimiting | include/dtc/archive/binary.hpp:227-453 | No encoding is a proper prefix of another of its type |
| Archivers.BinaryOutputArchiver.Archive | include/dtc/archive/binary.hpp:63-177 | Appends exactly the encoding to the output buffer and returns its length |
| Archivers.BinaryInputArchiver.Archive | include/dtc/archive/binary.hpp:227-453 | Reads the value from the front of the input buffer, leaves the bytes behind it, and returns the number of bytes consumed |
| Archivers.BinaryInputArchiver.ArchiveKeyed | include/dtc/archive/binary.hpp:270-335 | The loops that insert n entries: what the container holds is the first entry of each key |
| StreamBuffers.OutputStreamBuffer.Write | src/ipc/streambuf.cpp:103-146 | Keeps the unread bytes and appends the new ones; the capacity changes only if the bytes do not fit after compaction, and then to less than twice the need |
| StreamBuffers.OutputStreamBuffer.Sync | src/ipc/streambuf.cpp:154-161 | What leaves the buffer is a prefix of its bytes and is what reaches the device |
| StreamBuffers.OutputStreamBuffer.Flush | src/ipc/streambuf.cpp:53-61 | Whatever the device does, bytes in the buffer and bytes on the device together are what they were; success means that nothing is left |
| StreamBuffers.InputStreamBuffer.FromCopy | src/ipc/streambuf.cpp:177-197 | Holds the bytes of the output buffer, which is left alone |
| StreamBuffers.InputStreamBuffer.FromMove | src/ipc/streambuf.cpp:200-225 | Holds the bytes of the output buffer, with its chunk if it had one; the output buffer is left empty and local |
| StreamBuffers.InputStreamBuffer.MakeRoom | src/ipc/streambuf.cpp:300-330 | Whatever state the buffer is in, at least one slot is free before reading, and the unread bytes are kept |
| StreamBuffers.InputStreamBuffer.Compact | src/ipc/streambuf.cpp:306-330 | Moves fewer bytes than the consumed prefix it reclaims |
| StreamBuffers.InputStreamBuffer.Sync | src/ipc/streambuf.cpp:296-341 | Unread bytes and bytes on the device together are what they were; a device with bytes to give gets some through; all bytes ever moved are fewer than bytes consumed plus the capacity |
| StreamBuffers.InputStreamBuffer.Purge | src/ipc/streambuf.cpp:270-286 | Syncs until nothing more comes; no byte is lost, and success returns the number of bytes read |
| StreamBuffers.InputStreamBuffer.Drop | src/ipc/streambuf.cpp:367-372 | Discards as many of the unread bytes as asked for, if there are so many |
| Packager.BinaryOutputPackager.Pack | include/dtc/archive/binary.hpp:477-486 | Appends one frame, its true length in front, whatever the placeholder held before it was patched |
| Packager.BinaryInputPackager.Unpack | include/dtc/archive/binary.hpp:516-526 | Returns -1 and touches nothing until a whole frame is there; then reads its items and leaves what follows |
| Packager.WholeFrameDecodes | include/dtc/archive/binary.hpp:476-526 | A whole frame followed by any bytes is recognised and decodes to its message |
| Packager.PartialFrameWaits | include/dtc/archive/binary.hpp:516-526 | A proper prefix of a frame is never taken for a whole one |
| Channel.ReceivedIsPrefixOfSent | include/dtc/archive/binary.hpp:476-526 | For every schedule of partial writes and reads, and types that differ from message to message, the messages received are the first ones sent, in order |
| Channel.ReceiveTakesWholeFrames | include/dtc/archive/binary.hpp:516-526 | A receive takes the next message exactly if its whole frame has arrived, and otherwise changes nothing |
| Channel.EverythingArrives | include/dtc/archive/binary.hpp:476-526 | Once every byte is delivered, receiving yields every message sent and leaves no byte |
| Channel.Connection.Send | include/dtc/archive/binary.hpp:477-486 | Writing a message through the real packager and buffer is one step of the channel |
| Channel.Connection.SyncOut | src/ipc/streambuf.cpp:154-161 | Syncing the output buffer is a step that moves as many bytes as the device took |
| Channel.Connection.SyncIn | src/ipc/streambuf.cpp:296-341 | Syncing the input buffer is a step that moves as many bytes as the device gave |
| Channel.Connection.Receive | include/dtc/archive/binary.hpp:516-526 | Reading through the real packager is one receive of the channel |
| HttpExecute.RequestParser.Execute | src/utility/http_parser.cpp:634-2032 | The loop with its marks, inner loops and searches computes what the byte machine computes one byte at a time: the same parser, header count, callbacks and bytes consumed, and fails exactly where that fails |
| HttpExecute.RequestParser.EndOfLine | src/utility/http_parser.cpp:1468-1491 | The search for the end of a value with two memchr calls finds the first line break or stops at the limit |
| HttpStream.ByteSound | src/utility/http_parser.cpp:634-2032 | The assertions of the code hold before and after every byte |
| HttpFragments.CoarserIsAccepted | src/utility/http_parser.cpp:634-2032 | A stream accepted in some fragments is accepted, with the same result, in every coarser cutting |
| HttpFragments.FinestIsStrictest | src/utility/http_parser.cpp:634-2032 | A stream accepted one byte at a time is accepted, with the same result, in every cutting |
| HttpFragments.WholeIsMostTolerant | src/utility/http_parser.cpp:634-2032 | A stream accepted in some cutting is accepted, with the same result, in one piece |
| HttpRoundTrip.RequestsAreReadBack | src/webui/webui.cpp:53-157 | Printed keep-alive requests, one after the other and cut into any non-empty fragments, are queued as the same requests, if every one is taken |
| HttpRoundTrip.ExactlyWhenTaken | src/utility/http_parser.cpp:634-2032 | Every cutting is accepted if and only if each head fits the limit with characters of names and values counted twice and no value has a control character after its first |
| HttpRoundTrip.CutsMatterInNames | src/utility/http_parser.cpp:1343 | From the first byte on, after any request line: one stream accepted in one cutting and over the header limit in another |
| HttpRoundTrip.CutsMatterInValues | src/utility/http_parser.cpp:1459-1491 | The same for a control character, which is noticed only where a fragment begins |
| HttpServer.ReceiveRequests | src/webui/webui.cpp:89-157 | The parser object, fed any fragments of printed requests, ends with exactly those requests queued and has not thrown |
| HttpServer.ReceiveMessages | src/webui/webui.cpp:89-157 | The same for streams of any versions, in which some of the bodies are in chunks and the last message may close the connection |
| HttpConnection.ConnectionWalk | src/utility/http_parser.cpp:1414-1437 | The flags a Connection value leads to are those of the words an independent reading of the value finds in it |
| HttpConnection.MatchWalk | src/utility/http_parser.cpp:1555-1584 | A word is matched exactly as far as it agrees with its spelling in lower case |
| HttpTokens.WordsOfListsAreFound | src/utility/http_parser.cpp:1536-1611 | In a list of tokens with any spaces around them, a word is found if and only if some token that is looked at spells it: one whose comma is not swallowed by an odd number of broken-off words right before it, with no looked-at later token up to it that begins with an underscore |
| HttpTokens.WellSpelledIsLookedAt | src/utility/http_parser.cpp:1536-1611 | Every token is looked at if and only if no token but the last is a word broken off right before its comma and none but the first begins with an underscore |
| HttpTokens.CloseIsMissed | src/utility/http_parser.cpp:1555-1592 | In the value "k, close" the parser does not find close |
| HttpLengths.LengthsTaken | src/utility/http_parser.cpp:1399-1411 | The value of the first Content-Length is taken if and only if it is a digit followed by digits and spaces, and in range; the length is then what the digits stand for, and below the sentinel |
| HttpLengths.SpacedLengthIsTaken | src/utility/http_parser.cpp:1498-1506 | A value of 1, a space and 2 is taken for 12 |
| HttpLengths.ContentLengthIsExact | src/utility/http_parser.cpp:1498-1523 | A Content-Length of digits is taken exactly if it is in range, and its value is what the digits stand for |
| HttpLengths.SizesTaken | src/utility/http_parser.cpp:1875-1926 | A text without blank, semicolon and CR is taken for a chunk size if and only if each character is a hexadecimal digit or above 127 and the number, with a zero for each character above 127, is in range; it is the hexadecimal number of section 3.6.1 of RFC 2616 if and only if no character is above 127 |
| HttpLengths.UpperHalfIsTaken | src/utility/http_parser.cpp:224-237 | The character 128 begins a chunk size, as the digit 0 |
| HttpLengths.ChunkSizeIsExact | src/utility/http_parser.cpp:1875-1926 | A text of characters to which the table gives a value, those above 127 among them, is taken exactly if it is in range, with the value of its places |
| HttpValues.ValueEffect | src/utility/http_parser.cpp:1375-1437 | What a header value does to the flags and the length of the message |
| HttpValues.BadLine | src/utility/http_parser.cpp:1459-1462 | A line with a control character after the first of its value is refused one byte at a time |
| HttpWalk.RequestLineWalk | src/utility/http_parser.cpp:920-1179 | A printed request line is read as it was meant, one header byte per character |
| HttpTargets.ReadableTargets | src/utility/http_parser.cpp:486-632 | A URL is readable if and only if it is a slash or star and URL characters, or a scheme of letters, :// and a server of its characters without two @ in a row, with a path or a query behind it; for CONNECT, if it is such a server with what follows |
| HttpRefusals.MethodsTaken | src/utility/http_parser.cpp:920-1013 | A word is taken for the method if and only if it is the name of one, and for that one |
| HttpRefusals.RequestLineTaken | src/utility/http_parser.cpp:920-1179 | Three words make a request line if and only if they are the name of a method, a URL that it may carry, and a version |
| HttpRefusals.NamesTaken | src/utility/http_parser.cpp:1181-1358 | What stands before the colon of a header line is taken if and only if it is made of token characters |
| HttpValues.UnacceptableLine | src/utility/http_parser.cpp:1399-1411 | A Content-Length that is no number in range, or is the second one, is refused |
| HttpValues.FoldedLine | src/utility/http_parser.cpp:1641-1673 | An ordinary header on two lines has the text of both for its value |
| HttpHeads.HeadTaken | src/utility/http_parser.cpp:1181-1820 | A head of readable parts is taken if and only if it fits the limit, its values are clear, and it has neither two lengths nor a bad one nor a length with a chunked coding |
| HttpHeads.UpgradeLeaves | src/utility/http_parser.cpp:1708-1866 | However the stream is cut, a CONNECT, or a request that asks for another protocol in both headers, is queued, with its body if its headers give it a length, and nothing behind it is looked at; a CONNECT has no body whatever its headers say |
| HttpRoundTrip.HeadWalk | src/utility/http_parser.cpp:1181-1820 | A printed head of any version is taken exactly if it fits under the header limit, and reports that the connection is kept as its version and flags say |
| HttpRoundTrip.HeadersDecide | src/utility/http_parser.cpp:2060-2076 | The flags say that the connection is kept if and only if no Connection or Proxy-Connection value has close, from 1.1 on, or one has keep-alive, before |
| HttpChunks.BodyWalk | src/utility/http_parser.cpp:1875-1993 | A chunked body with its trailer is taken if and only if each size line and the trailer fit the header limit and the trailer has no control character where it matters and no bad or second length; the header bytes of the trailer stay counted, and its Connection lines have a say in whether other messages may follow |
| HttpMessages.MessagesAreReadBack | src/webui/webui.cpp:53-157 | From the first byte on, requests of any versions with a length, or in chunks with a trailer, one after the other in any mixture and in any fragments, are queued as they were meant, each once and with its whole body, if each is taken; keep_alive is set exactly if no Connection value has close, from 1.1 on, or one has keep-alive, before |
| HttpMessages.ExactlyWhenAllTaken | src/utility/http_parser.cpp:634-2032 | Every cutting of such a stream is accepted if and only if each message is taken with the header bytes counted that the trailer before it left, has no second length nor a length with a coding, and in strict mode every message but the last keeps the connection |
| HttpMessages.NothingAfterClose | src/utility/http_parser.cpp:711-719 | In strict mode, whatever follows a stream whose last message closes the connection, and however it all is cut, the requests are queued and the first byte other than CR and LF fails with CLOSED_CONNECTION |
| HttpMessages.ToldWhatIsDone | src/utility/http_parser.cpp:2060-2076 | What the client is told of the connection is what the parser does, unless the trailer asks for something else than the headers |
| HttpMessages.TrailersCountTwice | src/utility/http_parser.cpp:1711-1716 | A chunked request whose head just fits is accepted once, and refused the second time: the end of the trailer still counts |
| HttpRequests.HandleMerges | src/webui/webui.cpp:104-150 | Text delivered in two callbacks has the effect of text delivered in one |
| HttpUrl.ParseUrl | src/utility/http_parser.cpp:2283-2385 | The two loops with their 16-bit stores, and strtoul on a buffer that may go on behind the URL, compute the fields that a scan into parts gives, each offset and length reduced to 16 bits, and the port |
| HttpUrl.Delimiting | src/utility/http_parser.cpp:2299-2339 | A character of a URL leads to a delimiter or a field: the branch for an unexpected state is never reached |
| HttpUrlFields.StoredExactly | src/utility/http_parser.cpp:2114-2385 | The fields found are those of the URL if and only if every offset and length is below 65536 |
| HttpUrlFields.LongPathsWrapAround | src/utility/http_parser.cpp:2336-2352 | A path of 65536 characters is stored as empty, and a query after it as if it were the second character of the path |
| HttpUrlFields.ShortUrlsFit | src/utility/http_parser.cpp:2283-2385 | A URL of fewer than 65536 characters is stored as it is |
| HttpUrlFields.FieldsAreInOrder | src/utility/http_parser.cpp:2283-2385 | The fields lie inside the URL, are in the order of section 3 of RFC 3986, do not overlap, and hold the text that was scanned |
| HttpUrlFields.GapsAreDelimiters | src/utility/http_parser.cpp:2283-2385 | What is in no field is one of the delimiters : / ? # @ [ ] |
| HttpUrlFields.RejoinsExactly | src/utility/http_parser.cpp:2114-2385 | Joining the fields gives back the URL if and only if it has no ? without a query, no # without a fragment or before another #, and no @ without userinfo |
| HttpUrlFields.EmptyQueryIsLost | src/utility/http_parser.cpp:2283-2385 | The URL /a? is accepted, and its only field is /a |
| HttpUrlFields.PortsInBuffers | src/utility/http_parser.cpp:2370-2382 | The port is the number of its digits and, if it ends the URL, of the digits that follow in the buffer; the URL is refused exactly if that is above 65535 |
| HttpUrlFields.DigitBehindIsRead | src/utility/http_parser.cpp:2370-2382 | The port of h:1 with a 2 behind it in the buffer is 12 |
| HttpUrlPrinted.PrintedUrlsAreRead | src/utility/http_parser.cpp:2283-2385 | A URL written down from a scheme, userinfo, host by name or address, port, path, query and fragment is accepted, each field is set exactly if its part is there and holds it, and the port is its number |
| Scheduler.BestIsSmallest | src/kernel/scheduler.cpp:29-40 | An agent is chosen if any fits, and none that fits is smaller in every component |
| Scheduler.AssignConserves | src/kernel/scheduler.cpp:67-99 | What an agent has left and what was taken from it add up to what it had |
| Scheduler.RestoringIsExact | src/kernel/scheduler.cpp:49-52 | Giving back what was taken gives the agents exactly what they had |
| MasterBooks.ResourcesAreConserved | src/kernel/master.cpp:29-37 | In every run, what an agent has released and what the tasks on it take add up to its resource |
| MasterBooks.PlacementsAreHeld | src/kernel/scheduler.cpp:130-154 | In every run, a placement of a graph names an agent that is there and holds the task, and no other agent holds it |
| MasterBooks.NoTaskIsForgotten | src/kernel/master.cpp:121-144 | In every run, a task on an agent belongs to a graph that knows it is there, or was told to end |
| MasterBooks.WaitingGraphsRunNowhere | src/kernel/master.cpp:323-336 | In every run, a queued graph has a topology, no placement and no reports |
| MasterAnswers.FinishedGraphsAreAnswered | src/kernel/master.cpp:214-241 | The step in which the last task of a graph ends well sends its client one solution with exactly one report per container, and removes the graph |
| MasterAnswers.EverySolutionIsJustified | src/kernel/master.cpp:61-144 | Every solution of a run was sent at a step that justifies it |
| MasterAnswers.NoGraphIsAnsweredTwice | src/kernel/master.cpp:121-144 | No run sends two solutions for one graph, or one for a graph that is still there |
| MasterAnswers.EveryGraphIsAnswered | src/kernel/master.cpp:61-144 | In every run, each graph that was submitted is still there or was sent a solution, not both, and then one |
| MasterQueue.AdmittedGraphsStart | src/kernel/scheduler.cpp:19-157 | A graph is admitted if and only if the same agents, idle, would start it, and then each container gets the agent it was tried on |
| MasterQueue.QueueRunsInOrder | src/kernel/master.cpp:338-359 | The queue is emptied from the front only, graphs that are gone are skipped, and one left at the front cannot be assigned to what the agents have left |
| MasterRuns.QueueMoves | src/kernel/master.cpp:214-359 | Every message moves the queue only by adding the accepted graph behind and taking graphs from the front, which are started if they are still there; after one that brings resources or a graph, stale ones among them, the first graph left does not fit |
| MasterRuns.WaitingGraphsAreServed | src/kernel/master.cpp:214-359 | In every run the queue is the end of the list of accepted graphs in their order, and after every resource message, report and accepted topology it is empty or its first graph cannot be assigned to what the agents have left |
| MasterRuns.ResourcesAreAsReported | src/kernel/master.cpp:253-276 | An agent has the resource it reported, until it is lost |
| MasterRuns.TaskEndDecides | src/kernel/master.cpp:214-241 | A report takes its task off the agent; the graph goes on with one report more, or, with an error or its last task, ends and its client is sent all reports |
| MasterRuns.LostAgentsTakeTheirGraphs | src/kernel/master.cpp:61-85 | With an agent go exactly the graphs that had a task on it; the other agents and graphs stay as they are |
| MasterRuns.TopologyDecides | src/kernel/master.cpp:287-336 | A graph stays if and only if all of its containers can be assigned to what the agents have; otherwise its client is told that it does not fit |
| MasterNode.Node.TryEnqueue | src/kernel/scheduler.cpp:19-60 | The two loops decide whether all containers can be assigned, and leave the whole state as it was |
| MasterNode.Node.TryDequeue | src/kernel/scheduler.cpp:63-157 | The loops place every container or, failing that, leave the whole state as it was |
| MasterNode.Node.Dequeue | src/kernel/master.cpp:338-359 | The loop over the queue is the function the run theorems speak of, and it returns how many entries left |
| MasterNode.Node.OnResource | src/kernel/master.cpp:253-276 | A resource message is the step of the run model; one from an agent that is gone only starts what is queued |
| MasterNode.Node.OnTopology | src/kernel/master.cpp:287-336 | A topology message is the step of the run model: the graph is queued or removed; one for a graph that is gone does nothing |
| MasterNode.Node.OnTaskInfo | src/kernel/master.cpp:214-241 | A report is the step of the run model; one that arrives after its agent and its graph are gone only starts what is queued |
| MasterNode.Node.RemoveAgent | src/kernel/master.cpp:61-85 | The loss of an agent is the step of the run model; an unknown agent is ignored |
| MasterNode.Node.InsertAgent | src/kernel/master.cpp:88-106 | A new agent is entered without a resource, under a key of its own |
| MasterNode.Node.InsertGraph | src/kernel/master.cpp:152-167 | A new graph is entered without a topology, under a key of its own |
| MasterNode.Node.RemoveGraph | src/kernel/master.cpp:121-144 | Removing a graph kills the tasks that are still placed, sends what it has to report, and forgets the graph |
| Topologies.Extract | src/protobuf/topology.cpp:197-225 | The loops give exactly the piece of the container: the container, its vertices, and the streams that touch them; they throw exactly if the container or an end of a stream is missing |
| Topologies.CountInter | src/protobuf/topology.cpp:160-166 | The loop counts the streams with one end in the piece |
| Topologies.InterStreamsAreTwiceTheCut | src/protobuf/topology.cpp:138-166 | Over all pieces the inter-streams add up to twice the number of streams between containers |
| GraphTasks.TopologyIsWhole | src/kernel/graph.cpp:359-414 | Every vertex of a submitted topology is in one of its containers, and every container asks for something |
| GraphSettings.TopologyIsAsSet | src/kernel/graph.cpp:106-166 | In a submitted topology a vertex is in the container it was added to last, or in the spare one, which is there exactly if some vertex was added to none; a container asks for what was set last of each kind, and for 1 processor and 1 GB where nothing or zero was |
| GraphSettings.GraphIsAsSet | src/kernel/graph.cpp:32-97 | In the graph built locally, each vertex and stream has the last callback, tag, program and flag that was set for it, and none where nothing was |
| GraphTasks.LocalGraphIsAttached | src/kernel/graph.cpp:199-239 | Running the recorded tasks succeeds, and vertices and streams then point to each other |
| GraphTasks.PieceIsRemade | src/kernel/graph.cpp:342-353 | Running the recorded tasks against a piece builds the part of the local graph the piece has, and nothing else |
| GraphTasks.PiecesMakeTheGraph | src/kernel/graph.cpp:342-353 | Remaking the graph from all pieces and putting the halves together gives exactly the graph built locally |
| GraphTasks.EveryVertexIsRemadeOnce | src/kernel/graph.cpp:199-217 | A vertex is remade in the piece of its container, attached to all its streams, and in no other |
| GraphTasks.EveryEndIsRemadeOnce | src/kernel/graph.cpp:221-239 | A stream is attached to its tail in exactly the piece of the tail and to its head in exactly the piece of the head |
| GraphTasks.StreamKindsAreKept | src/protobuf/topology.cpp:125-157 | Which ends of a remade stream are set tells whether it is intra, outgoing or incoming, as the topology says |
| GraphKernel.Graph.NewVertex | src/kernel/graph.cpp:199-217 | Records the making of a vertex under a new key |
| GraphKernel.Graph.NewStream | src/kernel/graph.cpp:263-267 | Records the making of a stream under a new key |
| GraphKernel.Graph.NewContainer | src/kernel/graph.cpp:270-281 | Records the making of a container under a new key |
| GraphKernel.Graph.Record | src/kernel/graph.cpp:32-166 | A setting of a builder is recorded behind what it is for |
| GraphKernel.Graph.Make | src/kernel/graph.cpp:342-353 | Running the closures on real vertices and streams, in any of the three modes, is running the recorded tasks on values |
| GraphKernel.Graph.Topologize | src/kernel/graph.cpp:359-414 | The loops over the topology give what the specification of a submitted topology says |
| Rendezvous.NoStartedTaskIsAsked | src/kernel/agent.cpp:226-244 | In no order of messages does a frontier match a task that was started already, so the hatchery is always there |
| Rendezvous.EveryFrontierIsInOnePlace | src/kernel/agent.cpp:28-91 | At every moment each frontier whose reading task was made is in exactly one place: a packet, an agent's list, or one task |
| Rendezvous.StartedWithItsFrontiers | src/kernel/agent.cpp:76-91 | A task is started with exactly the frontiers of its streams to other tasks, not just as many |
| Rendezvous.EveryTaskIsStarted | src/kernel/agent.cpp:226-268 | Once all topologies of a graph are inserted and no packet of it is on its way, every task was started, or had all its frontiers and could not be deployed |
| Rendezvous.DoneHasAReason | src/kernel/agent.cpp:226-268 | A task that is done was started before, or could not be deployed when it held all its frontiers |
| Rendezvous.EveryTaskRuns | src/kernel/agent.cpp:226-268 | If no deployment fails, every task of a fully delivered graph is started at some point of the run |
| Rendezvous.ReadyMeansAll | src/kernel/agent.cpp:76-78 | A task that holds as many frontiers as it has inter-streams holds exactly those of its inter-streams |
| RendezvousNode.Node.InsertFrontier | src/kernel/agent.cpp:226-244 | The method on the fields of the agent is the step of the run model, whether the task can be deployed or not |
| RendezvousNode.Node.InsertTask | src/kernel/agent.cpp:252-268 | The method on the fields of the agent is the step of the run model, for every order std::partition may leave, and returns false exactly if the task is ready and cannot be deployed |
| RendezvousNode.Node.Splice | src/kernel/agent.cpp:86-91 | Whatever order std::partition leaves the waiting frontiers in, those that match go to the front of the list of the task, and the others stay |
| RendezvousNode.NewTask | src/kernel/agent.cpp:28-73 | A new task has one frontier for each incoming stream |
| TimeoutHeap.Heap.Insert | src/event/event.cpp:61-65 | Adds the event, unless it is there; heap order holds and each satellite is the position of its event |
| TimeoutHeap.Heap.Remove | src/event/event.cpp:42-58 | Takes out exactly the event, wherever it is, and sets its satellite to -1 |
| TimeoutHeap.Heap.Pop | src/event/event.cpp:68-78 | Takes out an event that no other is due before |
| TimeoutHeap.Heap.BubbleDown | src/event/event.cpp:99-110 | Called one place behind the end, it writes that slot and leaves the heap as it is |
| TimeoutHeap.Heap.Clear | src/event/event.cpp:34-39 | Empties the heap and sets every satellite to -1 |
| TimeoutHeap.RootIsFirst | src/event/event.cpp:86-110 | No event of a heap is due before its first |
| TimeoutHeap.PollTimeoutEvents | src/event/reactor.cpp:321-334 | Hands to the workers exactly the events due by the time of synchronization, in the order of their times; all others stay |
| Reactor.NoHandlerRunsTwice | src/event/reactor.cpp:68-334 | In every run a registered event is in the event set, and an event is registered, running or on its way back, in one of these and once at most |
| Reactor.RemovedStaysOut | src/event/reactor.cpp:115-149 | Once _remove has returned true, no later step registers or activates the event |
| Reactor.FreezeHoldsUnlessActive | src/event/reactor.cpp:68-112 | A frozen read or periodic event can become registered without a thaw if and only if it was active when it was frozen |
| Reactor.FrozenComesBack | src/event/reactor.cpp:221-317 | A run from the start in which an event is frozen while its handler runs and registered when it has returned |
| ReactorLives.NoEventIsLost | src/event/reactor.cpp:68-317 | In every run an event that was asked for is about to come in, in, or removed; while it is in and was not left asleep by a freeze, or by being for writing, it is registered, running, on its way back or about to be removed |
| ReactorLives.RemovalIsCarriedOut | src/event/reactor.cpp:239-305 | After a handler has returned REMOVE, or that of a one-shot timer has returned, the removal waits to be carried out or the event is out, whatever follows |
| ReactorLives.TimerFiresOnce | src/event/reactor.cpp:276-284 | In every run a one-shot timer that is not thawed fires once at most |
| ReactorNode.Node.Freeze | src/event/reactor.cpp:68-88 | The method on the event set, the heap and the demultiplexer is the step of the run model |
| ReactorNode.Node.Thaw | src/event/reactor.cpp:91-112 | The method on the fields is the step of the run model |
| ReactorNode.Node.Remove | src/event/reactor.cpp:115-149 | The method on the fields is the step of the run model, and returns whether the event was in |
| ReactorNode.Node.Activate | src/event/reactor.cpp:221-317 | Starting a handler is the step of the run model |
| RingBuffer.PoppedIsPrefixOfPushed | include/dtc/concurrent/fifo.hpp:73-109 | In every interleaving of the loads and stores, with stale values of the other index, what is popped is a prefix of what was pushed and at most C-1 items are held |
| RingBuffer.NoSlotIsShared | include/dtc/concurrent/fifo.hpp:73-109 | The slot being written is never the slot being read |
| RingBuffer.RefusedOnlyWhenDue | include/dtc/concurrent/fifo.hpp:73-97 | A push that sees the latest head is refused exactly with C-1 items held, a pop that sees the latest tail exactly with none |
| RingBuffer.SizeAndCapacity | include/dtc/concurrent/fifo.hpp:61-70 | The size is the number of items held, and size and capacity add up to C-1 |
| RingBuffer.LoneCalls | include/dtc/concurrent/fifo.hpp:73-109 | From any reachable state, a push that is left alone adds its item behind, unless C-1 are held, and a pop delivers the first item held, unless there is none |
| RingBuffer.OnlyAskedIsPushed | include/dtc/concurrent/fifo.hpp:73-83 | What was pushed are items given to push, in the order of the calls and each at most once |
| ThreadPool.ShutdownRunsAllQueued | include/dtc/concurrent/threadpool.hpp:104-233 | When shutdown is back, each worker has stopped on one token of its own, and the jobs that ran, each once, are exactly those queued before the last token |
| ThreadPool.LateJobIsLeft | include/dtc/concurrent/threadpool.hpp:158-233 | A run with one worker in which a job queued after the token is left in the queue |
| ThreadPool.ShutdownReturns | include/dtc/concurrent/threadpool.hpp:218-233 | Once the tokens are posted, every run of the workers and the join ends, and nowhere but in the return of shutdown |
| ThreadPool.EveryJobHandedInRuns | include/dtc/concurrent/threadpool.hpp:158-233 | A job given to async before the last token is posted gets a number of its own, and has run once when shutdown is back |

## Left out

- FreeList.NeverHandedOutTwice: memory orders weaker than sequential consistency are not modelled, here and in the other protocols.
- DequeueCounters.QueueIsFifo: the item of an index is taken to be `items[index]`; the blocks and the index of blocks through which the code finds it are not modelled, nor are several producers, or producers of the implicit kind apart from the explicit one.
- DequeueCounters.CircularLessThanIsLess: the protocol itself is modelled with unbounded indices.
- BinaryArchive.RoundTrip: the counts that both archivers return are stated by `Archivers`, not here; scalars are words of a fixed number of bytes, so that floating point is covered as bytes only; the Eigen branches are absent; of an unordered container only the set of items is the same after reading, since its order of iteration is not fixed.
- Archivers.BinaryInputArchiver.Archive: bytes that are no encoding of the type are excluded, as the code reads on past what is there.
- Packager.BinaryInputPackager.Unpack: a whole frame that holds no values of the types asked for is excluded, for the same reason.
- StreamBuffers.InputStreamBuffer.Sync: allocation does not fail; sizes stay below a limit under which the arithmetic of the code does not wrap.
- Channel.EverythingArrives: a device loses, repeats or reorders nothing; the locks of the buffers make each call one step.
- HttpExecute.RequestParser.Execute: requests only; callbacks that fail or pause, and the callbacks the web server leaves unset, are not modelled; fragments are shorter than 2^32 bytes. Where the byte machine fails, the object fails, with an error number that may differ.
- HttpRoundTrip.RequestsAreReadBack: bodies with a Content-Length or none; `HttpMessages.MessagesAreReadBack` has chunked ones too. A value that begins with a blank or holds a line break is not promised, as the printed text does not tell it from another. Requests that close the connection are in `HttpMessages`. CONNECT requests, and those that upgrade, are in `HttpHeads.UpgradeLeaves`, but for upgrades with a chunked body, which are not promised.
- HttpRoundTrip.ExactlyWhenTaken: for the same requests.
- HttpServer.ReceiveRequests: for the same requests.
- HttpMessages.MessagesAreReadBack: header names are distinct, the trailer's among them, as equal names share one entry of a request.
- HttpTokens.WordsOfListsAreFound: lists of nonempty tokens with spaces around them; `HttpConnection.ConnectionWalk` covers every other value.
- HttpUrlFields.PortsInBuffers: URLs of fewer than 65536 characters.
- MasterBooks.ResourcesAreConserved: an agent reports its resource once, a task ends once and is reported by its agent; CPU bins, the web interface and the host names sent along with a piece are absent.
- MasterQueue.AdmittedGraphsStart: the order of iteration over agents and containers is the same both times.
- MasterNode.Node.TryDequeue: pieces are extracted and sent by worker threads in the code; what is sent is `Topologies.Extract`.
- MasterNode.Node.OnTaskInfo: a report from an agent that is there is about a task it holds, which it does after reporting its resource; one from an agent that is gone is about a graph that is gone.
- MasterNode.Node.OnResource: an agent that is there reports once.
- MasterNode.Node.OnTopology: a graph that is there gets one topology.
- Topologies.Extract: the runtime variables of a topology and the host lists of its containers are absent.
- GraphTasks.PiecesMakeTheGraph: a callback is a value that is not run; a placeholder is replaced by the key it holds before a stream is recorded; keys come from a counter per graph, not from one shared by the process.
- Rendezvous.EveryTaskIsStarted: no agent or connection fails, and a task is not killed while it waits; the sockets that frontiers carry are names.
- TimeoutHeap.PollTimeoutEvents: at least one worker, so that handing over an event is its entry in the list of fired events; without workers the handler runs at once and may insert an event that is due as well.
- TimeoutHeap.Heap.BubbleDown: the slot behind the end is part of the array in the model, as it is of the capacity of the vector.
- Reactor.NoHandlerRunsTwice: one event per descriptor and direction, and no thaw of an active event by its user; without those two conditions it does not hold. Sockets, epoll, select and the wake-up pipe are absent.
- RingBuffer.PoppedIsPrefixOfPushed: the array slots are copied; moving from a slot is not told apart from copying it.
- ThreadPool.ShutdownReturns: every job ends, and the condition variable wakes a worker when the queue is not empty; jobs that queue further jobs meanwhile only make the run longer.
- HTTP responses and their printing, JSON, logging, tables, the machine learning library and the examples.
- Namespaces, control groups, signals, files and processes: system calls.
