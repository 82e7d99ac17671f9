# The packet filter's proxy client, modelled and proved

`netfilter/` redirects an application's traffic through a SOCKS proxy: UDP through a SOCKS5 UDP ASSOCIATE client on an
I/O completion port, TCP through a SOCKS4 CONNECT, with a UTF-8 codec, an intrusive list and a thread pool beside
them. This project models that code in Dafny and proves what it keeps over every run.

## The UDP proxy

`Socks` has the messages of sections 3, 4, 6 and 7 of RFC 1928 and section 2 of RFC 1929 as the program writes and
reads them. `Operations` has the overlapped operations as memory cells that are allocated, armed, posted, handled and
deleted. `ProxyModel` gives each stretch of code of `UDPProxy.cpp` as a function on states; Winsock is an oracle that
accepts a call, or rejects it and takes the posted completion, or refuses both, for any sequence of outcomes.
`ProxyInvariant` states the invariant that ties operations, connections, queues and the traces on both sockets
together; `ProxySteps` proves that every step keeps it, and `ProxyHistory` what a step may change at all.
`ProxyCompletions` says in the bytes that arrive what each completion does, up to whole handshakes.
`Proxy.UDPProxy` is the class itself with `m_ovDataSet` and `m_socketMap`, its handlers written statement by
statement, each proved to compute the function of the model and, for the handlers, to keep the invariant; memory is a
map from allocated cells, so that each access is also a proof that nothing deleted is used.

`Session` puts the event handler on top and interleaves the driver thread, the completion worker and the stopping
thread, a step being one locked block or one stretch that touches no shared data. `SessionProof` proves the invariant
over all runs, `SessionHistory` what a step does to one endpoint; `SessionTheorems` has the results about the proxy and
the maps, `SessionFates` those about each datagram the application sends, `SessionReading` that what comes back is read,
and `SessionWitness` runs that lose a datagram.
`EventHandler.EventHandler` is the UDP part of `NFEventHandler.cpp` calling the class above, which calls back the
contexts of `Contexts.Contexts`; each of its callbacks is proved to be a run of `Session`.

What the theorems assume of the surroundings: the driver delivers one event at a time, never for an endpoint it has
closed, and none once stopping has begun (`netfilter/include/nfapi.h`, line 306, gives it one thread).

`LockOrder` and `ThreadPrograms` have the two locks: `lock`, which its owner may not take again, and `m_cs`, which it
may; and the stop event.

## The rest

`TcpStream` has the TCP side of `NFEventHandler.cpp` with the history of each endpoint. `Utf8` has the codec of
`UTF-8.h`, for `wchar_t` of two and of four bytes, against a reference that writes a character as digits in base 64.
`LinkedList` has the macros of `linkedlist.h` on heap nodes against sequences, and `ThreadPool` the workers and events
of `threadpool.h`.

## What is false of the code

Some claims one would like to make do not hold, and the exact condition is proved instead.

- Credentials are understood only up to 255 bytes and with a password (`Socks.UserPassUnderstood`): each length is cut
  to a byte, and an empty password is sent with length zero.
- The relay's port is read beyond the checked length, from whatever the buffer held (`Socks.ReplyWhole`).
- A received datagram shorter than its header is handed on with a negative length (`Socks.LengthSound`,
  `Socks.ShortDatagramDelivered`).
- An empty datagram has no header on the wire (`Socks.FramingRoundTrip`), and before the relay is connected udpSend
  returns true for it and does nothing (`ProxyHistory.EmptyDropped`).
- A datagram the relay socket refuses is posted directly only if udpSend found the relay connected; one that had been
  queued is lost (`SessionFates.RefusedFrame`, and a run that shows it, `SessionWitness.FlushLoses`).
- So is a datagram that still waits when its connection goes, though udpSend returned true for it
  (`SessionWitness.FailedConnectLoses`). There is no other way to lose one (`SessionFates.LostExactly`).
- What an IPv6 connection sends before its first answer is dropped, as is what a connection sends that is closed before
  one (`TcpStream.StreamKept`); a SOCKS4 request goes out for every buffer before the first answer.
- Announcements of jobs merge (`ThreadPool.AnnouncementsMerge`).

## Model

| member | source | states |
|---|---|---|
| `Utf8.RoundTrip` | netfilter/UTF-8.h:98-199 | for either width of wchar_t, decoding what was encoded gives every text back with surrogates, FFFE, FFFF and units from 80000000 up replaced by FFFD |
| `Utf8.RoundTripExactly` | netfilter/UTF-8.h:8-17 | a text comes back unit by unit, unchanged below D800, from E000 to FFFD and from 10000 to 7FFFFFFF, as FFFD otherwise: unchanged as a whole if and only if all its units are in these ranges |
| `Utf8.EncodeSanitized` | netfilter/UTF-8.h:8-17 | replacing such units beforehand makes no difference to the encoding |
| `Utf8.NormalizationIdempotent` | netfilter/UTF-8.h:98-199 | decoding any bytes and encoding again is a normal form: doing it twice changes nothing more |
| `Utf8.SelfSynchronising` | netfilter/UTF-8.h:105-196 | whatever bytes stand in front, a well-formed text after them is decoded completely, and the bytes in front cost at most one unit each |
| `Utf8.StopsAtBoundary` | netfilter/UTF-8.h:148-172 | a unit begun before a byte that can start a character never takes that byte |
| `Utf8.DecodeEncodedChar` | netfilter/UTF-8.h:111-187 | one encoded character, whatever follows it, decodes to that character and takes exactly its own bytes |
| `Utf8.OrderPreserved` | netfilter/UTF-8.h:19-94 | bytewise order of encodings is order of the sanitised code units (section 1 of RFC 2279) |
| `Utf8.Injective` | netfilter/UTF-8.h:83-94 | two texts have the same encoding if and only if they agree after sanitising |
| `Utf8.EncodedForm` | netfilter/UTF-8.h:19-80 | the encoding of such a unit is a complete sequence, by the byte ranges of section 2 of RFC 2279, that carries that very number |
| `Utf8.ShortestForm` | netfilter/UTF-8.h:19-80 | every other complete sequence carrying it is longer: the encoder never writes an overlong form |
| `Utf8.EncodedLength` | netfilter/UTF-8.h:19-80 | at least one byte a unit, at most three for two-byte and six for four-byte wchar_t |
| `Utf8.FirstByte` | netfilter/UTF-8.h:19-80 | the first byte of an encoding is never a continuation byte, FE or FF |
| `Utf8.Complete` | netfilter/UTF-8.h:115-182 | a complete sequence of up to six bytes, by literal byte ranges, decodes to the number its data bits make up and takes all its bytes; with two-byte wchar_t one of four bytes or more is FFFD |
| `Utf8.CutShort` | netfilter/UTF-8.h:143-172 | a sequence cut short, at the end of the string or by a byte that continues nothing, is FFFD, with exactly the bytes it takes |
| `Utf8.BeginsNothing` | netfilter/UTF-8.h:111-192 | FE, FF and a stray continuation byte are FFFD and take one byte |
| `Utf8.UnitOrReplaced` | netfilter/UTF-8.h:111-192 | for all bytes: the unit in front is FFFD or the number of a complete sequence, of at most three bytes for two-byte wchar_t and six for four-byte |
| `Utf8.EncodeUTF8Char` | netfilter/UTF-8.h:4-81 | the branches with their shifts and masks append the encoding section 2 of RFC 2279 defines by digits in base 64 |
| `Utf8.EncodeWideForm` | netfilter/UTF-8.h:42-80 | the forms of four to six bytes, which only a four-byte wchar_t reaches, append the encoding too |
| `Utf8.EncodeUTF8` | netfilter/UTF-8.h:83-94 | the loop yields the reference encoding of the whole text |
| `Utf8.LeadByte` | netfilter/UTF-8.h:124-139 | the bit-counting loop finds the number of continuation bytes the lead byte announces and the mask of its data bits |
| `Utf8.ContinuationBytes` | netfilter/UTF-8.h:148-172 | the inner loop accumulates all announced continuation bytes or gives FFFD and stands just before the first byte that is none, or on it when it is FE or FF |
| `Utf8.DecodeAt` | netfilter/UTF-8.h:105-192 | one round of the decoder yields the unit Complete, CutShort and BeginsNothing say, stays inside the string and advances although it backs up its index |
| `Utf8.DecodeUTF8` | netfilter/UTF-8.h:98-199 | the whole decoder computes the reference decoding for all byte strings |
| `Socks.UserPassUnderstood` | netfilter/UDPProxy.cpp:51-63 | a server of section 2 of RFC 1929 reads the configured credentials from the request if and only if the user name has at most 255 bytes and the password 1 to 255 |
| `Socks.GreetingUnderstood` | netfilter/UDPProxy.cpp:193-206 | a server of section 3 of RFC 1928 is offered no authentication without a user name and the password exchange alone with one |
| `Socks.AssociateUnderstood` | netfilter/UDPProxy.cpp:70-83 | a server of section 4 reads UDP ASSOCIATE, command 3, from an address and port not known yet |
| `Socks.ReplyUnderstood` | netfilter/UDPProxy.cpp:115-147 | of a whole success reply the program keeps family and port, with the address of the proxy, whatever the buffer held before |
| `Socks.ReplyWhole` | netfilter/UDPProxy.cpp:117-142 | the check of five bytes does not cover the port: the relay is the one of the reply, for every earlier content of the buffer, if and only if the reply has arrived whole |
| `Socks.RelayAt` | netfilter/UDPProxy.cpp:115-147 | the relay is at the address in the sockaddr of the proxy, with the port of the reply |
| `Socks.FramingRoundTrip` | netfilter/UDPProxy.cpp:226-254 | unframing what was framed returns family, address, port and payload, for IPv4 and IPv6 and every earlier content of the buffer, if and only if the payload is not empty (section 7 of RFC 1928) |
| `Socks.FrameUnderstood` | netfilter/UDPProxy.cpp:426-454 | a relay of section 7 of RFC 1928, reading the reserved bytes, the fragment number, an address of type 1 or 4, port and data, gets the datagram back from its frame if and only if the payload is not empty |
| `Socks.UdpReplyUnderstood` | netfilter/UDPProxy.cpp:226-254 | whatever such a relay sends, empty data included, is handed on with its sender, data and length |
| `Socks.HandedOn` | netfilter/UDPProxy.cpp:226-254 | exactly what has at least five bytes and address type 1 or 4 is handed on |
| `Socks.FrameInjective` | netfilter/UDPProxy.cpp:426-454 | two non-empty datagrams have one frame if and only if they are the same datagram |
| `Socks.LengthSound` | netfilter/UDPProxy.cpp:226-253 | the length handed on is the length of the payload if and only if the datagram covers its header, and negative otherwise |
| `Socks.ShortDatagramDelivered` | netfilter/UDPProxy.cpp:226-240 | a five-byte datagram is handed on with length -5 |
| `Proxy.UDPProxy.BuildFrame` | netfilter/UDPProxy.cpp:426-454 | the program's filling-in of the header yields the frame the framing lemmas are about |
| `Proxy.UDPProxy.ParseDatagram` | netfilter/UDPProxy.cpp:226-254 | the program's reading of a received datagram is the unframing those lemmas are about |
| `Operations.StartOk` | netfilter/UDPProxy.cpp:484-621 | starting an operation in any way, with any outcome, keeps: one completion for each allocated cell and none for any other address; full-size buffers wherever data can arrive; one reader for each socket |
| `Operations.NewReceiveOk` | netfilter/UDPProxy.cpp:534-583 | a new receive keeps this when its socket is not being read |
| `Operations.NewSendOk` | netfilter/UDPProxy.cpp:585-621 | a send keeps this, also when it is rejected and retagged as a receive with an emptied buffer, and when the posting is refused too |
| `Operations.NewConnectOk` | netfilter/UDPProxy.cpp:502-532 | a connect keeps this, started or not |
| `Operations.TakeOk` | netfilter/iocp.h:86-110 | so does the worker taking a completion, data being written to a receive's buffer |
| `Operations.ReleaseOk` | netfilter/UDPProxy.cpp:173-214 | so does the end of a handler, arming the cell again or deleting it |
| `Operations.HeldOnce` | netfilter/UDPProxy.cpp:484-500 | the cell being handled is allocated and has no other completion to come |
| `ProxySteps.StartDrop` | netfilter/UDPProxy.cpp:200-213 | deleting the operation in hand and starting another can be swapped, so the deletion at the end of the connect handler could come first |
| `ProxyInvariant.SendFrameOk` | netfilter/UDPProxy.cpp:420-481 | one WSASendTo gives the first unsent datagram's frame to the relay, which the log shows with its outcome, and keeps the invariant while flushing |
| `ProxyInvariant.FlushOk` | netfilter/UDPProxy.cpp:154-164 | the flush loop, which enters udpSend again, ends with an empty queue and as many frames given to the socket as datagrams submitted, relay and state unchanged |
| `ProxyInvariant.SendThenOk` | netfilter/UDPProxy.cpp:60-112 | a handshake message is on the wire and the state moved on if the socket takes it, and neither otherwise; the messages on the wire stay the ones the state stands for |
| `ProxyInvariant.TcpReplyOk` | netfilter/UDPProxy.cpp:29-171 | any reply in any state, of any length and content, keeps the invariant |
| `ProxyInvariant.RelayKnown` | netfilter/UDPProxy.cpp:154-164 | learning the relay's address, connecting and flushing keep the invariant and settle the queue |
| `ProxyInvariant.UdpSlotFree` | netfilter/UDPProxy.cpp:474-478 | as long as udpRecvStarted is unset no operation reads the UDP socket |
| `ProxySteps.InsertOk` | netfilter/UDPProxy.cpp:337-345 | a new connection keeps the invariant when an earlier attempt left nothing behind |
| `ProxySteps.RegisterOk` | netfilter/UDPProxy.cpp:347-354 | registering and connecting keep it and leave every connection as it was |
| `ProxySteps.EraseOk` | netfilter/UDPProxy.cpp:376-387 | deleting a connection keeps it, its operations living on |
| `ProxySteps.SubmitOk` | netfilter/UDPProxy.cpp:389-482 | so does udpSend, before and after the relay is connected |
| `ProxySteps.SendIgnoresQueue` | netfilter/UDPProxy.cpp:420-481 | what a direct send does is what sending from a queue of one does |
| `ProxySteps.TakeStepOk` | netfilter/iocp.h:86-110 | so does taking a completion |
| `ProxySteps.ConnectedOk` | netfilter/UDPProxy.cpp:191-211 | a connect that succeeded sends the greeting first, and moves the state on exactly when the socket takes it; then the TCP stream is read unless that receive is refused outright |
| `ProxySteps.ConnectedDrop` | netfilter/UDPProxy.cpp:193-213 | the deletion of the connect commutes with all of that |
| `ProxySteps.BodyOk` | netfilter/UDPProxy.cpp:19-259 | every handler keeps the invariant and leaves its operation in hand or deleted |
| `ProxySteps.BodyHand` | netfilter/UDPProxy.cpp:182-214 | exactly the connect that succeeded is deleted inside its locked block |
| `ProxySteps.FinishOk` | netfilter/UDPProxy.cpp:173-174 | arming again or deleting keeps the invariant and leaves nothing in hand |
| `ProxySteps.HandleOk` | netfilter/UDPProxy.cpp:5-17 | a whole handler keeps the invariant, whichever it is |
| `ProxyHistory.BodyMoves` | netfilter/UDPProxy.cpp:19-259 | a handler changes nothing but the connection and the log of its operation's id, and that connection only forwards |
| `ProxyHistory.SubmitMoves` | netfilter/UDPProxy.cpp:389-482 | udpSend changes nothing of other endpoints; wire traces only grow |
| `ProxyHistory.SubmitEffect` | netfilter/UDPProxy.cpp:396-481 | one udpSend does nothing, or adds one datagram to queue and log, or logs one datagram with its WSASendTo, and its result says which |
| `ProxyHistory.EmptyDropped` | netfilter/UDPProxy.cpp:404-416 | udpSend returns true and has done nothing if and only if the connection exists, is not connected, and the datagram is empty |
| `ProxyHistory.FlushMoves` | netfilter/UDPProxy.cpp:154-164 | flushing leaves other endpoints alone and keeps relay and state |
| `ProxyHistory.FinishMoves` | netfilter/UDPProxy.cpp:173-174 | arming again touches no connection and no log |
| `ProxyCompletions.TakeEffect` | netfilter/iocp.h:86-110 | the completion taken is in hand and nowhere else, a receive's data is at the front of its buffer with the rest of the buffer as it was, and nothing else has changed |
| `ProxyCompletions.ReplyDecides` | netfilter/UDPProxy.cpp:29-171 | for every state, in literal bytes: exactly the replies 5 and any method, then 1 0, then 5 0 with address type 1 or 4, long enough each, move the connection on, provided the socket takes the message they ask for; the message and the next state; every other reply, a refused password or request among them, leaves all connections and logs as they were |
| `ProxyCompletions.PasswordHandshake` | netfilter/UDPProxy.cpp:29-211 | for every user name and password, with socket calls accepted: the replies 5 2, then 1 0, then a success reply lead to a connected relay at the proxy's address and the reply's port, and the server was told the greeting, the credentials and the request |
| `ProxyCompletions.OpenHandshake` | netfilter/UDPProxy.cpp:29-211 | if the server chooses no authentication the replies 5 0 and a success reply do, and it was told the greeting and the request |
| `ProxyCompletions.MessageGiven` | netfilter/UDPProxy.cpp:585-621 | the bytes the log shows as said are those the kernel is given to send; a send that is rejected leaves an empty receive posted, or nothing |
| `ProxyCompletions.FrameGiven` | netfilter/UDPProxy.cpp:456-481 | so are those shown as sent to the relay, and the first frame that is accepted starts a read of the UDP socket |
| `ProxyCompletions.RearmedExactly` | netfilter/UDPProxy.cpp:173-258 | a TCP or UDP receive that brought data is there again afterwards, the same operation with its buffer of 65536 bytes and its next completion with the kernel or posted; it is gone if and only if nothing arrived or both were refused |
| `ProxyCompletions.SendDone` | netfilter/UDPProxy.cpp:177-180 | the completion of a send deletes its operation and does nothing else |
| `ProxyCompletions.DatagramHandedOn` | netfilter/UDPProxy.cpp:220-254 | the completion of a UDP receive hands on what section 7 of RFC 1928 says the bytes are, once, and changes no connection and no log |
| `ProxyCompletions.ConnectSucceeded` | netfilter/UDPProxy.cpp:191-211 | a connect that succeeded says 5 1 and the method, with the state moving on if the socket takes it, and has the TCP stream read by a new operation |
| `ProxyCompletions.ConnectOrphaned` | netfilter/UDPProxy.cpp:191-213 | one whose connection is gone is only deleted |
| `ProxyCompletions.ConnectFailed` | netfilter/UDPProxy.cpp:184-189 | one that failed takes its connection out of the map, and only that |
| `ProxyCompletions.RegisterDecides` | netfilter/UDPProxy.cpp:347-374 | a connect is started if and only if both registrations and ConnectEx are accepted; otherwise no operation is left for it |
| `ProxyCompletions.SubmitDecides` | netfilter/UDPProxy.cpp:389-482 | udpSend fails without a connection, queues or drops before the relay is known, and afterwards gives the frame to the kernel and succeeds if and only if the socket accepts it |
| `SessionProof.StepOk` | netfilter/NFEventHandler.cpp:49-222 | every step of driver, worker and stopping thread keeps the invariant over proxy, contexts, thread positions and fates |
| `SessionProof.SubmitFates` | netfilter/NFEventHandler.cpp:217-221 | a datagram gets one fate and it is the one its log entry and the direct postings show |
| `SessionProof.WorkerMoved` | netfilter/UDPProxy.cpp:182-189 | a change of one endpoint that has an operation keeps fates, both maps and the driver's position in order; the worker's steps are such changes by BodyMoves |
| `SessionProof.RegisterFails` | netfilter/UDPProxy.cpp:502-532 | a connect that could not be started leaves no operation behind |
| `SessionProof.ShutdownOk` | netfilter/UDPProxy.cpp:301-316 | free deletes every operation that is left, none a second time, and every connection |
| `SessionTheorems.Ownership` | netfilter/UDPProxy.cpp:484-500 | in every run: an address is an operation's if and only if exactly one completion for it is to come or in hand; each address given out is allocated or was deleted once; after free all were |
| `SessionTheorems.BuffersReal` | netfilter/UDPProxy.cpp:220-258 | in every run, a completion with data, and a receive with the kernel, have a buffer of PACKET_SIZE; an emptied buffer is never read or armed |
| `SessionTheorems.OneReader` | netfilter/UDPProxy.cpp:210-211 | in every run at most one operation connects or reads a connection's TCP stream and at most one reads its UDP socket |
| `SessionReading.UdpRead` | netfilter/UDPProxy.cpp:216-258 | in every run an endpoint that has started reading its UDP socket has an operation that reads it or is about to again, unless a read brought nothing, or could not be started again, or the first could not be started |
| `SessionReading.PostedOn` | netfilter/NFEventHandler.cpp:58-68 | in every step what a UDP receive brought is posted to the application, in the bytes that came, for an endpoint with a context; nothing else is posted from the proxy |
| `SessionTheorems.Fifo` | netfilter/UDPProxy.cpp:398-461 | in every run the frames given to WSASendTo and then those of the queue are the frames of all submitted datagrams: no loss, no duplicate, no reordering |
| `SessionTheorems.FifoGone` | netfilter/UDPProxy.cpp:154-164 | and of any endpoint, its connection gone or not, between locked blocks either none of the submitted datagrams was given to the socket or all were, in order |
| `SessionTheorems.ScriptGone` | netfilter/UDPProxy.cpp:35-169 | of any endpoint, its connection gone or not, the TCP socket accepted a beginning of the handshake, user name and password only for a non-empty user name |
| `SessionTheorems.StateOnTheWire` | netfilter/UDPProxy.cpp:35-169 | in every run the messages the TCP socket accepted are the ones the state stands for, user name and password only for a non-empty user name; a connect to come means nothing was said |
| `SessionTheorems.SettledRelay` | netfilter/UDPProxy.cpp:154-164 | in every run, between locked blocks, a connected relay has an address, an empty queue and all its frames sent there; before that nothing is sent or read and the queue is all that was submitted |
| `SessionTheorems.OnlyForward` | netfilter/UDPProxy.cpp:65-154 | no step takes a connection's state back, changes a learnt relay or unsets udpRecvStarted |
| `SessionTheorems.TwoMaps` | netfilter/NFEventHandler.cpp:185-215 | in every run an id in m_socketMap is in m_udpCtxMap or being created, and a closed one is in neither |
| `SessionTheorems.SilentAfterClose` | netfilter/NFEventHandler.cpp:58-68 | after udpClosed has returned nothing more reaches the application for that endpoint, whatever the worker was doing |
| `SessionFates.OneFateEach` | netfilter/NFEventHandler.cpp:205-222 | in every run each datagram the application sent has exactly one fate, in order, but the one being sent |
| `SessionFates.FatesShown` | netfilter/NFEventHandler.cpp:217-221 | the log of the proxy and the direct postings are what the fates say: no datagram is both accepted by the relay socket and posted directly |
| `SessionFates.WaitingIsEarly` | netfilter/UDPProxy.cpp:404-416 | in every run the datagrams with the fate Waiting are exactly those udpSend took when it found the relay not connected |
| `SessionFates.EarlyFirst` | netfilter/UDPProxy.cpp:404-416 | in every run those come first, they are all as long as the relay is not connected, and whatever was not given to the socket is among them |
| `SessionFates.PostedExactly` | netfilter/NFEventHandler.cpp:217-221 | in every run a datagram the proxy took is posted directly, once, if and only if udpSend found the relay connected and its WSASendTo was refused |
| `SessionFates.LostExactly` | netfilter/UDPProxy.cpp:182-189 | in every run a datagram the proxy took is lost, neither accepted by the relay, nor posted directly, nor waiting any more, if and only if udpSend found the relay not connected and then its frame was refused in the flush or its connection went while it waited |
| `SessionFates.RefusedFrame` | netfilter/UDPProxy.cpp:156-163 | in every run a datagram whose frame the relay socket refused is lost if and only if udpSend found the relay not connected and queued it |
| `SessionWitness.FlushLoses` | netfilter/UDPProxy.cpp:156-163 | a run from the start, of thirteen steps, with a complete handshake, in which a datagram is lost in the flush |
| `SessionWitness.FailedConnectLoses` | netfilter/UDPProxy.cpp:184-189 | a run from the start, of six steps, in which the connect fails and the queued datagram is lost with its connection |
| `SessionHistory.LogStep` | netfilter/UDPProxy.cpp:376-482 | in every step of any thread an endpoint's log grows only by the datagram just taken and by what goes to its sockets, and stays as it is when its connection is gone or goes |
| `SessionTheorems.StoppingAdvances` | netfilter/iocp.h:59-110 | once the stop event is set every step brings the end nearer |
| `SessionTheorems.StoppingNeverStuck` | netfilter/iocp.h:59-110 | until stopping is through some thread can step |
| `SessionTheorems.StopFinishes` | netfilter/NFEventHandler.cpp:49-56 | whenever in a run stopping begins, in any order the threads are through within seven steps, and then every operation was deleted once and both maps are empty |
| `Proxy.UDPProxy.NewOvData` | netfilter/UDPProxy.cpp:484-490 | a new operation is in the set and at an address never used before |
| `Proxy.UDPProxy.DeleteOvData` | netfilter/UDPProxy.cpp:492-500 | an operation is deleted if it is in the set and nothing happens otherwise |
| `Proxy.UDPProxy.StartConnect` | netfilter/UDPProxy.cpp:502-532 | the code computes the connect of the model; a rejected one is deleted |
| `Proxy.UDPProxy.StartTcpSend` | netfilter/UDPProxy.cpp:585-621 | the code computes the send of the model, retagging a rejected one and posting it, or deleting it |
| `Proxy.UDPProxy.StartReceive` | netfilter/UDPProxy.cpp:534-583 | both receives on a new operation compute the receive of the model |
| `Proxy.UDPProxy.UdpSend` | netfilter/UDPProxy.cpp:389-482 | the code queues, sends or refuses as the model, with the model's result |
| `Proxy.UDPProxy.CreateProxyConnection` | netfilter/UDPProxy.cpp:318-374 | the code, with its early exits and its clean-up, computes the creation of the model |
| `Proxy.UDPProxy.DeleteProxyConnection` | netfilter/UDPProxy.cpp:376-387 | exactly the entry of that id goes |
| `Proxy.UDPProxy.FlushPackets` | netfilter/UDPProxy.cpp:156-164 | the loop that sends the first packet and erases it computes the recursive flush of the model and terminates |
| `Proxy.UDPProxy.TcpReplied` | netfilter/UDPProxy.cpp:30-171 | the switch over the state computes the reply of the model |
| `Proxy.UDPProxy.OnTcpReceiveComplete` | netfilter/UDPProxy.cpp:19-175 | keeps the invariant and every access is to an allocated operation; computes the handler of the model |
| `Proxy.UDPProxy.OnUdpReceiveComplete` | netfilter/UDPProxy.cpp:216-259 | keeps the invariant, every access is to an allocated operation, and the event handler is called with exactly the unframed datagram, or not at all |
| `Proxy.UDPProxy.OnConnectComplete` | netfilter/UDPProxy.cpp:182-214 | keeps the invariant whether the connect failed or its connection is gone or is greeted; computes the handler of the model |
| `Proxy.UDPProxy.OnSendComplete` | netfilter/UDPProxy.cpp:177-180 | keeps the invariant, for both kinds of sends: the operation is deleted once and nothing else changes |
| `Proxy.UDPProxy.OnComplete` | netfilter/UDPProxy.cpp:5-17 | whichever kind the operation has, invariant kept and one handler of the model run |
| `Proxy.UDPProxy.Dequeue` | netfilter/iocp.h:94-105 | a completion is handed over with its data in the operation's own buffer |
| `Proxy.UDPProxy.FreeAll` | netfilter/UDPProxy.cpp:301-316 | set and map end empty, every operation deleted once |
| `EventHandler.EventHandler.UdpSend` | netfilter/NFEventHandler.cpp:205-222 | udpSend with its two blocks is a run of the driver's steps, for every outcome of creating and sending, so the theorems over runs hold of it; the options of a new context are those of its first datagram, and no other context changes |
| `EventHandler.EventHandler.UdpClosed` | netfilter/NFEventHandler.cpp:185-197 | udpClosed is the run that erases the connection and then forgets the context |
| `Contexts.Contexts.OnUdpReceiveComplete` | netfilter/NFEventHandler.cpp:58-68 | a delivery is posted with the options of its context if there is one, and dropped otherwise |
| `EventHandler.EventHandler.Complete` | netfilter/iocp.h:86-110 | a round of the worker with a completion, in which the proxy calls back before it arms the receive again, is the run that takes, handles and settles it |
| `EventHandler.EventHandler.Free` | netfilter/NFEventHandler.cpp:49-56 | free is the run that empties the proxy and then the contexts |
| `EventHandler.SendRuns` | netfilter/NFEventHandler.cpp:205-222 | the steps the driver takes through udpSend amount to creation and submission, one after the other |
| `EventHandler.CompletionRuns` | netfilter/UDPProxy.cpp:5-17 | the steps the worker takes amount to one whole handler and the delivery to an endpoint with a context |
| `TcpStream.PassedThrough` | netfilter/NFEventHandler.cpp:136-176 | whatever went before, an endpoint that is not held back has every byte passed on, in order, in both directions |
| `TcpStream.FilteringStops` | netfilter/NFEventHandler.cpp:136-140 | and filtering is switched off for it if and only if it was, or something is received for it |
| `TcpStream.Conservation` | netfilter/NFEventHandler.cpp:70-177 | whatever went before and comes after, from a connect request on what is posted and held back, and whether filtering is switched off, is fixed by what was said: one SOCKS4 request for each send before the first answer, then all that was sent, in order |
| `TcpStream.StreamKept` | netfilter/NFEventHandler.cpp:122-177 | posted and held-back bytes are the requests and then all that was sent if and only if nothing was said too early on an IPv6 connection or on one closed before its first answer |
| `TcpStream.ConnectUnderstood` | netfilter/NFEventHandler.cpp:161-168 | a SOCKS4 server reads the request as CONNECT, command 1, to the port and address of the sockaddr_in the application wanted, with no user id and nothing left over |
| `TcpStream.DroppedFamily` | netfilter/NFEventHandler.cpp:155-159 | the family held back for ever is the one whose sockaddr begins with 23 0, AF_INET6, and never AF_INET |
| `TcpStream.Ipv6FirstSendLost` | netfilter/NFEventHandler.cpp:155-159 | an IPv6 connection's first words are dropped |
| `TcpStream.TcpRedirector.TcpConnectRequest` | netfilter/NFEventHandler.cpp:70-90 | the connection is redirected and filtered if and only if its address differs from the proxy's in the bytes its family has |
| `TcpStream.TcpRedirector.TcpSend` | netfilter/NFEventHandler.cpp:143-177 | does to its map and to what is posted what the event does in the history |
| `TcpStream.TcpRedirector.TcpReceive` | netfilter/NFEventHandler.cpp:122-141 | does what the event does in the history: the first answer releases what was held back and is itself not posted; later ones are posted and end the filtering |
| `TcpStream.TcpRedirector.TcpClosed` | netfilter/NFEventHandler.cpp:115-120 | does what the event does in the history: what was held back goes with the entry |
| `LockOrder.NoDeadlock` | netfilter/NFEventHandler.cpp:49-68 | threads that take `lock`, and wait for others or for the stop event, only holding neither lock, one of them setting the event, never deadlock, in any interleaving |
| `LockOrder.AllFinish` | netfilter/NFEventHandler.cpp:49-56 | every schedule of theirs is at most as long as the actions there are, and one that cannot go on has every thread through and both locks free |
| `LockOrder.NeitherHeld` | netfilter/NFEventHandler.cpp:52-61 | in every reachable state whoever is about to take `lock` or to wait for a thread holds neither lock |
| `LockOrder.LeavesOnStop` | netfilter/iocp.h:91-110 | a loop left only by the stop event is not left before it is set, in any interleaving |
| `LockOrder.RoundEnds` | netfilter/iocp.h:107-109 | once it is set such a thread takes at most the steps its round has left |
| `LockOrder.LockInsideBlocks` | netfilter/NFEventHandler.cpp:205-215 | since one thread takes `lock` and then m_cs, every program that takes `lock` while it holds m_cs, or `lock` itself, can block together with it for ever: the discipline is needed |
| `ThreadPrograms.HandlerKeeps` | netfilter/UDPProxy.cpp:19-259 | every handler, in every branch, keeps the discipline; the event handler is called outside m_cs |
| `ThreadPrograms.OnlyDeliveryLocks` | netfilter/UDPProxy.cpp:216-258 | of all a handler does only handing a datagram on takes `lock`, and that always does |
| `ThreadPrograms.CallbackKeeps` | netfilter/NFEventHandler.cpp:179-222 | so does every callback of the driver, which makes connections inside `lock` |
| `ThreadPrograms.FlushKeeps` | netfilter/UDPProxy.cpp:154-164 | so does the flush, which takes m_cs again while holding it |
| `ThreadPrograms.NeverDeadlocks` | netfilter/NFEventHandler.cpp:185-222 | driver, worker and stopping thread never deadlock, whatever calls and completions there are and whichever branches they take |
| `ThreadPrograms.StopFinishes` | netfilter/iocp.h:59-73 | and all three get through in every schedule, the worker by the stop event |
| `ThreadPrograms.WorkerStops` | netfilter/iocp.h:86-110 | however many completions are to come, the worker does not leave before the stop event is set and then leaves after the round it is in |
| `ThreadPrograms.InsideBlocks` | netfilter/NFEventHandler.cpp:205-215 | whatever udpSend finds when it makes a connection, any worker that took `lock` while it holds a lock could block for ever with it |
| `LinkedList.ForwardWalk` | netfilter/linkedlist.h:28-120 | following Flink from the head meets the entries in order and returns to the head |
| `LinkedList.BackwardWalk` | netfilter/linkedlist.h:28-120 | following Blink meets them in reverse |
| `LinkedList.ListUnique` | netfilter/linkedlist.h:28-120 | the links determine the entries: a head is the head of one list |
| `LinkedList.InitializeListHead` | netfilter/linkedlist.h:28 | the empty list |
| `LinkedList.IsListEmpty` | netfilter/linkedlist.h:37 | true if and only if there are no entries |
| `LinkedList.InsertTailList` | netfilter/linkedlist.h:90-100 | the entry becomes the last; only its links and those of its neighbours are written |
| `LinkedList.InsertHeadList` | netfilter/linkedlist.h:110-120 | the entry becomes the first; only its links and those of its neighbours are written |
| `LinkedList.RemoveEntryList` | netfilter/linkedlist.h:72-80 | the entry leaves from any position; its own links stay as they were |
| `LinkedList.RemoveHeadList` | netfilter/linkedlist.h:46-50 | returns the first entry, which leaves; on an empty list returns the head and changes nothing |
| `LinkedList.RemoveTailList` | netfilter/linkedlist.h:59-63 | returns the last entry, which leaves; on an empty list returns the head and changes nothing |
| `LinkedList.Perform` | netfilter/linkedlist.h:46-120 | any sequence of insertions and removals leaves the links of the deque it computes |
| `LinkedList.PerformBeside` | netfilter/linkedlist.h:46-120 | and a list of other nodes is the list it was |
| `LinkedList.MoveHead` | netfilter/linkedlist.h:46-100 | the first entry of one list moves to the end of another; together they have the same nodes |
| `LinkedList.MovesConserve` | netfilter/linkedlist.h:46-100 | however entries move to and fro between two lists, together they hold what they held |
| `LinkedList.MoveAbout` | netfilter/linkedlist.h:46-100 | the links follow those moves |
| `ThreadPool.JobServed` | netfilter/threadpool.h:86-106 | over every interleaving of any number of workers, a job made available is followed by an execution begun after it or its signal is still there |
| `ThreadPool.NoJobLost` | netfilter/threadpool.h:98-105 | a job announced before the last worker saw the stop event is begun, because the job event comes first |
| `ThreadPool.JobsConserved` | netfilter/threadpool.h:86-106 | executions and the pending signal are as many as the announcements that found no signal pending |
| `ThreadPool.AnnouncementsMerge` | netfilter/threadpool.h:86-89 | two announcements in a row are one execution |
| `ThreadPool.WorkerCalls` | netfilter/threadpool.h:92-109 | each worker calls threadStarted, then execute for each time it was woken, then threadStopped, which it has called exactly when it is gone |
| `ThreadPool.LeavesOnStop` | netfilter/threadpool.h:92-109 | in every run, no worker is leaving, gone, or has said it stopped, before the stop event is set |
| `ThreadPool.ThreadProc` | netfilter/threadpool.h:92-109 | the loop makes those calls up to the first wait that returns the stop event |
| `ThreadPool.Init` | netfilter/threadpool.h:38-71 | the threads that could be created, of as many as asked for, or as there are processors, or one |
| `ThreadPool.StopAdvances` | netfilter/threadpool.h:73-84 | after the stop event every step but a new job is one step nearer the end |
| `ThreadPool.FreeNeverStuck` | netfilter/threadpool.h:73-84 | until free has waited for every thread some thread can step |
| `ThreadPool.FreeFinishes` | netfilter/threadpool.h:73-84 | free returns in every interleaving, within a number of steps known when the stop event is set and three more for each job still announced, and each worker has then made its one threadStarted and its one threadStopped |

## Left out

- User interface, settings, rules and logging (`ui/`, `core/`, `LogTCP`, `LogUDP`): no protocol or data structure.
- Winsock, the completion port and the driver: their outcomes are parameters; address parsing, socket options, the lookup of ConnectEx, `bind` and failures of `init` are not modelled.
- The FRAG byte, the method 0xFF and the address of the reply, which the program does not look at; IPv6 proxy addresses, both sockets being IPv4 always.
- Socket handles: an operation belongs to an endpoint id, so the reuse of a closed socket's handle by the operating system is not modelled.
- Operations the kernel still has when they are deleted by `free`; driver events after `free` began.
- SessionReading.UdpRead: that the kernel completes a receive at some time is not claimed. For the TCP stream the same is proved of each completion (`ProxyCompletions.RearmedExactly`), not over runs.
- ProxyCompletions.PasswordHandshake: what other threads do between two replies is left out; `ProxyCompletions.ReplyDecides` has one reply in any state.
- `&vec[0]` of an empty vector, which the program forms for a zero-length send and when a datagram is empty.
- Address families other than AF_INET are read as IPv6, as the program does; the lengths of socket addresses follow from the family.
- `UDPContext` copies the options byte by byte; here they are a value.
- Proxy.UDPProxy.CreateProxyConnection: whether the two sockets could be made is a parameter, and `m_cs` is not taken in the class; the interleavings of its blocks are those of `Session`.
- EventHandler.EventHandler.UdpSend: as a method it runs without interruption; `Session` has the interleavings. The same holds of the other callbacks of that class.
- Contexts.Contexts.OnUdpReceiveComplete: in the program the contexts are a field of the event handler, which is itself what the proxy calls; here they are an object both hold.
- SessionTheorems.StopFinishes: in `Session` what the worker does in a handler is two steps, its locked block and the arming or deletion after it; starting a connect is one step with the two registrations before it.
- ThreadPrograms.NeverDeadlocks: how many completions would come is fixed beforehand, by any finite list, though the worker handles only those before the stop event; going round on timeouts is one action that waits for the event.
- ThreadPool.FreeFinishes: a second `init` of a pool, which resets the stop event, is not modelled.
- LinkedList.Perform: the caller is asked to insert nodes that are in no list and to remove nodes that are in this one; `CONTAINING_RECORD` is not modelled.
- PS_CLOSED, which no code assigns.
