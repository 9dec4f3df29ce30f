# ArenaGate, modelled and verified

ArenaGate is a game gateway: players connect over WebSocket, authenticate, queue for a match, and are
told their opponent and room when the matchmaker has paired them. This project models the parts of it
whose correctness spans several functions or every interleaving, and proves what they promise.

Verify everything with `dafny verify dfyconfig.toml`.

| file | what it models |
|---|---|
| `Bytes.dfy`, `Bits.dfy` | bytes, header bits, masking and big-endian integers |
| `Sequences.dfy`, `Arithmetic.dfy`, `Wrappers.dfy` | facts and result types used throughout |
| `Frames.dfy` | the frame format in both directions: round trips, prefixes, shortest encodings |
| `FrameBytes.dfy` | the bytes of a frame, position by position, and which streams are refused |
| `WsConn.dfy` | the gateway's connection as a class: frame reader and writer, the control-frame loop |
| `WsClient.dfy` | the client's connection as a class, over a socket that delivers arbitrary pieces |
| `Wire.dfy` | any number of goroutines in the frame writer, step by step under its mutex |
| `Matchmaker.dfy`, `MatchmakerLaws.dfy` | the matchmaker as a class, and the laws of all its runs |
| `Protocol.dfy`, `ProtocolLaws.dfy`, `ProtocolRuns.dfy`, `ProtocolOwnership.dfy`, `ProtocolLifecycle.dfy` | handlers, pollers, pushes and the matchmaker as one step system |
| `ProtocolTasks.dfy`, `ProtocolAnswers.dfy`, `ProtocolPaths.dfy` | what the gateway does is what was asked: each change and message traced to its request, one answer each, and where every request and poll leads |
| `Delivery.dfy` | the match protocol on its connections: every message written through the frame writer of its session |
| `Registry.dfy`, `SessionManager.dfy` | the session registry: its table, all its runs, and the class |
| `Limiter.dfy` | the rate limiter: greedy windows, and the exact maximum it lets pass in any interval |
| `Metrics.dfy` | the counters, and their agreement with the registry at every atomic step |
| `Decimal.dfy`, `Identifiers.dfy` | the decimal printer and the identifiers built from it |

Objects that the program updates in place are classes whose methods are proved against a function of
the old state; concurrent code is a step system whose runs are arbitrary sequences of steps. The main
results are lemmas about all runs.

Identifiers of sessions, tickets, matches and rooms are named by the number printed in them
(`Identifiers.TextsNameNumbers` shows that printing loses nothing), and the empty identifier is `None`.
A request may carry any number: a string that leads to a ticket, such as a path that ends in its
identifier, acts like that ticket's number, and any other like a number that was never issued.

## What the proofs found

- The matchmaker raises its ticket counter before it does anything that can fail, so a request it
  cannot accept uses up a number and stores no ticket. The counter counts the tickets exactly when
  every request is an object that names a player, whose waiting time is a number if it is given, and
  whose mode is empty or can be a dictionary key if it is given (`MatchmakerLaws.CounterCountsTickets`;
  four failing inputs are in `MatchmakerLaws.CounterRunsAhead`). The gateway only sends requests that
  meet this, so in every interleaving the counter runs ahead by exactly the malformed requests of
  other clients (`ProtocolRuns.CounterAhead`).
- The repository's README says 20 messages a second per session. That holds for the limiter's own
  windows. Over an arbitrary interval of one second up to 39 can pass. The exact maximum is known for
  every interval length (`Limiter.PeakIsMaximum`), and the stated cap holds for every interval exactly
  when the limit is one or the window is a single tick of the clock (`Limiter.CapHoldsExactly`).
- The decimal printer returns the empty string for a negative number. So the session identifiers of a
  run are distinct exactly while at most 2^63 sessions are added: the counter then turns negative
  (`SessionManager.IdentifiersAreFresh`).

## Model

| member | source | states |
|---|---|---|
| Frames.ServerFrameRoundTrip | internal/gateway/websocket.go:148-174 | what the gateway writes for a frame, followed by anything, the client reads back as that frame and leaves the rest, in all three length forms |
| Frames.ClientFrameRoundTrip | scripts/gate_ws_demo.py:184-197 | what the client writes under any mask, followed by anything, the gateway reads back as the same frame when the payload is within the limit |
| Frames.OversizedClientFrame | internal/gateway/websocket.go:129-131 | a frame over the limit is refused with its declared length before mask and payload are read |
| Frames.ServerStreamRoundTrip | scripts/gate_ws_demo.py:199-208 | any list of frames written by the gateway is read back as the same list, leaving exactly the trailing bytes |
| Frames.ClientStreamRoundTrip | internal/gateway/websocket.go:100-146 | any list of client frames under any masks is read back as the same list, leaving exactly the trailing bytes |
| FrameBytes.ServerBytesExactly | internal/gateway/websocket.go:152-173 | the bytes the gateway writes: final bit and opcode, length without mask bit in its three forms, big-endian, then the payload as it is |
| FrameBytes.ClientBytesExactly | scripts/gate_ws_demo.py:184-197 | the bytes the client writes: the same with mask bit, the mask, and payload byte i under mask byte i mod 4 |
| FrameBytes.ClientReadingBytes | internal/gateway/websocket.go:113-146 | a frame the gateway reads has the low half of the first byte as opcode, the declared number of bytes, and byte i behind the mask under mask byte i mod 4 |
| FrameBytes.ServerReadingBytes | scripts/gate_ws_demo.py:199-208 | the client reads a frame as soon as it is whole and not before, with the payload as it stands in the stream |
| FrameBytes.ClientRefusals | internal/gateway/websocket.go:100-141 | exactly which streams are refused as fragmented, unmasked, too large or cut short, which error each gives, and where reading stops |
| Frames.PrefixFree | internal/gateway/websocket.go:152-164 | if the bytes of one frame begin the bytes of another, the frames are equal |
| Frames.ProperPrefixIsNoFrame | internal/gateway/websocket.go:166-173 | a frame cut short anywhere does not read as a frame |
| Frames.ShortestEncoding | internal/gateway/websocket.go:152-164 | no byte string that reads as a frame is shorter than what the gateway writes for it (section 5.2 of RFC 6455) |
| Frames.DecodeInterrupted | scripts/gate_ws_demo.py:199-208 | reading until nothing more can be read yields exactly the whole frames of an interrupted stream and leaves the cut one |
| Bytes.BigEndianRoundTrip | internal/gateway/websocket.go:116-127 | a length that fits is recovered from its bytes |
| Bits.SetTopBitIsOr | internal/gateway/websocket.go:152 | the arithmetic that sets the top bit is the bitwise or |
| Bits.TopBitIsAnd | internal/gateway/websocket.go:105-109 | the arithmetic test of the top bit is the bitwise one |
| Bits.LowBitsAreAnd | scripts/gate_ws_demo.py:201-202 | the arithmetic that extracts opcode and length is the bitwise and |
| Bits.XorIsBitwise | internal/gateway/websocket.go:142-144 | the exclusive or that masking is defined with is the bitwise one |
| Bytes.BigEndianByte | internal/gateway/websocket.go:116-127 | byte i from the left is the digit of its weight |
| Bytes.XorTwice | internal/gateway/websocket.go:142-144 | masking with the same byte twice gives the byte back |
| WsConn.Conn.ReadFrame | internal/gateway/websocket.go:100-146 | the reader returns the parsed frame or the exact error and leaves exactly the unread bytes, for every stream |
| WsConn.Conn.Unmask | internal/gateway/websocket.go:142-144 | the in-place loop exclusive-ors byte i with mask byte i mod 4 for every i |
| WsConn.Conn.WriteFrame | internal/gateway/websocket.go:148-174 | header then payload reach the wire, no second write after a failed or for an empty one, whatever the fate of each write |
| WsConn.Conn.ReadJSON | internal/gateway/websocket.go:60-81 | the loop terminates on every stream and leaves input, wire and outcome as the recursive description of control-frame handling says, write failures included |
| WsConn.ClientReadingConsumes | internal/gateway/websocket.go:100-146 | every frame read from a client takes at least six bytes |
| WsConn.ReadTextSkipsControl | internal/gateway/websocket.go:71-76 | leading pings and pongs are skipped after writing one pong per ping, same payload, same order; the loop ends at the first pong that cannot be written |
| WsConn.ReadTextMeaning | internal/gateway/websocket.go:60-81 | after any pings and pongs the first other frame decides: text is handed over, close is end of file, anything else is refused, and nothing behind it is read |
| WsConn.ReadTextFails | internal/gateway/websocket.go:60-66 | after any pings and pongs, what is no frame ends the loop with the reader's own error and what it left unread |
| WsConn.PongsSplit | internal/gateway/websocket.go:71-74 | the pongs of a list of frames are those of its parts, in order |
| WsConn.PongsOfOne | internal/gateway/websocket.go:71-76 | a ping has one pong, of its payload, and any other frame none |
| WsConn.PongsReachTheClient | internal/gateway/websocket.go:71-74 | the client decodes exactly the pongs for its pings, in order, and no other frame |
| WsClient.Client.RecvExact | scripts/gate_ws_demo.py:210-219 | however the socket cuts the stream, exactly the next bytes are returned and no more consumed, or the end of the stream is reported |
| WsClient.Client.RecvFrame | scripts/gate_ws_demo.py:199-208 | the frame read and the bytes left depend only on the concatenated stream |
| WsClient.Client.RecvJSON | scripts/gate_ws_demo.py:167-176 | the outcome and the frames left depend only on the frames of the concatenated stream: the next text, a close, the deadline between two frames, or the end or the stall of the stream, also inside a frame, whose bytes are then lost |
| WsClient.NextTextIsFirst | scripts/gate_ws_demo.py:167-176 | with enough time a call returns the first text before any close frame and leaves the others; with no text left it reports the close, or the end or stall of the stream |
| WsClient.PatienceRunsOut | scripts/gate_ws_demo.py:167-176 | when the deadline passes, exactly the frames received by then are gone, and none of them was text or close |
| WsClient.ReadAllTexts | scripts/gate_ws_demo.py:167-176 | repeated calls return every text before a close frame, once each and in order |
| WsClient.Client.SendFrame | scripts/gate_ws_demo.py:184-197 | the client appends the masked encoding of the frame |
| Wire.RunInv | internal/gateway/websocket.go:148-174 | under every schedule at most one writer is past the mutex and the wire is the whole frames served plus at most the holder's header, or a cut frame once a write failed |
| Wire.PeerReadsLockOrder | internal/gateway/websocket.go:148-174 | with the mutex free and no failed write, the peer decodes exactly the frames served, in lock order, with no byte left over |
| Wire.PeerReadsWhileLocked | internal/gateway/websocket.go:166-172 | at every other moment it decodes all but the holder's unfinished frame and leaves at most that frame's header |
| Wire.PeerReadsPrefix | internal/gateway/websocket.go:166-173 | also after a failed write the peer decodes only whole frames, a prefix of the lock order |
| Wire.ClientReadsTexts | scripts/gate_ws_demo.py:167-176 | under every schedule a client's reader gets a prefix of the texts served, in lock order, and all of them when the mutex is free and no write failed |
| Wire.ProgramOrder | internal/gateway/server.go:262-288 | each goroutine's frames are served in the order it wrote them, none lost or repeated |
| Wire.AloneIsFrameWritten | internal/gateway/websocket.go:148-174 | the steps of an uncontended call have the effect of the sequential frame writer, for every fate of its writes |
| Matchmaker.FakeCoreRankState.CreateTicket | scripts/gate_ws_demo.py:31-73 | the whole new state and the reply of a ticket creation, for every JSON body, with each failure in the order of the code |
| Matchmaker.FakeCoreRankState.CancelTicket | scripts/gate_ws_demo.py:79-86 | the loop removes every waiting entry of the ticket, the status changes, nothing else does |
| Matchmaker.FakeCoreRankState.GetTicket | scripts/gate_ws_demo.py:75-77 | the stored ticket, or a key error |
| Matchmaker.FakeCoreRankState.GetResult | scripts/gate_ws_demo.py:88-90 | the stored result, or a key error |
| Matchmaker.RunInv | scripts/gate_ws_demo.py:31-86 | every run keeps the invariant, which is keyed on the match a ticket carries and not on its status |
| MatchmakerLaws.MatchIsExact | scripts/gate_ws_demo.py:50-69 | every result belongs to exactly two distinct tickets of its mode that carry its match and room, and lists their players in creation order |
| MatchmakerLaws.MatchedTicket | scripts/gate_ws_demo.py:50-69 | a ticket with a match has a stored result that lists its player |
| MatchmakerLaws.NoMissedPairing | scripts/gate_ws_demo.py:49-72 | a ticket is queued exactly when it is the waiting entry of its mode, so two queued tickets of a mode are one |
| MatchmakerLaws.AssignmentIsPermanent | scripts/gate_ws_demo.py:31-90 | no continuation of a run changes a given match or room, a stored result, or a ticket's player, and no cancelled ticket is paired later |
| MatchmakerLaws.CancellationIsFinal | scripts/gate_ws_demo.py:79-86 | a cancelled ticket stays cancelled in every continuation, and keeps the match it had or never gets one |
| MatchmakerLaws.Conservation | scripts/gate_ws_demo.py:31-86 | waiting, matched and abandoned tickets partition the tickets; tickets = waiting entries + 2 * results + abandoned; the match counter counts the results, and the ticket counter the tickets and the requests that could not be accepted |
| MatchmakerLaws.CounterCountsTickets | scripts/gate_ws_demo.py:33-49 | the ticket counter counts the tickets if and only if every request was acceptable: an object with a player, a numeric or absent waiting time, an absent, empty or hashable mode |
| MatchmakerLaws.CounterRunsAhead | scripts/gate_ws_demo.py:33-49 | no object, no player, a waiting time given as text, a mode given as a list: each fails with its own error and leaves the counter at two and the table empty |
| MatchmakerLaws.AcceptableExactly | scripts/gate_ws_demo.py:35-49 | which request bodies are accepted, member by member |
| MatchmakerLaws.TicketsAreRequests | scripts/gate_ws_demo.py:31-73 | in every run the tickets are exactly the acceptable requests, under the number of the request, with the player, score and mode that were sent, or the defaults of those left out |
| MatchmakerLaws.MatchedAsAsked | scripts/gate_ws_demo.py:49-67 | players are only matched when they asked for the same mode, and the result names both and the second one's mode |
| MatchmakerLaws.PairingPerMode | scripts/gate_ws_demo.py:49-86 | results of a mode = (tickets created - cancellations of queued ones) div 2, and a ticket waits exactly when that difference is odd |
| ProtocolLaws.ThreadStepOk | internal/gateway/server.go:143-322 | every step of a handler or poller keeps what its thread knows about the matchmaker; a match, a queued or cancelled reply and a poller's status that it says are true (a handler's status: `ProtocolAnswers.RepliesWereTrue`) |
| ProtocolLaws.TallyCounts | internal/gateway/server.go:170-188 | each account counts its event and nothing else |
| ProtocolLaws.ReadResult | internal/gateway/server.go:305-317 | a result fetched after the ticket that names it still makes the right message |
| ProtocolLaws.ThreadStepBalanced | internal/gateway/server.go:143-193 | every ticket made by a step lands in exactly one account |
| ProtocolRuns.MatchIntegrity | internal/gateway/server.go:295-322 | in every interleaving a match pushed for an enqueue names its own ticket and request and carries exactly the one result of that ticket, which lists the enqueuing player |
| ProtocolRuns.SameMatchSameRoom | internal/gateway/server.go:295-322 | pushes for tickets of one match give the same match, room, server and players |
| ProtocolRuns.RepliesAreTrue | internal/gateway/server.go:180-219 | a queued reply names the enqueue's ticket and player; a ticket reported cancelled is cancelled from then on |
| ProtocolRuns.PollerLifecycle | internal/gateway/server.go:251-293 | a poller writes errors and then at most one last message, always with its enqueue's request identifier, and nothing after it; a last status names no match, and is either the end of the wait or a ticket cancelled before it had a match |
| ProtocolRuns.TicketAccounts | internal/gateway/server.go:164-193 | tickets = lost replies + immediate matches + failed queued replies + pollers started + in flight + tickets of others |
| ProtocolRuns.CounterAhead | internal/gateway/server.go:163-169 | in every interleaving the matchmaker's ticket counter runs ahead of its tickets by exactly the malformed requests of other clients |
| ProtocolRuns.PendingTicket | internal/gateway/server.go:175 | the pending ticket is empty or the last one whose creation reply reached the session, or the one before it between that reply and the update |
| ProtocolLifecycle.EnqueueConversation | internal/gateway/server.go:99-192 | in every interleaving all messages about one enqueue whose ticket was created and reported, from handler and poller together, are a match or one error at once, or a queued reply, errors, and at most one last message |
| ProtocolLifecycle.OneLastMessage | internal/gateway/server.go:175-293 | of two messages about one enqueue the earlier is its queued reply or an error behind that reply, and the later is no queued reply, so nothing follows the last message |
| ProtocolLifecycle.QueuedReplyFirst | internal/gateway/server.go:180-191 | whatever a poller writes, an error, a status or the match, is about its enqueue and comes after that enqueue's queued reply |
| ProtocolLifecycle.OneWorker | internal/gateway/server.go:191-192 | at most one handler or poller works for an enqueue |
| ProtocolTasks.AnswersFit | internal/gateway/server.go:143-322 | in every run a cancelled or status reply, or a match reported on request, is about the ticket its request named, or the one pending at its receipt; an enqueue's messages are about its own ticket, which has the session's player and the request's score and mode |
| ProtocolTasks.ChangesAreAsked | internal/gateway/server.go:163-208 | in every run the gateway creates a ticket only for an admitted enqueue, with that request's values, and cancels only the ticket that a cancellation is about |
| ProtocolAnswers.AnswersInOrder | internal/gateway/server.go:82-102 | in every run a handler answers its requests in the order they came, each at most once |
| ProtocolAnswers.EveryRequestAnswered | internal/gateway/server.go:82-102 | while none of its writes fails, a handler that waits for a request has answered every earlier one exactly once |
| ProtocolAnswers.RepliesWereTrue | internal/gateway/server.go:180-247 | a status or queued reply says what its ticket looked like at a moment between its request and the next one: status, match and room, and no match was there |
| ProtocolPaths.AnsweredAtOnce | internal/gateway/server.go:93-161 | exactly which requests are refused or noticed at once, the one reply each gets, and that only authentication changes the session |
| ProtocolPaths.EnqueueCreates | internal/gateway/server.go:163-175 | an admitted enqueue creates a new ticket for the player with the request's score and mode and makes it pending, whatever happens in between |
| ProtocolPaths.EnqueueQueues | internal/gateway/server.go:180-192 | without a match the enqueue is confirmed as queued and a poller starts for its ticket |
| ProtocolPaths.EnqueuePushes | internal/gateway/server.go:176-178 | with a match the match is pushed at once and the pending ticket cleared |
| ProtocolPaths.CancelGoesThrough | internal/gateway/server.go:196-219 | a cancellation cancels the named ticket, or the pending one if none is named, clears the pending ticket and is confirmed |
| ProtocolPaths.StatusGoesThrough | internal/gateway/server.go:222-248 | a status request reads the named or pending ticket; a match is pushed, anything else is described |
| ProtocolPaths.CallFailed | internal/gateway/server.go:99-101 | a failed call is answered with one error and changes nothing |
| ProtocolPaths.CallGoesUnanswered | internal/gateway/server.go:99-101 | a call whose reply is lost, or whose ticket is unknown, is answered with one error and leaves the session as it was |
| ProtocolPaths.PollPushesMatch | internal/gateway/server.go:276-280 | a poll that reads a ticket with a match, and whose fetch and write succeed, ends the poller with exactly the match of that ticket |
| ProtocolPaths.PollSeesNoMatch | internal/gateway/server.go:281-292 | a poll of a queued ticket says nothing and polls again; a poll of a ticket cancelled without a match clears the pending ticket and ends with that status |
| ProtocolPaths.PollTimesOut | internal/gateway/server.go:261-269 | at the end of its time a poller says that the ticket still waits, and ends |
| ProtocolPaths.PollReportsFailure | internal/gateway/server.go:271-275 | a failed poll is reported as an error, and polling goes on |
| ProtocolPaths.PollEndsWithSession | internal/gateway/server.go:259-260 | a poller ends silently when and only when its session's handler has ended |
| ProtocolPaths.PushEnds | internal/gateway/server.go:295-322 | from the fetch on a push ends with the matchmaker's match and clears the pending ticket |
| ProtocolPaths.PushFails | internal/gateway/server.go:305-310 | a push whose fetch fails keeps the pending ticket; a poller ends silently, a handler answers with one error |
| ProtocolPaths.QueuedReplyFails | internal/gateway/server.go:180-188 | an enqueue whose queued reply fails gets an error instead, and no poller |
| ProtocolPaths.HandlerEnds | internal/gateway/server.go:85-91 | a handler ends silently when its client hangs up, with one error when reading fails otherwise, and its session is closed |
| Delivery.ProtocolRefined | internal/gateway/server.go:164-322 | a run in which every message goes through the frame writer is a run of the protocol, so all results above hold of it |
| Delivery.WireRefined | internal/gateway/websocket.go:148-174 | each connection of such a run goes through a schedule of the frame writer |
| Delivery.EveryMessageArrives | internal/gateway/websocket.go:148-174 | at every moment of every such run the text frames that can be decoded from a connection are exactly the messages written to that session without error, in order, with pongs, close frames and cut frames among them |
| Delivery.ClientReadsMessages | scripts/gate_ws_demo.py:167-176 | the client's reader returns a prefix of the messages of its session, and all of them while no close frame was sent |
| Delivery.ClientLearnsTrueMatch | internal/gateway/server.go:295-322 | every text a client reads is a message to its own session, and a match in it is exactly the matchmaker's result for that ticket, for an enqueue a ticket this session created |
| ProtocolOwnership.TicketsCreatedOnce | internal/gateway/server.go:164-175 | no ticket is created twice, by one session or by two |
| ProtocolOwnership.MatchRouting | internal/gateway/server.go:175-191 | what is written for an enqueue is written to the one session that created its ticket |
| Registry.ActiveSessions | internal/gateway/session.go:34-81 | the registry holds exactly the sessions added and not removed, numbered in order; its size is adds minus removes |
| Registry.PlayerEntry | internal/gateway/session.go:51-75 | in every run a player's entry is its last binder until that session is removed while still holding the player |
| Registry.PlayerEntryIsLastBinder | internal/gateway/session.go:51-75 | with one player per session, a player's entry is its last binder if and only if that session is not removed |
| SessionManager.Manager.Add | internal/gateway/session.go:34-49 | a new session with the next number, its printed identifier and an unused limiter of one second whose limit is at least one; all else unchanged; also when the 64-bit counter wraps around |
| SessionManager.Manager.BindPlayer | internal/gateway/session.go:51-62 | the session holds the player and is the player's entry; all else unchanged |
| SessionManager.Manager.Remove | internal/gateway/session.go:64-75 | the session leaves the registry, and the player's entry only if it is this session's |
| SessionManager.Manager.ActiveCount | internal/gateway/session.go:77-81 | the number of registered sessions |
| SessionManager.IdentifiersAreFresh | internal/gateway/session.go:38-47 | the sessions of a run get different identifiers if and only if it adds at most 2^63 of them |
| Decimal.FormatInt | internal/gateway/session.go:141-153 | the loop never leaves its buffer and yields the canonical numeral for every non-negative 64-bit value, the empty string for a negative one |
| Decimal.ParseNumeral | internal/gateway/session.go:141-153 | decimal parsing gives the printed number back |
| Decimal.DigitsParse | internal/gateway/session.go:141-153 | printing gives every numeral without a leading zero back |
| Identifiers.TextsNameNumbers | scripts/gate_ws_demo.py:33-53 | printed identifiers are equal exactly when their numbers are |
| Limiter.RateLimiter.constructor | internal/gateway/session.go:119-124 | a limit below one becomes one, and no window is open |
| Limiter.RateLimiter.Allow | internal/gateway/session.go:126-139 | the new window and count and the verdict on a message |
| Limiter.LimiterIsGreedy | internal/gateway/session.go:119-139 | the limiter admits exactly the first messages of greedily cut windows |
| Limiter.OpeningMessage | internal/gateway/session.go:130-138 | a message at least one window after the start is always admitted |
| Limiter.RateBound | internal/gateway/session.go:126-139 | in any interval of length L fewer than limit * (ceil(L / window) + 1) messages pass |
| Limiter.OneWindowBound | internal/gateway/session.go:126-139 | in any interval of one window length fewer than twice the limit pass |
| Limiter.PeakIsMaximum | internal/gateway/session.go:126-139 | the exact maximum for every limit, window and interval length: no trace exceeds it, and some trace reaches it |
| Limiter.BoundIsReached | internal/gateway/session.go:126-139 | the simple bound less one is reached if and only if the limit is one or the interval without its last moment needs as many windows |
| Limiter.CapHoldsExactly | README.md:74 | the documented cap holds over every interval of one window length if and only if the limit is one or the window is one clock tick |
| Metrics.Gauges.OpenSession | internal/gateway/metrics.go:23-26 | both updates of an opening, nothing else |
| Metrics.Gauges.CloseSession | internal/gateway/metrics.go:28-30 | the gauge goes down, nothing else changes |
| Metrics.Gauges.Message | internal/gateway/metrics.go:32-34 | one message more, nothing else changes |
| Metrics.Gauges.Error | internal/gateway/metrics.go:36-38 | one error more, nothing else changes |
| Metrics.Gauges.MatchFound | internal/gateway/metrics.go:47-49 | one match more, nothing else changes |
| Metrics.Gauges.CoreRequest | internal/gateway/metrics.go:40-45 | the request is counted, its failure only if it failed |
| Metrics.StepsOfMethods | internal/gateway/metrics.go:23-45 | the two atomic steps of an opening, or of a recorded request, have without interruption the effect promised for the method |
| Metrics.GaugeAgreement | internal/gateway/server.go:72-77 | at every atomic step registered sessions - active gauge = handlers between adding and raising - handlers between removing and lowering |
| Metrics.CountersCount | internal/gateway/metrics.go:32-49 | the message, error and match counters are the numbers of their events in the run |
| Metrics.FailuresWithinRequests | internal/gateway/metrics.go:40-45 | failures never exceed requests; the gap is the requests that succeeded or whose outcome is not recorded yet |

## Left out

- The HTTP upgrade, hijacking, the accept key and header matching: input, output and library wrappers.
- JSON: a text payload is handed over undecoded, protocol messages are already decoded values, and how they are marshalled is a parameter.
- The HTTP clients of the matchmaker and of the operations service: a call succeeds, fails without effect, or has its effect while its reply is lost or cannot be decoded.
- Request bodies that the matchmaker's JSON reader rejects: they do not reach its state.
- Ban lookup, maintenance layering and request normalisation appear only as the answer that gates an enqueue; the notice and maintenance messages that may follow a successful authentication are not sent.
- Real clocks and deadlines: times are non-decreasing integers counted from Go's zero time, and a poller's select is a free choice among its cases. Nothing is claimed about how soon a poller finishes.
- Ticket timestamps, the last-active time of a session, and metrics text output: nothing else reads them.
- Object aliasing in the matchmaker: a returned ticket is a snapshot taken in a step after the locked one, not the live dictionary.
- The match protocol is a step system and not classes with loops: its handlers and pollers share state between any two of their steps.
- ReadFrame accepts reserved bits and lengths that are not minimal, as the code does; a length with its top bit set is negative after the cast and yields its own error where the allocation would panic.
- Wire.PeerReadsPrefix: assumes that after a failed write the connection carries nothing more; `Delivery` rests on the same assumption.
- Registry.ActiveSessions: numbers sessions without bound; the manager's fields represent this table until its 64-bit counter wraps around, and are stated by themselves from then on.
- WsClient.Client.SendFrame: requires a payload below 2^64 bytes, and takes the random mask as a parameter.
- Limiter.LimiterIsGreedy: requires times after the zero time, which real clocks always show, and ignores that Go's time differences saturate after 292 years.
- Close frames on shutdown are ordinary frames of the writer; closing the connection itself is not modelled.
