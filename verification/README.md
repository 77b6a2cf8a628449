# A posting client for Usenet: model and proofs

The program takes files, cuts them into parts, encodes each part with yEnc, wraps it as an NNTP article, and
posts the articles through a pool of connections with retries. At the end it writes an NZB index of what was
posted. This project models that path from the bytes of a file to the exit code, and proves what the parts of
it promise each other. `dafny verify dfyconfig.toml` checks all of it.

## How the model is laid out

Two kinds of files go together. The code that changes things step by step is modelled by classes and methods
with loops; each method's contract gives its whole effect as a function of the old state. What the program
promises is then proved about these functions, for every input and every run.

- **Bytes.** `Text` (lines, numbers as text), `Yenc` (encoder loops, decoder, line shape, size), `Parts` (the
  generator with its stateful stream, a reader of parts), `Message` (headers, payload, the bytes of an article,
  framing), `LineReader` (lines out of a buffer that fills in chunks), `MessageId` (printer and parser of ids).
- **One connection.** `ConnModel` is the transition function of a connection: its state, operands, read buffer
  and what it has scheduled with the io service. `Connection` is the class whose methods do that to its fields.
  `ConnTheory` has the invariants: one obligation at a time, one completion for every accepted operation with
  the outcome the network decided, nothing read from an earlier session. `Chunking` ties its reads to `LineReader`:
  how the bytes are cut makes no difference to a conversation.
- **The pool.** `PoolModel` is the step system: every section under the mutex is one step, one IO thread
  interleaves with the producer, and answers, errors and timeouts are nondeterministic events. `Usenet` and
  `Program` are the classes; `Execution` shows that the object passes through exactly the states of the step
  system, and what that makes of its fields. `RunTheory`, `TallyTheory`, `IdTheory`, `BudgetTheory`, `FifoTheory`,
  `OrderTheory`, `ReachTheory`, `ExitTheory`, `ProgressTheory`, `ValidateTheory` and `WireTheory` hold what every run
  keeps; `Traces` and `SuccessTrace` hold the runs that show what can happen; `PoolTheory` and `PoolCounts` say what
  each operation does to the roles of the connections and to the things that are counted.
- **Files, NZB, and the way back.** `Submission` (the file set and the submission loops), `Nzb` (escaping),
  `NzbFile` (the writer and a reader), `EndToEnd` (from exit code 0 back to the files).
- **The peer.** `DummyServer` (the session of the dummy server), `Lockstep` (client and server connected),
  `PeerTheory` (the articles of a run are articles the server takes whole), `NetTheory` (the whole pool, every
  connection with a server of its own).

## Main results

- `EndToEnd.FilesComeBack`: if a run reaches exit code 0, then for every input file, following the segment ids
  of the NZB to the articles reported posted, decoding them and joining the data gives the file, byte for byte.
  `SuccessTrace.Succeeds`: such runs exist, whatever there is to post.
- `NetTheory.StoredOnce`: with a dummy server behind every connection, exit code 0 means that each article is stored
  exactly once across the servers, byte for byte.
- `TallyTheory.TallyAlways`: in every reachable state each article is in exactly one place.
- `TallyTheory.QueueBound` and `Traces.BoundIsReached`: the queue never exceeds m_maxsize + C, and the bound is tight.
- `FifoTheory.ExclusionIff`, `Traces.StrandedArticle`, `FifoTheory.RecheckRestores`: exactly which runs keep the
  exclusion that the comment in `src/nntp/usenet.hpp` asks for; runs without any error that break it; the repair.
- `OrderTheory.FifoIff`: exactly which runs start the commands in the order in which they came in.
- `ExitTheory.UnfailedExitIff` and `ExitTheory.RecheckLosesNothing`: exactly when a run without a failed post exits 0,
  and that the repair loses no article.
- `ValidateTheory.AskedIdIff`: exactly when the STAT for an article asks for the id it was posted with.
- `ProgressTheory.HaltedIff`: the one way to hang, characterised exactly.
- `BudgetTheory.RunsEnd`: post-only runs are bounded in length.
- `ReachTheory.RolesAlways` and `ReachTheory.OperationsAlways`: no request is ever refused, and every accepted
  operation is reported exactly once, with the outcome the network decided.
- `Lockstep.ServerStoresArticles`: in every error-free session the server stores exactly the articles sent.
- `Message.OneArticleIff`, `Message.Framing`: what framing without dot-stuffing rests on.
- `Yenc.RoundTrip`, `Yenc.BlockShape`, `Yenc.BlockBound`: the encoder.

## Decisions

- A C++ `char` is a Dafny `char`; input bytes are the subset below 256. Arithmetic on `unsigned char` is written
  modulo 256. `size_t` quantities are natural numbers; the one place where wrap-around shows, `linelength - 1` for a
  line length of 0, is modelled by a value no position reaches.
- A connection is a number in the order of `add_connections`, standing for a list iterator; an article is a
  number in the order of construction, standing for a shared pointer. Articles are changed in the store, as
  the source changes them through the pointer.
- What a connection schedules with the io service is a list of pending tasks. That there is never more than one
  is a theorem.
- A blocked `enqueue_*` is two steps, "block" and "wake and push", and waking is enabled whenever the predicate of the
  wait holds. `on_post_finished` is cut between its sections under the mutex.
- `Config.recheck` is not in the source. It selects the variant that looks at the ready list again after the
  wait and in the STAT error branch; the classes model the source only, with the flag off.
- History variables (what was started, what came in, what was reported) are fields that no decision reads.
- CRC-32 is an unspecified function of the bytes of a part; the trailer carries its value.
- The client goes on with the article on any reply to POST that does not start with `4`, and takes any reply to AUTHINFO
  USER that does not start with `381` as final; the model states the code's own rule.

## Where code and documentation disagree

- `src/nntp/usenet.hpp:58-89` explains that one mutex keeps a queued command from lying beside a free
  connection. Two places push without looking at the ready list (`src/nntp/usenet.cc:62-67` and `:92-97`, `:169-170`), so it
  can happen; `Traces.StrandedArticle` gives the run, `FifoTheory.ExclusionIff` the exact condition. What it costs:
  `OrderTheory.FifoIff` (the order of posting) and `ExitTheory.UnfailedExitIff` (an article).
- The help text of `--validate` (`src/program_config.cc:172`) promises that bad articles are reposted. The end of a STAT
  never submits a POST (`ValidateTheory.StatNeverReposts`), and the id asked for is that of the run nonce even where
  the article was renamed (`ValidateTheory.AskedIdIff` says exactly when it is the right one,
  `ValidateTheory.AsksForTheWrongId` gives the run; the comment at `src/main.cc:316` admits it).
- `src/main.cc:38` replaces `>` a second time where `&` was meant; `&` is never escaped (`Nzb.UnescapeInvertsIff`).

## Model

| member | source | states |
|---|---|---|
| `Yenc.EncodeNextLine` | src/yenc/yenc.hpp:16-51 | the loop writes exactly one line of the recursive encoding after what was there, and returns the position after the bytes it took |
| `Yenc.EncodeBlock` | src/yenc/yenc.hpp:53-59 | the loop over lines ends, and appends exactly the encoding of the whole block |
| `Yenc.RoundTrip` | src/yenc/yenc.hpp:16-59 | for every byte sequence and every line length, decoding the encoded block by the rules of the yEnc draft 1.3 gives the bytes back |
| `Yenc.DecodeBlock` | src/yenc/yenc.hpp:53-59 | the same in front of any further text: the block decodes to its data and the rest decodes as before |
| `Yenc.BlockShape` | src/yenc/yenc.cc:3-19 | every data line: 1 to L+1 bytes and a CRLF; no NUL, CR or LF; `=` only opens an escape pair and never `=y` at the start; no line opens with `.`, blank or tab; every line but the last has at least L bytes and does not end in a raw blank |
| `Yenc.BlockSize` | src/yenc/yenc.hpp:16-59 | the block has exactly n + escapes + 2 * lines bytes; every line takes at most L input bytes, every line but the last at least half of L, rounded up |
| `Yenc.BlockBound` | src/yenc/yenc.hpp:16-59 | ceil(n/L) <= lines <= ceil(n/ceil(L/2)), hence at most 2n + 2*ceil(n/ceil(L/2)) bytes |
| `Parts.YencGenerator.constructor` | src/util/yencgenerator.cc:5-27 | the number of parts is the file size over the article size, rounded up |
| `Parts.YencGenerator.GetPart` | src/util/yencgenerator.cc:34-87 | in any state of the stream: the part is the three keyword lines and the encoded data that the read delivered; a short read leaves the stream failed |
| `Parts.NumPartsIsCeiling` | src/util/yencgenerator.cc:21-25 | the part count is the ceiling: it covers the file and no part is superfluous |
| `Parts.OnlyLastIsShort` | src/util/yencgenerator.cc:47-48 | only the read of the last part can come out short |
| `Parts.PartsInOrderIff` | src/util/yencgenerator.cc:38-48 | any list of parts asked for on one stream: every part carries its full slice if and only if no part is asked for, data of which exists, after a part that came out short |
| `Parts.FailedStreamParts` | src/util/yencgenerator.cc:38-60 | in a failed stream every part comes out without data, its end field one below its begin field |
| `Parts.PartsTile` | src/util/yencgenerator.cc:58-60 | the begin and end fields tile 1..size without gap or overlap, and the data of a part is that range of the file |
| `Parts.DataFromIsRest` | src/util/yencgenerator.cc:34-87 | the data of the parts from part i on is the rest of the file from there |
| `Parts.PartRoundTrip` | src/util/yencgenerator.cc:50-84 | a reader of the keyword lines recovers every field, the name and the data, whatever follows the part |
| `Parts.PartLinesAreLines` | src/util/yencgenerator.cc:50-84 | a part is a sequence of whole lines, none of which opens with a dot |
| `Message.WriteHeader` | src/nntp/message.cc:5-20 | the stream is the header lines in order, the Message-ID only when there is one |
| `Message.PayloadSize` | src/nntp/message.cc:44-53 | the accumulated size is the length of the payload on the wire |
| `Message.OneArticleIff` | src/nntp/connection.cc:316-329 | for every article whatsoever: the reader of the server takes exactly its bytes if and only if no line before the last one is a lone dot |
| `Message.Framing` | src/nntp/connection.cc:25 | with clean header values and a payload of lines without a leading dot: the bytes sent split into the header lines, an empty line, the payload lines, an empty line and the dot line, only the last of which opens with a dot; the server takes exactly one article |
| `Message.UnstuffingChangesNothing` | src/nntp/connection.cc:316-329 | a receiver that removes initial dots as in section 3.1.1 of RFC 3977 gets the same lines |
| `Message.DotLineInSubjectBreaksFraming` | src/nntp/message.cc:9 | the family behind the side condition: a subject that carries a dot line of its own always breaks the framing |
| `Text.LinesOfConcat` | src/util/asio_helpers.hpp:12-29 | splitting at CRLF undoes joining, in front of anything |
| `LineReader.Stream.AsyncReadLine` | src/util/asio_helpers.hpp:12-29 | one read on the shared buffer: arrivals are appended until a CRLF is there, the line leaves the buffer |
| `LineReader.ReadLineIs` | src/util/asio_helpers.hpp:17-24 | a read delivers the first line of the whole stream and loses nothing of the rest; it fails exactly when there is no line |
| `LineReader.DeliverIs` | src/util/asio_helpers.hpp:12-29 | n reads deliver the first n lines of the stream |
| `LineReader.ChunkingIndependence` | src/util/asio_helpers.hpp:15 | two ways of cutting the same bytes into arrivals give the same lines |
| `LineReader.DeliveredAndLeft` | src/util/asio_helpers.hpp:19-20 | delivered lines, buffer and unread input together are the stream |
| `LineReader.DeliveredAreLines` | src/util/asio_helpers.hpp:19 | every delivered line has its only CRLF at its end |
| `Chunking.ConnectionReadsLines` | src/nntp/connection.hpp:137-159 | a read of a connection takes exactly the line the shared line reader delivers, however the bytes arrive, and leaves what it leaves |
| `Chunking.SameConversation` | src/nntp/connection.hpp:137-159 | two whole conversations over the same bytes, cut and over-read differently, end with the same operations reported, the same bytes sent, state and pending tasks |
| `MessageId.KeyOfPrinted` | src/fileset.cc:52-87 | for a nonce without a dot, parsing a printed id gives the key back, whatever the domain |
| `MessageId.PrintedIsInjective` | src/fileset.cc:52-57 | printed ids of different pieces differ, across nonces and domains |
| `MessageId.BareOfPrinted` | src/main.cc:74-76 | for a nonce without angle brackets: the id the NZB prints is the printed id without its own two brackets if and only if the domain has none |
| `Connection.Connection.AsyncConnect` | src/nntp/connection.cc:256-262 | accepted only when disconnected; whole new state |
| `Connection.Connection.AsyncPost` | src/nntp/connection.cc:375-387 | the whole new state, and the result: refused unless authenticated |
| `Connection.Connection.AsyncStat` | src/nntp/connection.cc:450-462 | the whole new state, and the result: refused unless authenticated |
| `Connection.Connection.Close` | src/nntp/connection.cc:465-488 | the buffer is emptied and the state is disconnected, unless it was before |
| `Connection.Connection.AsyncGracefulDisconnect` | src/nntp/connection.cc:506-520 | QUIT is written when authenticated; otherwise the failed assertion is on record |
| `Connection.Connection.SendArticle` | src/nntp/connection.cc:316-330 | the buffers written are header, empty line, payload pieces and terminator: the wire bytes of the article |
| `Connection.Connection.OnLine` | src/nntp/connection.cc:93-190 | the success branch of every read: what each first character of a reply leads to |
| `Connection.Connection.OnError` | src/nntp/connection.cc:108-118 | the failure branch of every callback |
| `Connection.Connection.OnSuccess` | src/nntp/connection.cc:197-254 | the success branch of resolving, connecting, the handshake and writes |
| `Connection.Connection.TakeLine` | src/nntp/connection.hpp:137-159 | the bytes that arrive are appended to the buffer and the first line is taken |
| `Connection.Connection.Complete` | src/nntp/connection.cc:86-358 | one completion of one pending task: the object does what the transition function says |
| `ConnTheory.CompleteKeepsWf` | src/nntp/connection.cc:197-462 | a connection has at most one obligation: completing its task leaves exactly one next task, the state that goes with it, and the same article to answer for |
| `ConnTheory.RequestsKeepWf` | src/nntp/connection.cc:375-462 | a request to an idle authenticated connection is accepted and overwrites nothing |
| `ConnTheory.CompleteKeepsClean` | src/nntp/connection.cc:479-487 | nothing from an earlier session is left in the read buffer; it is empty when disconnected |
| `ConnTheory.CompleteKeepsHistory` | src/nntp/connection.cc:86-448 | every accepted operation is reported once, with the outcome that an independent reading of the protocol gives for what the network answered, on replies of its own session |
| `ConnTheory.DeliverKeepsHistory` | src/nntp/connection.cc:265-278 | a handler call is added to the record of calls, and it is the call that carries the result of the last operation to the handler of its kind |
| `Usenet.Usenet.AddConnections` | src/nntp/usenet.cc:313-330 | the new connections are at the end of the busy list, each connecting; nothing else changes |
| `Usenet.Usenet.Enqueue` | src/nntp/usenet.cc:70-98 | the first ready connection gets the command, or the caller waits, or it is pushed; the whole new pool |
| `Usenet.Usenet.AfterWait` | src/nntp/usenet.cc:92-97 | after the wait the command is pushed, without a look at the ready list |
| `Usenet.Usenet.OnConnBecomesReady` | src/nntp/usenet.cc:100-141 | the first queued command is started, or the connection joins the ready list, or it and all ready ones hang up |
| `Usenet.Usenet.OnConnected` | src/nntp/usenet.cc:143-160 | success makes the connection ready, any failure discards it |
| `Usenet.Usenet.OnStatFinished` | src/nntp/usenet.cc:162-184 | a lost STAT is pushed and the connection reconnects; otherwise it becomes ready |
| `Usenet.Usenet.DispatchOrQueue` | src/nntp/usenet.cc:186-210 | started on the first ready connection, or queued at the chosen end |
| `Usenet.Usenet.DiscardConnection` | src/nntp/usenet.cc:212-225 | the connection leaves the busy list; the work flag falls with the last one |
| `Usenet.Usenet.OnNotPermitted` | src/nntp/usenet.cc:231-237 | the connection is closed and discarded before its article is dispatched again |
| `Usenet.Usenet.HangupReady` | src/nntp/usenet.cc:131-137 | the loop hangs up every ready connection, in order |
| `Program.Program.PostFailed` | src/main.cc:184-258 | the verdict and the whole new state of main: retry count, fresh id in the header and in the exceptions, random line |
| `Program.Program.OnPostFinished` | src/nntp/usenet.cc:227-267 | the handler up to the end of its first section under the mutex, for all four results |
| `Program.Program.Resume` | src/nntp/usenet.cc:227-267 | the rest of the handler: dispatch after a discard, become ready after the callback, report after becoming ready |
| `Program.Program.SubmitPost` | src/main.cc:302-312 | one turn of the submission loop |
| `Program.Program.Exit` | src/main.cc:334-355 | exit code 0 exactly when the queue is empty |
| `Execution.Execute` | src/main.cc:285-355 | the object passes through exactly the states of the step system; so of its own fields: num_posted never exceeds the articles made, exit code 0 means every piece was posted exactly once, the queue stays within its bound, no request was refused, and ready connections are authenticated and hold nothing |
| `RunTheory.JointAlways` | src/nntp/usenet.cc:28-40 | the joint invariant of pool and connections in every reachable state |
| `ReachTheory.RolesAlways` | src/nntp/usenet.cc:100-141 | every connection has exactly one role; ready ones are authenticated with nothing pending; busy ones have exactly one obligation; no request was ever refused, no operand overwritten, no assertion failed |
| `ReachTheory.SoundAlways` | src/nntp/connection.cc:465-488 | through every run: read buffers hold nothing of an earlier session, and the history of every connection is in order |
| `ReachTheory.OperationsAlways` | src/nntp/connection.cc:265-278 | spelled out: call number j was made for operation number j and carried its result; all but at most the last operation have had theirs; each has a result as soon as the network has decided it, that result, and on replies of its own session |
| `TallyTheory.TallyAlways` | src/nntp/usenet.cc:70-267 | conservation in every reachable state: an article that was made is in exactly one of producer, queue, connection, handler, posted; and every start of it is accounted for |
| `TallyTheory.QueueBound` | src/nntp/usenet.cc:60-67 | with m_maxsize > 0: queued + in hand + ready <= m_maxsize + C in every reachable state, through all bypassing requeues |
| `Traces.BoundIsReached` | src/nntp/usenet.cc:227-258 | the bound is tight: for every m_maxsize and C some run has m_maxsize + C commands queued |
| `ReachTheory.RemainingNeverUnderflows` | src/main.cc:265-277 | num_posted never exceeds the number of pieces submitted |
| `ReachTheory.ExitedHow` | src/main.cc:329-355 | a run exits at the end of main, at rest, or in the handler of a failed post |
| `ReachTheory.ExitOk` | src/main.cc:334-349 | exit code 0: every piece was submitted and is reported posted exactly once |
| `ReachTheory.ExitAtRestIff` | src/main.cc:334-355 | a run that comes back from join() exits 0 if and only if every piece is reported posted and no STAT is left queued |
| `IdTheory.IdsAlways` | src/main.cc:184-258 | in every reachable state: the header of an article is the submitted one with random lines added and the id of msgid_exceptions, or of the run; retry counts equal failures, at most two before an abort; the assertion on the id never fails |
| `IdTheory.KeyOfArticle` | src/fileset.cc:70-87 | the id in a header reads back as the key of the piece, after any number of renamings |
| `IdTheory.PostFailedIds` | src/main.cc:186-255 | the callback counts the right piece and gives up exactly at its third failure |
| `BudgetTheory.DispatchBound` | src/main.cc:195-228 | at most 3N + C POSTs are started, for N pieces and C connections |
| `BudgetTheory.MeasureFalls` | src/nntp/usenet.cc:100-267 | every step but the end of a STAT lowers a measure |
| `BudgetTheory.RunsEnd` | src/nntp/usenet.cc:212-258 | a post-only run of N pieces over C connections has at most 92N + 42C + 2 steps |
| `FifoTheory.StepExclusion` | src/nntp/usenet.hpp:58-89 | one step keeps "no command queued beside a ready connection" if and only if it does not push without looking, or finds no ready connection |
| `FifoTheory.ExclusionIff` | src/nntp/usenet.hpp:58-89 | the exclusion holds throughout a run if and only if every push without looking found the ready list empty; such runs start commands in the order they came in |
| `OrderTheory.FifoIff` | src/nntp/usenet.cc:62-97 | a post-only run, whatever fails in it, keeps first in first out (started ++ queue = arrivals; equally, started is a prefix of arrivals) if and only if no step dispatched a command past a queue with a ready connection at hand |
| `ExitTheory.UnfailedExitIff` | src/main.cc:334-355 | the exact condition behind a lost article: a post-only run at rest in which no post failed or was refused exits 0 if and only if there was nothing to post, or no command lies beside a ready connection and some connection has logged in |
| `ExitTheory.RecheckLosesNothing` | src/nntp/usenet.cc:92-97 | with the second look at the ready list every such run on which somebody logged in exits 0, with every piece posted exactly once |
| `FifoTheory.UnboundedIsFifo` | src/nntp/usenet.cc:70-141 | with an unbounded queue and no lost STAT: the exclusion, and commands started ++ queue = arrivals, resubmissions included |
| `FifoTheory.RecheckRestores` | src/nntp/usenet.cc:62-67 | looking at the ready list again after the wait and in the STAT branch restores both, in every run |
| `Traces.StrandedArticle` | src/nntp/usenet.cc:92-97 | for every queue bound a run without any error in which the exclusion breaks, the order is kept, one article is never posted and the program exits 1 |
| `Traces.Overtaking` | src/nntp/usenet.cc:92-97 | and one in which a later article overtakes a queued one |
| `ProgressTheory.HaltedIff` | src/nntp/usenet.cc:60-64 | in a reachable state without exit no thread can take a step if and only if the producer waits at a full queue and nothing is under way |
| `ProgressTheory.PostOnlyHaltedIff` | src/nntp/usenet.cc:212-225 | without STATs exactly when, besides, every connection has been discarded |
| `ProgressTheory.WorkIff` | src/nntp/usenet.cc:212-225 | the work flag is up exactly until stop() or the loss of the last connection |
| `ProgressTheory.ProducerHangs` | src/nntp/usenet.cc:212-225 | such a run exists for every queue bound: one connection that cannot connect |
| `WireTheory.WiresAlways` | src/nntp/connection.cc:316-330 | in every reachable state: what was sent for an article reported posted, or about to be, is the article as main holds it now |
| `SuccessTrace.Succeeds` | src/main.cc:285-355 | for every list of pieces and at least one connection some run exits 0 with all of them posted |
| `Submission.Fileset.AddFile` | src/fileset.cc:11-19 | a regular file is appended with its own open stream; anything else changes nothing |
| `Submission.Fileset.TotalPieces` | src/fileset.cc:59-68 | the accumulated count is the number of pieces of all files |
| `Submission.Fileset.GetChunk` | src/fileset.cc:36-39 | the part of that file, or the exception for an index out of range |
| `Submission.SubmitFile` | src/main.cc:291-313 | one file: asked for in increasing order from a stream that has not failed, every part carries its full slice; its articles in order, with their sizes |
| `Submission.SubmitAll` | src/main.cc:287-314 | the nested loops hand on exactly one article for every piece, file after file, and record the sizes |
| `Submission.PieceIndex` | src/main.cc:289-313 | piece p of file f is article number offset(f) + p |
| `Submission.SubmissionIsValid` | src/main.cc:303-312 | keys are distinct and every header has the id of its key under the run nonce |
| `Submission.SubmitStats` | src/main.cc:317-327 | the nested loops behind the validate flag ask for the id of every piece under the run nonce, file after file; without the flag for nothing |
| `Submission.StatIdsAre` | src/main.cc:317-327 | STAT number j names the id that article number j was submitted with, and there are as many |
| `ValidateTheory.SubmittedStatsValidate` | src/main.cc:303-327 | what the two loops submit is the configuration the next rows are about |
| `ValidateTheory.AskedIdIff` | src/main.cc:253-255 | in every reachable state: an article is in msgid_exceptions if and only if it failed; and the STAT for it asks for the id in its header if and only if it never failed or its new nonce is the one of the run |
| `ValidateTheory.AsksForTheWrongId` | src/main.cc:316-325 | and the two do differ: for every such configuration a run in which one post fails and its STAT names an id that no article has |
| `ValidateTheory.StatNeverReposts` | src/main.cc:177-181 | the end of a STAT, whatever its result, changes nothing in main and submits no POST; at most the same STAT comes in again |
| `Nzb.GhettoXmlEscape` | src/main.cc:31-40 | the chain of replacements is one pass over the text |
| `Nzb.LastReplacementIsIdle` | src/main.cc:38 | the fifth replacement never fires |
| `Nzb.EscapedIsClean` | src/main.cc:31-40 | the output has no quote, apostrophe or angle bracket |
| `Nzb.UnescapeInvertsIff` | src/main.cc:31-40 | unescaping inverts the escaping exactly on the texts that contain no entity of their own |
| `Nzb.UnescapeInverts` | src/main.cc:31-40 | so on every text without an ampersand |
| `Nzb.AmpersandCollides` | src/main.cc:31-40 | `<` and `&lt;` come out the same |
| `NzbFile.WriteNzb` | src/main.cc:44-89 | the nested loops write exactly the lines of the NZB: preamble, and for every file its groups and segments |
| `NzbFile.WriteSegments` | src/main.cc:67-84 | the segment lines: recorded size, number, and the id of the exception or of the run, without brackets |
| `NzbFile.NzbRoundTrip` | src/main.cc:44-89 | a reader of the text recovers, file by file, the size, number and id of every segment |
| `EndToEnd.ReadWire` | src/nntp/connection.cc:316-330 | a reader of the wire bytes finds the message id and the part |
| `EndToEnd.WriteIndex` | src/main.cc:334-348 | called at the end of main with the recorded sizes and the exceptions of the callbacks, write_nzb writes the text the next two rows are about |
| `EndToEnd.FilesComeBack` | src/main.cc:44-355 | exit code 0: following the segment ids of the NZB in order to the articles reported posted, decoding and joining gives every file, byte for byte |
| `EndToEnd.NzbNamesPosted` | src/main.cc:68-81 | exit code 0: every article reported posted has its segment in the NZB, with its part number and payload size, and there are as many articles as segments |
| `DummyServer.ReceiveArticle` | misc/dummy_usenet/dummy_server.cc:71-87 | the inner loop: lines go to the file up to and including the lone dot; a NUL byte or the end of input ends the session |
| `DummyServer.UsenetSession` | misc/dummy_usenet/dummy_server.cc:31-96 | the session on all bytes a client sends: what it answers, stores and reports |
| `DummyServer.ServeArticle` | misc/dummy_usenet/dummy_server.cc:71-87 | an article with no dot line before its end and no NUL is taken and stored whole |
| `DummyServer.SessionStoresAll` | misc/dummy_usenet/dummy_server.cc:31-96 | login, any list of such articles, QUIT: exactly these are stored, in order, without a violation |
| `Lockstep.InStepAlways` | src/nntp/connection.cc:86-358 | client and server, connected, in any interleaving and any cutting of the bytes: their positions in the protocol match in every reachable state |
| `Lockstep.ServerStoresArticles` | misc/dummy_usenet/dummy_server.cc:45-96 | the server never reports a violation, its files are the wire bytes of the articles told, in order, and the client reports nothing but success |
| `PeerTheory.RunArticlesArePostable` | misc/dummy_usenet/dummy_server.cc:74-82 | every article main holds in any reachable state is one that the server takes whole, after any number of failures |
| `NetTheory.PoolRuns` | misc/dummy_usenet/dummy_server.cc:120-125 | the product of the whole pool with one session of the dummy server per connection: its pool side is a run of the program |
| `NetTheory.ServersAlways` | misc/dummy_usenet/dummy_server.cc:31-96 | in every reachable state of that product: no server reports a violation, and each has stored, in order, the wire bytes of all articles its connection was told to post, but at most the one under way |
| `NetTheory.StoredOnce` | misc/dummy_usenet/dummy_server.cc:31-96 | exit code 0: every piece was told to exactly one connection, once, and every server holds exactly what its connection was told: each article is stored exactly once across the servers |
| `NetTheory.SubmissionIsPeaceful` | src/main.cc:285-314 | the articles of the submission loops meet what the product assumes, for clean settings and file names and connections with TLS |

## Left out

- Usenet.Usenet.OnConnBecomesReady: in the shutdown branch (src/nntp/usenet.cc:123-129) the source splices the connection into m_ready and erases it through m_busy; the model takes it out of both lists, which is the intended effect.
- Usenet.Usenet.OnStatFinished: the call of the stat-finished slot after the connection became ready, which prints a line, is left out.
- Usenet.Usenet.Enqueue: the wait on the condition variable and its notification are not modelled as such; the caller is told to wait, and may go on in any state in which the predicate of the wait holds.
- Connection.Connection.Complete: timers, TLS, name resolution and sockets are events that succeed, fail or deliver bytes; a write is all or nothing.
- Program.Program.PostFailed: the dump file written before an abort and the progress output are left out.
- EndToEnd.WriteIndex: the test of the queue size is in Program.Program.Exit, and the opening of the output file, which may fail, is left out.
- OrderTheory.FifoIff: for runs without STATs; a STAT that is lost comes in again, so two commands may be equal and trade places unseen.
- NetTheory.ServersAlways: sessions without errors and runs without STATs, as in Lockstep.
- Submission.Fileset.GetChunk: a file does not change while it is read, and every read that is not short succeeds.
- MessageId.KeyOfPrinted: of std::stoul only digits are modelled, not leading blanks or a sign; overflow of size_t is not modelled.
- More than one IO thread, and data races on the work flag: src/main.cc assumes one thread, and the flag is atomic here.
- Lifetimes of C++ objects: connections erased inside their own handlers, buffers of writes in flight.
- Liveness: nothing is claimed about a producer that waits being woken; ProgressTheory says when nobody can go on.
- STAT in the product of client and dummy server: the dummy server never answers it. STAT is in the pool and in the connection.
- Errors in the product of client and dummy server: Lockstep covers sessions without errors; errors are in the pool model.
- DummyServer.ReceiveArticle: the file of an article that is cut off before its dot line stays behind in the source; here only whole articles are stored.
- The order of filepiece_key (src/fileset.cc:89-97) only serves std::map, which is a Dafny map here.
- Reading the configuration, walking directories, the choice of output path, and opening the NZB file.
- The quality of the random texts: only their alphabet and length are used.
- The date of the NZB is a parameter.
