# Verification of the content-addressed file store

The repository stores files as blocks that are named by the md5 of their content. Uploading clients
(`src/client`), one proxy (`src/proxy`) and any number of storage servers (`src/sserver`) talk over TCP
sessions with length-prefixed messages (`src/common/asio_wrapper`); `examples/file_download.cpp` is the
client that downloads. No process checks much of what the others tell it: the agent never looks at the md5
in an acknowledgement, the proxy registers a file without looking whether its blocks arrived, and one
acknowledgement from a server answers every client that waits for the same block there. That files come
back as they went in is therefore a property of all the interleavings of all the processes. This project
models the processes and the channels between them and proves it.

## How the project is built

* `Types`, `FileBlocks`: byte strings, messages, the block list of a file, file ids, the pieces of a block.
  The hash function is a parameter `h` everywhere. Nothing is assumed about it; where collisions matter,
  their absence is a hypothesis about the finitely many strings hashed in the run at hand.
* `ServerModel`, `AgentModel`, `ProxyModel`, `DownloaderModel`: what each handler does, as a function from a
  state and a message to the new state, the messages sent and the outcome (going on, closing the session,
  or ending the process: a failed assertion, `exit`, or an access beyond a list).
* `StorageServerClass`, `AgentClass`, `ProxyClass`, `FileDownloadClass`: the same handlers in the form of the
  source, as classes with mutable fields, loops and calls. Each method is proved to compute exactly the
  function of the model, so that everything proved about the functions holds of them.
* `Requests`, `BlockSets`, `Exits`: what the handlers do in any state, also in those that no run reaches: which blocks are
  asked for, how stored blocks are announced, and when a process ends or closes a session.
* `Framing`, `SessionClass`: the session with its coalescing write queue and its reader, as a class with
  ghost histories. It is why the channels of the system model may be queues of messages.
* `SystemModel`: the whole system as a state and its steps. A handler is one step, since every process is
  single-threaded. Clients and servers join, close and are dropped at any time. A write completion can come
  at any time while a write is under way, since completions are coalesced. Which server is picked for a
  block, and the order in which a hash table or set is walked, are left open.
* `ServerLinks`, `Invariant`: the invariant of the system. `Frames`, `ConnectSteps`, `ClientSteps`,
  `ServerSteps`, `ProxySteps`, `UploadHandlers`, `DownloadHandlers`, `CloseHandlers`, `ServerHandlers`,
  `VoteHandlers`: every kind of step keeps it. `Runs`: so it holds in every state of every run.
* `Safety`, `EndToEnd`: what follows for a user of the system. `DownloadHistory`: what has passed between the proxy
  and a downloading client since the start of a run. `Scheduler`: what a client sees of a server's scheduler.
* `Measure`, `ClientProgress`, `ServerProgress`, `ProxyProgress`: a lexicographic measure (requests, blocks,
  weight of pieces, messages, callbacks and writes) falls with every step other than joining and leaving.
  `Due`, `Progress`, `OverlookedReplies`: where the system then comes to rest. `DroppedServers`: when the proxy drops
  a server of its own accord. `Replies`: where the replies to a block come from. `StayingConnected`, `LoneUploads`, `DownloadsEnd`, `StoredFiles`: conditions on a run under which every
  upload, every download, and every download of a file uploaded in the run ends well.
* `Shortcomings`, `UnreadyServers`: short concrete runs that reach the states in which the code falls short.

Four results say where the code falls short, and exactly when it does not.

* `OverlookedReplies.OverlookedExactly`: an agent that handles a reply while it is still sending the block
  ignores it and then waits for ever (`OverlookedForEver`). One acknowledgement answers every flow that waits for the
  same block at the same server, and `Shortcomings.ReplyOverlooked` is such a run. Nothing else stops an upload: at
  rest every connected upload has succeeded if and only if it has not overlooked a reply (`Progress.UploadsAtRest`);
  and none does as long as no two flows wait for the same block at the same server and nothing makes the proxy drop a
  server (`LoneUploads.NoEarlyReply`, `LoneUploads.LoneUploadsEndWell`).
* `EndToEnd.EmptyFileExactly`: a file of no bytes can be registered, and asking for it makes the proxy read beyond an
  empty list (`Shortcomings.EmptyFileStopsProxy`); no other download does.
* `Safety.ProxyExitsExactly`: the other way for the proxy to end is a block that is uploaded when no server is
  connected (`UnreadyServers.NoServerStopsProxy`).
* `DroppedServers.DisorderExactly`: a server can be picked before the proxy has its whole list of blocks. It gets out
  of order exactly when it answers a request before its last block set, and is then dropped
  (`UnreadyServers.UnreadyServerDropped` reaches this with any store of more than 128 blocks). If only servers whose
  lists have been received in full are picked, or no server joins with more than 128 blocks, no server is ever
  dropped but by a closing session (`DroppedServers.NoServerDropped`).

## Model

| member | source | states |
|---|---|---|
| FileBlocks.SplitFits | src/client/agent.cpp:20-49 | every block of a file's list lies in the file, has 1 to 64 MB and carries the hash of its bytes |
| FileBlocks.SplitCovers | src/client/agent.cpp:20-49 | the blocks in list order concatenate to exactly the file |
| FileBlocks.SplitExact | src/client/agent.cpp:20-49 | every block but the last has exactly 67108864 bytes, block i starts at 67108864 * i, the last has the rest, and there are ceil(n / 67108864) blocks |
| FileBlocks.FileIdIs | include/proxy/proxy.h:56-62 | the file id is the hash of the one text that has the 32-character md5s in list order |
| FileBlocks.FlattenInjective | include/proxy/proxy.h:56-62 | the concatenation of fixed-length md5 texts determines the list of md5s |
| FileBlocks.FileIdDeterminesList | include/proxy/proxy.h:56-62 | two block lists have the same file id if and only if they are the same list, when the hashed texts do not collide |
| FileBlocks.PiecesAreTheBlock | src/sserver/storage_server.cpp:47-62 | the pieces of a block are max(1, ceil(n/4096)) in number, indexed upwards without gaps, with eof on the last and no other, of exactly 4096 bytes each but for the last, and concatenate to the block |
| AgentClass.Agent.GetMd5sFromFile | src/client/agent.cpp:20-49 | the reading loop computes the block list Split |
| AgentClass.Agent.SendBlockPieceFromCurrentPoint | src/client/agent.cpp:60-97 | computes AgentModel.SendBlockPiece: next piece, eof, state change, assertions and exits |
| AgentClass.Agent.OnMessage | src/client/agent.cpp:121-178 | computes AgentModel.OnMessage in every state for every message |
| AgentClass.Agent.OnWriteComplete | src/client/agent.cpp:180-188 | a write completion sends a piece only while blocks are being uploaded |
| AgentModel.NextPiece | src/client/agent.cpp:60-97 | the piece sent is the next up to 4096 bytes of the current block, with eof exactly when it reaches the block's end, and the block has the hash it is announced with |
| AgentModel.AnyMessage | src/client/agent.cpp:121-178 | in any state, which messages make the agent close, succeed or fail, and that all others are ignored in the states that expect none |
| AgentModel.FindFirst | src/client/agent.cpp:72-79 | of several blocks with the same md5 the first is sent |
| AgentModel.OnMessageFollows | src/client/agent.cpp:121-178 | on any reply it can get the agent meets no assertion and no exit, its pieces continue its stream, and it closes only on a failure reply |
| AgentModel.OnWriteCompleteFollows | src/client/agent.cpp:180-188 | the same for write completions |
| StorageServerClass.StorageServer.OnMessage | src/sserver/storage_server.cpp:65-153 | computes ServerModel.OnMessage for every message and state |
| StorageServerClass.StorageServer.SendSomeMd5PieceToProxy | src/sserver/storage_server.cpp:24-63 | computes ServerModel.SendPiece: lowest flow first, one piece, context and count updated |
| StorageServerClass.StorageServer.SendSomeMd5sToProxy | src/sserver/storage_server.cpp:233-255 | computes ServerModel.SendMd5s: the next at most 128 md5s, last message and change of state |
| StorageServerClass.StorageServer.CleanDownloadContext | src/sserver/storage_server.cpp:212-227 | computes ServerModel.CleanDownload: forgets the flow and releases its use of the cached block |
| BlockSets.BlockSetExactly | src/sserver/storage_server.cpp:233-255 | a block set carries exactly the next 128 names or all that are left, and is marked as the last if and only if none are left behind it |
| BlockSets.AnnouncedExactly | src/sserver/storage_server.cpp:233-255 | n names are announced in order in max(1, ceil(n/128)) messages, of which the last and no other is marked |
| ServerModel.PieceExactly | src/sserver/storage_server.cpp:69-114 | in any state a piece is appended to the flow's block; a finished block is stored and acknowledged if it has the hash it is announced with, and else reported as failed and thrown away |
| ServerModel.OnMessageKeeps | src/sserver/storage_server.cpp:65-153 | every message keeps store and cache consistent, nothing stored changes, and no exit is reached by an acceptable request |
| ServerModel.OnWriteCompleteKeeps | src/sserver/storage_server.cpp:155-169 | every write completion keeps store and cache consistent |
| ServerModel.DownloadExitsExactly | src/sserver/storage_server.cpp:116-140 | the exits of the request handler are reached exactly by a request for a block not stored or on a flow already served |
| ServerModel.OnMessageConserves | src/sserver/storage_server.cpp:24-63 | whatever is interleaved, what is sent to a flow followed by what it still has to get is what it had to get before plus what it just asked for |
| ServerModel.OnWriteCompleteConserves | src/sserver/storage_server.cpp:155-169 | the same conservation for write completions |
| Scheduler.SequenceConserves | src/sserver/storage_server.cpp:24-63 | over any sequence of messages and write completions that does not cancel the flow, what it was sent followed by what is left is what was left at first plus what it asked for |
| Scheduler.ServedInFull | src/sserver/storage_server.cpp:24-63 | whatever comes between, a client that asks for a stored block is sent the pieces of that block in order and nothing else, and all of them exactly when the server has no context for it any more |
| ServerModel.DrainExact | src/sserver/storage_server.cpp:24-63 | a fixed set of flows is drained after exactly as many sends as the pieces left |
| ServerModel.RemainingCount | src/sserver/storage_server.cpp:47-62 | the pieces left for a flow are max(1, ceil((L - offset)/4096)) |
| ServerModel.OnMessageFollowsStream | src/sserver/storage_server.cpp:69-114 | while a flow's pieces are in sequence the accumulator is exactly the stream so far, no mismatch is reported, and a finished block is stored and acknowledged |
| ProxyClass.Proxy.GetNeedUploadMd5s | src/proxy/proxy.cpp:76-100 | the counting loops compute the md5s that no connected server lists |
| ProxyClass.Proxy.GetFileId | include/proxy/proxy.h:56-62 | the appending loop computes the file id |
| ProxyClass.Proxy.ClientOnMessage | src/proxy/proxy.cpp:265-324 | computes ProxyModel.OnClientMessage for every state and message |
| ProxyClass.Proxy.ClientOnClose | src/proxy/proxy.cpp:326-355 | computes ProxyModel.OnClientClose: the flow is forgotten and every server told to clean up unless the flow was finished |
| ProxyClass.Proxy.StorageOnMessage | src/proxy/proxy.cpp:366-421 | computes ProxyModel.OnServerMessage for every state and message |
| ProxyClass.Proxy.StorageOnClose | src/proxy/proxy.cpp:423-429 | computes ProxyModel.OnServerClose: every pending callback votes for failure |
| ProxyClass.Proxy.PubBlockAckEvent | include/proxy/storage_context.h:41-53 | runs every callback for the block in order of registration and forgets them |
| ProxyClass.Proxy.OnBlockEvent | src/proxy/proxy.cpp:121-149 | one vote: the counter moves and a reply is sent when the count is one |
| ProxyModel.CastVotesFrame | src/proxy/proxy.cpp:121-149 | votes of others, or of flows that have left, change nothing of a flow and send it nothing |
| ProxyModel.CastVotesEffect | src/proxy/proxy.cpp:121-149 | a flow with one callback among any number gets exactly its one vote and one reply naming its block |
| ProxyModel.NeedUploadCovers | src/proxy/proxy.cpp:76-100 | the list to upload has exactly the requested md5s that no connected server lists |
| Requests.NeedUploadExactly | src/proxy/proxy.cpp:76-100 | it is the requested list, in order, at exactly the positions whose block no connected server lists |
| Requests.ReallyNeedExactly | src/proxy/proxy.cpp:209-220 | the blocks to download are the registered list, in order, at exactly the positions whose block the client does not have |
| Requests.ReallyNeedMembers | src/proxy/proxy.cpp:209-220 | they are the members of the list that the client does not have, each as often as in the list |
| Requests.UploadRequestAnswered | src/proxy/proxy.cpp:102-111 | an upload request is answered, in any state of the proxy, with the blocks of the list that no connected server lists, in order |
| Requests.DownloadRequestAnswered | src/proxy/proxy.cpp:194-238 | a download request leads to file_not_exist, to a request for the first block of the list that the client does not have from a server that lists it, to a closed session, or to an exit, with the exact condition of each |
| Exits.TransferAckAnswered | src/proxy/proxy.cpp:297-311 | an acknowledged block leads to a request for the next block, to transfer_all_blocks, to a closed session, or to an exit, with the exact condition of each |
| Exits.UnexpectedFromClient | src/proxy/proxy.cpp:265-324 | a message that the client's state does not expect closes its session and changes nothing else |
| Exits.UnexpectedFromServer | src/proxy/proxy.cpp:366-421 | a message that the server's state does not expect closes its session and changes nothing else |
| Exits.AgentExitsExactly | src/client/agent.cpp:60-97 | in any state, exactly when the assertions and exits of sending a piece are reached |
| Exits.SendPieceExitsExactly | src/sserver/storage_server.cpp:24-63 | in any state, exactly when the exit and the assertion of sending a piece are reached |
| FileDownloadClass.FileDownload.Run | examples/file_download.cpp:51-87 | the receive loop computes HandleAll of the messages it gets |
| FileDownloadClass.HandlesTransfer | examples/file_download.cpp:60-85 | given the blocks of a file in order the loop writes their concatenation, acknowledges each block once and in order, and ends as done |
| Framing.NetworkRoundTrip | src/common/asio_wrapper/util.cpp:13-19 | the two byte order conversions undo each other |
| FileDownloadClass.HandlesUpTo | examples/file_download.cpp:60-85 | whatever arrives, pieces are written in order, each end of a block is acknowledged, and the first other message ends the loop, well if it is transfer_all_blocks and as a failure otherwise |
| Framing.NetworkOrder | src/common/asio_wrapper/util.cpp:13-19 | byte k of the prefix is (n / 256^(3-k)) % 256: the most significant byte comes first |
| Framing.ParseFrames | src/common/asio_wrapper/session.cpp:24-82 | frames parse back to their messages, whatever follows them |
| Framing.OverlongStops | src/common/asio_wrapper/session.cpp:24-38 | a length over 65534 ends the stream: nothing behind it is delivered |
| Framing.LimitExactly | src/common/asio_wrapper/session.cpp:24-38 | a message of 65534 bytes is delivered and one of 65535 ends the stream |
| Framing.PrefixParsed | src/common/asio_wrapper/session.cpp:24-82 | any prefix of the bytes of frames parses to a prefix of the messages, all bytes to all |
| SessionClass.Session.DoWrite | src/common/asio_wrapper/session.cpp:123-152 | completed bytes, bytes in flight and queued buffers together are the frames of all sends in call order |
| SessionClass.Session.WriteCompletes | src/common/asio_wrapper/session.cpp:154-179 | the write-complete event fires exactly when writing goes from true to false, and then everything sent is written |
| SessionClass.Session.LengthRead | src/common/asio_wrapper/session.cpp:24-50 | reads four bytes as a number, the most significant first, and closes exactly if it exceeds the size of the buffer less one, 65534 |
| SessionClass.Session.BodyRead | src/common/asio_wrapper/session.cpp:52-82 | the body is copied to the buffer and delivered, one message per request |
| SessionClass.ReceiveAll | src/common/asio_wrapper/session.cpp:24-82 | for any chunking exactly the complete messages are delivered, in order |
| SessionClass.SessionsAreFifo | src/common/asio_wrapper/session.cpp:24-209 | two ends form a FIFO channel: whatever part of the bytes written or in flight has arrived, delivered is a prefix of sent, and it is all of it once nothing is queued and all has arrived |
| Runs.StepKeeps | src/proxy/proxy.cpp:265-429 | every step of every process keeps the invariant of the system |
| Runs.RunKeeps | src/proxy/proxy.cpp:265-429 | the invariant holds in every state of every run |
| Safety.RegisteredMeansStored | src/proxy/proxy.cpp:178-192 | for every success sent to an agent the id is registered and every block of its list, and of the agent's file, is stored by some server with content of that hash |
| Safety.IdsDetermined | src/proxy/proxy.cpp:178-192 | every registered id is the hash of its list and every listed block is stored |
| Safety.AckAlignment | src/client/agent.cpp:140-154 | the only reply an agent can get names the block it is at, and an acknowledged block is stored |
| Safety.OneReplyPerBlock | src/proxy/proxy.cpp:117-161 | first pieces, callbacks and replies of a block are at most one together; callbacks and counted votes of a begun block are exactly one |
| Safety.UploadIsolation | src/proxy/proxy.cpp:113-175 | server accumulator, then pieces on their way, are exactly the part of the block its agent has sent, whatever other flows do |
| Safety.AccumulatorIsPrefix | src/sserver/storage_server.cpp:69-83 | with the channels drained the accumulator is the exact prefix of the block sent so far |
| Safety.NoMismatch | src/sserver/storage_server.cpp:85-91 | no server ever reports a hash mismatch |
| Safety.IndexAgrees | src/sserver/storage_server.cpp:92-112 | a server's store is exactly the proxy's index of it, the md5s announced on the way and those still to be announced; the index is exact once drained |
| Safety.CacheCounts | src/sserver/storage_server.cpp:120-138 | each cached block's count is the positive number of its users, no download lacks its cached block, and cached bytes are the stored bytes |
| Safety.ServerNeverExits | src/sserver/storage_server.cpp:38-45 | no assertion or exit of a server is ever reached |
| Safety.AgentNeverExits | src/client/agent.cpp:69-91 | no assertion or exit of an agent is ever reached |
| Safety.NoLostWakeUp | src/sserver/storage_server.cpp:155-169 | whoever has more to send has a write under way |
| Safety.ProxyExitsExactly | src/proxy/proxy.cpp:54-60 | the proxy ends exactly when a block is uploaded with no server connected, or a registered empty list is requested |
| Safety.ProxyClosesExactly | src/proxy/proxy.cpp:227-233 | the proxy closes a client's session on a message exactly when the next block wanted is indexed nowhere |
| DroppedServers.HandledOrder | src/proxy/proxy.cpp:366-421 | a server whose messages are in order is not dropped for the next one; one out of order is dropped, or is out of order with the rest |
| DroppedServers.DisorderExactly | src/sserver/storage_server.cpp:65-169 | a server's messages get out of order exactly when it answers a request before it has sent its last block set |
| DroppedServers.NoServerDropped | src/proxy/proxy.cpp:54-74 | in a run in which the proxy closes no server's session and picks only servers whose last block set it has, or no server joins with more than 128 blocks, no server is dropped |
| UnreadyServers.UnreadyServerDropped | src/proxy/proxy.cpp:366-418 | with any store of more than 128 blocks, a run reaches a state in which the proxy drops the server for acknowledging a block it has stored, and the client is told that its upload has failed |
| UnreadyServers.NoServerStopsProxy | src/proxy/proxy.cpp:54-60 | a run of three steps after which every choice of a server ends the proxy process |
| Safety.OneOutstandingRequest | src/sserver/storage_server.cpp:128-138 | requests, contexts, final pieces and acknowledgements of a downloading flow are at most one together, at one server |
| Safety.NoMisdelivery | src/proxy/proxy.cpp:402-413 | a piece from a server is for a downloading flow that waits for exactly this block, or has left |
| Safety.NoContextLeft | src/sserver/storage_server.cpp:141-145 | once a flow has left and the channel is drained, the server has no context of it |
| EndToEnd.RunGrows | src/proxy/proxy.cpp:178-187 | in every run what is stored stays stored and the id table is write-once |
| EndToEnd.DownloadedIsTheFile | examples/file_download.cpp:60-85 | whoever ends the download of a file's id has written exactly that file |
| EndToEnd.EndToEndIdentity | src/proxy/proxy.cpp:178-225 | after an agent's success the file stays registered and stored, and every later completed download of its id writes exactly the file |
| ProxyProgress.StepLowers | src/proxy/proxy.cpp:265-429 | every step other than joining and leaving lowers the lexicographic measure of requests, blocks and weight |
| ProxyProgress.EveryRunStops | src/proxy/proxy.cpp:265-429 | from every reachable state, no sequence of such steps goes on for ever |
| Progress.UploadsAtRest | src/client/agent.cpp:121-188 | when nothing more can happen and the connected servers are alive, a connected agent has succeeded if and only if it has overlooked no reply |
| Progress.DownloadsAtRest | src/proxy/proxy.cpp:194-238 | when nothing more can happen and the connected servers are alive, a download that the proxy has not closed is done if and only if its request was found and no server has left with pieces of its block; it has failed exactly when its file was not registered, and an unhandled request is for a registered empty list |
| DownloadHistory.DownloadCounts | src/proxy/proxy.cpp:297-311 | in every run the acknowledgements handled for a download are exactly the blocks before the current one in list order; transfer_all_blocks is sent at most once, after one acknowledgement of every block of the list in order, and exactly when the proxy takes the download for finished |
| DownloadsEnd.DownloadsEndWell | src/proxy/proxy.cpp:194-238 | if all blocks of the registered list are indexed when the request is handled, nobody closes the session and nothing makes the proxy drop a server, the download is done when the system comes to rest, after one acknowledgement per block in order and one transfer_all_blocks |
| StoredFiles.StoredFileComesBack | src/proxy/proxy.cpp:178-238 | in such a run, whoever asks for the id of a file after its agent has succeeded has written exactly that file when the system comes to rest |
| OverlookedReplies.OverlookedExactly | src/client/agent.cpp:121-177 | a step loses the reply of a connected agent's block if and only if the agent handles a message while uploading_blocks |
| OverlookedReplies.OverlookedForEver | src/client/agent.cpp:121-177 | an agent that has overlooked a reply never succeeds |
| OverlookedReplies.UploadsEndWell | src/client/agent.cpp:121-188 | an upload that stays connected and handles no reply while sending a block has succeeded when the system comes to rest |
| LoneUploads.NoEarlyReply | src/client/agent.cpp:121-177 | in a run in which no two flows ever wait for the same block at the same server and nothing makes the proxy drop a server, an agent that has a reply to handle is never still sending |
| Replies.AckPassedOn | src/proxy/proxy.cpp:121-149 | a server's acknowledgement of a block is passed on, as an acknowledgement, to exactly the connected clients that wait for this block there, each of which gets it as its only message |
| Replies.RepliesComeFrom | src/proxy/proxy.cpp:121-149 | a client gets an acknowledgement only in a step that handles this acknowledgement from the server where it waits, and a failure only in a step that drops that server |
| Replies.FailurePassedOn | src/proxy/proxy.cpp:121-149 | a failure from a working server is passed on as a failure to a client that waits for the block there, and the index stays as it is |
| StayingConnected.RunStays | src/client/agent.cpp:121-178 | as long as no server is dropped, an upload stays connected unless somebody closes its session |
| LoneUploads.LoneUploadsEndWell | src/client/agent.cpp:121-188 | in such a run every upload whose session nobody closes is still connected, and has succeeded, when the system comes to rest |
| Shortcomings.ReplyOverlooked | src/client/agent.cpp:121-177 | for every hash, a run of two clients storing the same file of two pieces reaches a state whose next step overlooks a reply |
| Shortcomings.EmptyFileStopsProxy | src/proxy/proxy.cpp:221-223 | for every hash, a run of five steps reaches a state in which handling the request for an empty file reads beyond the empty list |
| EndToEnd.EmptyFileExactly | src/proxy/proxy.cpp:221-223 | asking for a registered file reads beyond the empty list if and only if the file is empty |

## Left out

- JSON and base64: messages are a datatype; the libraries are not part of this model.
- Redis, disk and sockets: the id table, path table and block files are maps; a session is two byte queues.
- MD5 itself: a parameter; the absence of collisions is a hypothesis over the strings of the run.
- block_backup_count: 1, as in conf/proxy.conf; `readyToReplyClient` hard-codes one vote.
- Integer widths: flow ids, offsets and counters are unbounded; only the 32-bit length prefix is exact.
- Relaying to a server that has left: the source follows an empty pointer there (src/proxy/proxy.cpp:172); the model drops the message.
- The failure messages a server tries to send while closing (src/sserver/storage_server.cpp:173-176): the session is closed, so they go nowhere.
- Partial writes, crashes and recovery: block files are written whole, and a stopped process does not come back with its state.
- The random retry loop of `selectSuitableStorageServers`: any connected server may be picked.
- Download requests that list blocks already held: the shipped client lists none; the filter itself is modelled.
- Reads of a file return min(64 MB, what is left): the source does not grow its buffer back after a shorter read.
- Connecting and accepting are one step.
- LoneUploadsEndWell: two flows that wait for the same block at the same server need not overlook a reply; which timings do is what OverlookedExactly says.
- DownloadsAtRest: a download whose server leaves in mid-block gets no more pieces; the source does not ask another server.
- A read that completed before the session was closed and is handled after: the model delivers no message once the session has closed.
- Configuration, logging, timers and the programs around the classes.
