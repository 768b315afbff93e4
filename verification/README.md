# Phirepass, modelled and verified

Phirepass relays terminal and file-transfer sessions between three parties: a browser, a
server and an agent on the machine being reached. This project models the parts of it whose
correctness spans several tasks or several calls, and proves what they guarantee.

## What is modelled

**The relay** (`Protocol`, `Pipes`, `RelayModel`, `RelayInvariants`, `RelayAddressing`,
`RelayEmission`, `RelayEmissionSteps`, `RelayIntake`, `RelayIntakeSteps`, `RelayTheorems`,
`RelayRegistration`, `RelayWitness`). Browser connections, node sockets, agents and session
tasks form one transition system. Each operation on a shared table and each push to or pop from a queue is a
step of its own; the reader task of every connection and socket is sequential, and so is the
task of every session. A node may register any number of times, each time with a new socket.
An invariant over all interleavings (`Inv`) carries the theorems: isolation, stream fidelity,
ordering, causality at open, closed sessions staying dead, the disconnect as a barrier, and what
the end of a node's socket does to registrations and routes.
Frames carry tags that say who really pushed them. No handler reads a tag; the theorems
compare the tags with what the handlers decided. `RelayWitness` holds concrete runs: the
system moves, and three natural claims about it are false.

**The tables of server and agent** (`ServerTables`, `AgentSessions`). The same handlers as
classes over their maps, one handler at a time. The server's tunnel table is tied to the
history of its events; every session of the agent is either in its table or stopped.

**File transfer** (`Chunks`, `RemoteFiles`, `Download`, `UploadModel`, `UploadInvariants`,
`UploadTheorems`, `UploadWitness`, `UploadTable`). The agent's download table and the browser's
reassembly are classes proved against functions on values, and the theorems combine both sides under
arbitrary interleaved traffic. Uploads are a transition system in which every operation on the
upload map and every SFTP call is one step of some session's task, plus a class for the
handlers run one at a time and the browser's upload loop on top of it. Remote files follow
version 3 of the SFTP protocol (draft-ietf-secsh-filexfer-02): section 6.3 for appending,
6.4 for reads, 6.5 for renaming. `RemoteFiles` separates names from files, so an open handle
keeps its file when the name moves or goes.

**Leftovers** (`Leftovers`). What the agent still holds of a connection after its disconnect.

**Identity** (`Tables`, `Identity`, `IdentityTheorems`). Claiming a node, the challenge and
its verification, tokens and socket registration. `Tables` is the database as a class, one
method per SQL statement, with the handlers run without interruption; `Identity` interleaves
the statements of concurrent requests.

**Frame codec and heartbeats** (`Codec`, `Liveness`).

## Assumptions

- Connection ids and challenges are fresh; a session id and a transfer id are drawn from
  counters that do not wrap (fewer than 2^32 in the lifetime of the process).
- One agent process per node id; it may reconnect, but does not restart.
- `OpenTunnel.protocol` is 0 (SSH) or 1 (SFTP).
- A socket is a reliable FIFO. A bounded queue may refuse or lose a frame at any time where the
  code drops (`try_send`, a closed receiver, a writer that fails), and the stale sweep may take
  any server entry at any time; both allow more runs than the code has.
- Iterating over a shared table sees every entry that stays in it, and may see later ones.
- The payload serializers are parameters that round-trip. Signature checks are a parameter, and
  only tokens the server issued decode.
- Clocks are values passed to the handlers. Only `Liveness` and `Leftovers` assume that time
  does not run backwards.

## Where the code falls short of a natural reading

- A challenge is read and deleted by two statements. Two verifications that both read it before
  either deletes it both get a token (`TwoTokens`, `BothFoundBothIssue`); in every run with two
  tokens for a challenge both read it before its first deletion (`TwoTokensLookedUpFirst`).
- A claim checks ownership and writes by two statements. A user racing for a new key can be told
  that it owns a node of somebody else, exactly under the condition of `ForeignNodeIff`.
- The comment at agent/src/sftp/actions/upload.rs:179 says that the handle is closed before the
  rename. The upload is dropped only when the handler returns, so the model closes it after.
- Delete trims all slashes at the end of a directory, upload keeps them: for directories that
  end in two or more slashes a delete misses the upload (`DeletePathIsFilePath`).
- An empty file has no chunks: it is never saved by a download and never committed by an upload
  (`EmptyFileNeverSaved`, `EmptyNeverAcked`).
- The end of a node's older socket unregisters its newer one (`OlderSocketUnregistersNewer`); a
  registration survives exactly under the condition of `RegistrationSurvivesIff`.
- A route can outlive the registration of its node (`RouteMayOutliveNode`); `OrphansIff` names
  the three steps that bring it about.
- A failed SSH open is reported by session id before any TunnelOpened, so the report never
  arrives (`UnannouncedNeverHeard`).

## Model

| member | source | states |
|---|---|---|
| RelayTheorems.Isolation | server/src/web.rs:523-562 | in every interleaving, commands reach a session only from the connection whose OpenTunnel created it, and its frames reach only that connection |
| RelayTheorems.InboundFidelity | agent/src/ws.rs:745-765 | what a session's loop has taken (for SSH: the bytes given to the channel) is a prefix of what the server accepted for it: nothing lost in the middle, reordered or doubled |
| RelayTheorems.OutboundInOrder | agent/src/ssh/connection.rs:159-174 | deliveries of one session are frames it produced, in its order, none twice |
| RelayTheorems.NothingVanishes | agent/src/common.rs:12-47 | a produced frame is delivered, still queued or on the wire of its socket (lost with it once the socket has ended), in the reader's hands, or recorded as dropped by an enqueue or a lookup |
| RelayTheorems.ClosedStaysDead | server/src/node.rs:372-430 | after the server handled TunnelClosed of (node, sid) no continuation routes to it, and only that TunnelClosed can still be delivered |
| RelayTheorems.OneOpenedOneClosed | agent/src/ws.rs:931-967 | a session is announced at most once and closed at most once, after the announcement and last of all, each time with its own ids |
| RelayTheorems.DisconnectIsBarrier | agent/src/ws.rs:837-853 | once the agent finished handling ConnectionDisconnect of a connection, no continuation gives it a handle of that connection, and nothing more of it is under way |
| RelayTheorems.NothingFollowsDisconnect | server/src/web.rs:908-922 | in a node socket's queue no frame of a connection follows its ConnectionDisconnect |
| RelayTheorems.HandleBeforeCommand | agent/src/ws.rs:1014-1058 | the reader never takes a command for a session opened on its socket before that session's handle was stored |
| RelayTheorems.InsertDisplacesNothing | agent/src/session.rs:11-17 | storing a handle never displaces another one |
| RelayTheorems.LookupsAgree | server/src/http.rs:56-105 | in every reachable state (c, n, sid) resolves to node n exactly when (sid, n) resolves to connection c |
| RelayTheorems.UnannouncedNeverHeard | agent/src/ssh/connection.rs:101-131 | a session whose first frame is an error addressed by session id, as when an SSH open fails, never has a route, and no frame of it ever reaches a connection |
| RelayTheorems.InvStep | agent/src/ws.rs:382-574 | every step of every task keeps the invariant behind these theorems |
| RelayAddressing.KeepAddressing | server/src/web.rs:845-906 | every step keeps: routes, handles, queued commands and readers name the connection that created the session |
| RelayEmissionSteps.KeepEmission | server/src/node.rs:347-370 | every step keeps: each session's frames are in order and conserved from its task to the connection's queue |
| RelayIntakeSteps.KeepIntake | agent/src/ws.rs:897-1064 | every step keeps: taken, queued and travelling commands of a session are what the server accepted, in order |
| RelayWitness.OpenBeforeInsert | agent/src/ws.rs:931-976 | a run in which a session's route appears before its handle is stored |
| RelayWitness.RouteMayOutliveNode | server/src/tasks.rs:44-69 | a run after which a routed node is not registered |
| RelayWitness.OlderSocketUnregistersNewer | server/src/node.rs:432-452 | a run in which the end of an older socket unregisters the newer one |
| RelayRegistration.RegistrationSurvivesIff | server/src/node.rs:225-233 | over any run without a new registration of the node, it stays registered, with the same socket, if and only if the stale sweep does not drop it and none of its sockets ends |
| RelayRegistration.OrphansIff | server/src/tasks.rs:44-69 | when every routed node is registered, a step ends that if and only if it is the stale sweep or the end of a socket of a routed node, or an announcement on a socket whose node is not registered |
| RelayRegistration.AlwaysRegisteredIff | server/src/node.rs:402-413 | every routed node is registered throughout a run if and only if the run has none of those three steps |
| RelayRegistration.EndLeavesNoRoute | server/src/node.rs:454-485 | under every interleaving, when the reader of an ended socket of a registered node is done, no route the node had at that end is left, and none ever returns |
| ServerTables.AppState.NotifyClientByCid | server/src/http.rs:107-128 | a frame is appended to the connection's queue exactly if it is reachable, and nothing else changes |
| ServerTables.AppState.HandleTunnelOpened | server/src/node.rs:402-430 | the route is recorded as opened, and the connection, if reachable, is told |
| ServerTables.AppState.HandleTunnelClosed | server/src/node.rs:372-400 | the route is recorded as closed, and the connection, if reachable, is told |
| ServerTables.AppState.HandleFrameResponse | server/src/node.rs:347-364 | a session-addressed frame goes to a connection if and only if the last event about that session opened it for that connection |
| ServerTables.AppState.DisconnectNode | server/src/node.rs:432-485 | exactly the node's routes go, each connection gets one notice per route of its own in the order of removal, and the count is the number of notices delivered; nothing happens for an unregistered node |
| ServerTables.AppState.ForwardCommand | server/src/web.rs:523-562 | a browser's command goes to the node it names if and only if the last event about that session opened it for this connection and the node can hear |
| ServerTables.AppState.OpenTunnel | server/src/web.rs:845-906 | a known node is asked to open; for an unknown one the browser is told |
| ServerTables.AppState.DisconnectWebClient | server/src/web.rs:489-505 | the connection goes, every node that can hear is told exactly once, routes stay |
| AgentSessions.SessionTable.StartTunnel | agent/src/ws.rs:897-982 | a new session has a new id, and storing its handle displaces none |
| AgentSessions.SessionTable.Forward | agent/src/ws.rs:745-795 | a command reaches a session if and only if its sender opened it, it was not stopped, it is of the right kind and its loop is there |
| AgentSessions.SessionTable.CloseTunnelsForCid | agent/src/ws.rs:837-853 | exactly the connection's handles go, and its sessions are stopped |
| AgentSessions.SessionTable.CloseAllSessions | agent/src/ws.rs:182-189 | all handles go, and every session ever started is stopped |
| ServerTables.RouteIsLastOpened | server/src/node.rs:412-413 | the table holds a route exactly when the last event about its key opened it, for that connection and the key's node |
| ServerTables.LookupsAgree | server/src/http.rs:84-105 | after any history the two lookups agree |
| Chunks.TotalChunksExactIff | agent/src/sftp/actions/download.rs:70-71 | the floating-point chunk count is the exact ceiling if and only if the size is at most (2^32-1)*65536 |
| Chunks.OffsetFits | agent/src/sftp/actions/download.rs:155 | chunk positions do not overflow 64 bits |
| Chunks.ChunksTile | agent/src/sftp/mod.rs:9 | the chunks of a file, in order, are the file; none is empty and all but the last are full |
| Download.DownloadTable.StartDownload | agent/src/sftp/actions/download.rs:29-136 | the new table and the answer, after sweeping, for success and each failure |
| Download.DownloadTable.DownloadFileChunk | agent/src/sftp/actions/download.rs:138-275 | the new table and the answer: seek or read errors and the end of file remove the entry |
| Download.DownloadTable.CleanupAbandonedDownloads | agent/src/sftp/mod.rs:73-100 | exactly the entries idle for more than 15 minutes are removed |
| Download.DownloadTable.CloseDownloadsForCid | agent/src/ws.rs:797-817 | exactly the connection's downloads are removed |
| Download.DownloadTable.CloseAllDownloads | agent/src/ws.rs:200-207 | all downloads are removed |
| Download.BrowserDownloads.HandleDownloadChunk | channel/public/sftp.js:912-949 | chunks before the metadata or for unknown downloads are ignored; otherwise the chunk is stored and the download saved or the next chunk requested |
| Download.BrowserDownloads.FinalizeDownload | channel/public/sftp.js:513-539 | the chunks sorted by index are concatenated and saved, and the download forgotten |
| Download.AscendingSorts | channel/public/sftp.js:517-520 | sorting the indices is strict and loses none |
| Download.Pigeonhole | channel/public/sftp.js:943 | holding as many chunks as the file has is holding all of them |
| Download.Reassembly | channel/public/sftp.js:926-948 | for any order and repeats of chunk arrivals the browser saves exactly once all indices have arrived, and saves the file; before that it holds exactly what arrived |
| Download.DownloadEndToEnd | agent/src/sftp/actions/download.rs:147-191 | from opening the file on, among any other transfers, sweeps and disconnects of others, the browser ends up with the file if and only if every chunk was requested before the first request past the end |
| Download.SequentialRequests | channel/public/sftp.js:942-948 | the browser's own loop asks for 0, 1, 2, ... and saves the file on the last answer, never asking past the end |
| Download.PastTheEnd | agent/src/sftp/actions/download.rs:181-189 | a request is answered by silence and ends the download exactly when its index is not below the chunk count |
| Download.GoneStaysGone | agent/src/sftp/actions/download.rs:252-274 | a download that left the table never comes back and answers no request |
| Download.DoneStaysDone | channel/public/sftp.js:912-917 | once the file is saved, later answers and requests change nothing for the browser |
| Download.IdsNeverRepeat | agent/src/sftp/mod.rs:38-42 | ids only go up, so no two downloads ever get the same one, whatever ends in between |
| Download.EmptyFileNeverSaved | channel/public/sftp.js:920-923 | an empty file is never saved, whatever arrives |
| RemoteFiles.DeletePathIsFilePath | agent/src/sftp/actions/delete.rs:20-28 | delete and upload build the same path if and only if the directory does not end in two or more slashes |
| UploadInvariants.StepKeeps | agent/src/sftp/actions/upload.rs:115-322 | every step of every task keeps: ids unique, an upload in one place, handles conserved |
| UploadInvariants.HandlesConserved | agent/src/sftp/actions/upload.rs:57-75 | in every reachable state each opened handle is in exactly one live place and not closed, or in none and closed exactly once |
| UploadInvariants.CommittedAtMostOnce | agent/src/sftp/actions/upload.rs:156-226 | an upload id is committed at most once, and nothing is acknowledged for it after its final acknowledgement |
| UploadInvariants.NothingAfterDead | agent/src/sftp/actions/upload.rs:133-153 | an upload that was committed, cancelled, swept or lost is never acknowledged or committed again |
| UploadTheorems.TempContent | agent/src/sftp/actions/upload.rs:248-278 | the temporary file is what it was at first plus the upload's own chunks in the order written |
| UploadTheorems.CommitMoves | agent/src/sftp/actions/upload.rs:183-209 | a commit moves the file unchanged to the final path, which was free, and frees the temporary path |
| UploadTheorems.LoopRun | channel/public/sftp.js:821-846 | through any interleaving the number of acknowledgements says how much of the file has been appended |
| UploadTheorems.UploadCommits | channel/public/sftp.js:776-870 | if the last chunk is acknowledged, the final path holds the temporary file's earlier content followed by exactly the file, the temporary path is gone and so is the entry |
| UploadTheorems.EmptyNeverAcked | channel/public/sftp.js:784-821 | an upload of an empty file is never acknowledged, hence never committed |
| UploadWitness.OneChunkCommits | agent/src/sftp/actions/upload.rs:156-209 | from an empty agent any file of one chunk can be uploaded to any path as the commit theorem asks, and is committed |
| UploadTable.UploadTable.StartUpload | agent/src/sftp/actions/upload.rs:24-113 | the new table, files and answer; each handle in one entry or closed once |
| UploadTable.UploadTable.UploadFileChunk | agent/src/sftp/actions/upload.rs:115-321 | the handler is exactly the consecutive steps of one task |
| UploadTable.UploadTable.DeleteFile | agent/src/sftp/actions/delete.rs:11-62 | the connection's uploads to the temporary path are cancelled, then the file is removed or an error reported |
| UploadTable.UploadTable.CleanupAbandonedUploads | agent/src/sftp/mod.rs:44-71 | exactly the entries idle for more than 15 minutes go, their handles closed |
| UploadTable.UploadTable.CloseUploadsForCid | agent/src/ws.rs:819-835 | exactly the connection's uploads go, their handles closed |
| UploadTable.UploadTable.CloseAllUploads | agent/src/ws.rs:191-198 | all uploads go, their handles closed |
| UploadTable.DeleteReachesUpload | agent/src/sftp/actions/delete.rs:33-37 | a delete cancels the upload to the file it names if and only if the directory does not end in two or more slashes |
| UploadTable.DeleteCancelsExactly | agent/src/sftp/actions/delete.rs:35-37 | in that case it cancels exactly that connection's uploads to that path and keeps all others |
| UploadTable.UploadFile | channel/public/sftp.js:819-862 | run alone, the upload arrives if and only if the file is not empty, no call fails and the final path is free; then the content is exact |
| Leftovers.StepKeeps | agent/src/sftp/connection.rs:139-175 | every step keeps: at most one command completed and one transfer stored per session after its stop signal |
| Leftovers.AtMostOneLeftover | agent/src/ws.rs:797-853 | once a disconnect has been handled at most one transfer entry per session is left, and none of a session still at work |
| Leftovers.GoneWithin20Minutes | agent/src/ws.rs:213-235 | no entry is ever more than 20 minutes past its last update |
| Leftovers.LeftoversVanish | agent/src/sftp/mod.rs:44-100 | once the sessions have ended nothing is refreshed or added, and after 20 minutes nothing is left |
| Tables.Database.CreateAuthChallenge | server/src/node_auth.rs:55-104 | the challenge is stored exactly for a known node that is not revoked |
| Tables.FoundIffAlive | server/src/db/postgres.rs:177-245 | a lookup finds a challenge if and only if the last upsert for the node stored it and nothing has deleted it or found it expired since |
| Tables.Database.VerifyAuthChallenge | server/src/node_auth.rs:106-208 | uninterrupted: granted exactly for a live node with this challenge stored, unexpired and correctly signed; afterwards the challenge is gone whatever the outcome |
| Tables.Database.ClaimNode | server/src/node.rs:732-779 | uninterrupted: succeeds exactly for a key that is new or the user's own, and changes no ownership |
| IdentityTheorems.StepKeeps | server/src/node_auth.rs:55-208 | every SQL step of every request keeps the invariant |
| IdentityTheorems.OwnerNeverChanges | server/src/db/postgres.rs:117-126 | under every interleaving the owner and node id of a key never change after its first insert |
| IdentityTheorems.SameKeySameNode | agent/src/agent.rs:304-340 | claiming again with the same key always yields the same node id |
| IdentityTheorems.ForeignNodeIff | server/src/node.rs:732-772 | over runs: a claim hands its user a node of somebody else if and only if, between its lookup and its upsert, another user's claim inserted the key |
| IdentityTheorems.ClaimRace | server/src/node.rs:732-775 | a run in which that happens |
| IdentityTheorems.TokenProvenance | server/src/node_auth.rs:133-200 | a token is issued only to a request whose lookup found the node's latest stored challenge, unexpired at the check and signed with the node's key |
| IdentityTheorems.NoTokenFromSpentChallenge | server/src/node_auth.rs:155-170 | no lookup made after a request deleted the challenge yields a token |
| IdentityTheorems.TwoLookups | server/src/node_auth.rs:133-153 | wherever a challenge is stored, two requests can both find it |
| IdentityTheorems.BothFoundBothIssue | server/src/node_auth.rs:155-200 | two requests that both found it before either deleted it each get a token exactly if it is unexpired and their own signature is valid |
| IdentityTheorems.TwoTokensLookedUpFirst | server/src/node_auth.rs:133-170 | over runs: if two tokens are issued for one challenge, both lookups came before its first deletion |
| IdentityTheorems.TwoTokens | server/src/node_auth.rs:155-200 | a run from the empty database that issues two tokens for one challenge |
| IdentityTheorems.SocketTracesToSignature | server/src/node.rs:199-233 | every node registered over a socket traces back to a token for it, and to a signature over its latest stored challenge |
| IdentityTheorems.RevokedStaysOut | server/src/node_auth.rs:271-295 | once a node is revoked and its logins under way are over, no run that leaves it revoked issues it a token or registers a socket for it |
| Codec.DecodeEncoded | common/src/protocol/common.rs:81-158 | decoding an encoded frame, whatever follows it, gives the same frame if and only if its version is 1: any frame below 2^32 bytes with 64-bit words, web frames up to 2^32-9 bytes in the wasm build |
| Codec.Encode | common/src/protocol/common.rs:129-158 | the bytes are the header and the payload |
| Codec.Be32RoundTrip | common/src/protocol/common.rs:90 | the length field holds the length modulo 2^32 |
| Codec.DecodeReadsPrefix | common/src/protocol/common.rs:96 | decoding looks at nothing beyond the declared payload, in both builds |
| Codec.TruncatedIsMalformed | common/src/protocol/common.rs:82-94 | an encoded frame cut short anywhere is refused |
| Codec.DecodePanics | common/src/protocol/common.rs:92-96 | with 64-bit words no index is out of range; with 32-bit words exactly when the declared length exceeds 2^32-9 |
| Liveness.HeartbeatTable.CleanupDangling | server/src/tasks.rs:8-69 | exactly the entries silent for more than 120 s go, and the count is right |
| Liveness.NoEntryOlderThan150s | server/src/server.rs:208-229 | with sweeps at most 30 s apart no entry's heartbeat is older than 150 s |
| Liveness.StaysIff | server/src/tasks.rs:10-69 | an entry nobody removes on request stays if and only if its last heartbeat is at most 120 s old at every sweep, and the stored heartbeat is the time of the last one sent |
| Liveness.RefreshedStays | server/src/tasks.rs:23-69 | an entry whose heartbeats are never more than 120 s apart is never swept |
| Liveness.Watchdog | agent/src/ws.rs:292-329 | the loop cancels at the first tick at which an acknowledgement is overdue, and at no other |
| Liveness.CancelsOnlyAfterSilence | agent/src/ws.rs:300-312 | cancelling needs more than three intervals without an acknowledgement |
| Liveness.CancelsWithinFour | agent/src/ws.rs:445-453 | once an acknowledgement was seen, four intervals of silence are the most it waits |

## Left out

- UploadTable.UploadTable.UploadFileChunk: a write of an intermediate chunk is taken to succeed; in the source the failing arm (agent/src/sftp/actions/upload.rs:248-275) removes the entry while it still holds the guard of that entry, which blocks the handler.
- UploadTheorems.UploadCommits: chunk index 2^32-1 and the wrap of `chunk_index + 1` are outside the model, whose indices are unbounded; a file has at most 2^32-1 chunks.
- Download.DownloadEndToEnd: assumes that answers for this download reach the browser in order; that the relay keeps the order is RelayTheorems.OutboundInOrder, that nothing is dropped is not guaranteed by the code.
- Relay handlers as classes: interleaved handlers are values and step functions, with one atomic step per table or queue operation; `ServerTables`, `AgentSessions`, `Download`, `UploadTable` and `Tables` hold the imperative form, one handler at a time.
- Heartbeat, statistics and authentication frames inside the relay, and in its interleaved form also the server's answer to a browser that asks for an unknown node: they carry no session and change no table.
- 32-bit wrap of the session and transfer counters, a second agent process for a node id, and an agent restart while the server still holds its routes.
- An unknown `OpenTunnel.protocol` value: no tunnel is opened.
- Timeouts of the browser's pending promises, download cancellation by the user, progress text, and the rest of the user interface.
- Another process changing remote files during a transfer, short reads before the end of a file, and symbolic or hard links.
- The order in which a sweep, a disconnect and a shutdown visit a table: any order is allowed.
- Trimming of claim, challenge and signature strings: they are taken as trimmed.
- Credential checks of the user's access token before a claim, scopes, and the expiry of node tokens: a token that arrives on a socket is one the server issued and that its library accepts.
- WebSocket, TLS, SSH, SFTP and SQL libraries, Redis presence keys, STUN and the traffic relay, logging, configuration and IP parsing.
- Cryptography and randomness.
