# Verification of mcpd, the poll dispatcher, the text UI and the Beeper client

This project models, in Dafny, the stateful cores of six parts of the repository and proves what they keep over whole
runs. The C code is imperative, and so is the model: objects are classes whose methods do the loops and updates of the C
functions, each proved against a specification; what the parts are for is then proved about the specifications.

1. **The message window of a chat room** (`Window.dfy`, `Room.dfy`, `LinkedList.dfy`). Chunks of messages come from either
   direction and are merged into a sorted list, a part of which carries futures of the text UI. `Window` says what the
   window is as a value, and proves merging against sorted insertion. `Room` does the work on message objects: the shifting
   loops, the two marks, the request slots and the counted chunk id strings. `LinkedList` proves the circular intrusive
   list on its pointers.
2. **The bubble and event engine** (`EventQueue.dfy`, `Texter.dfy`, `Chat.dfy`). `Texter` is a conversation: its bubble
   list, reference counts and event queue. `EventQueue` says what queued, cancelled and delivered events do to the client's
   run. `Chat` puts room and conversation together, each calling the other, and proves over any run that the room's
   futures, with the queued events replayed, are the conversation's bubbles.
3. **The store of encrypted sessions** (`Sessions.dfy`, `SessionStore.dfy`). `Sessions` is a plain map of sessions with a
   list of waiting messages, and what holds over its runs; `SessionStore` is the cache with write-back to files, which does
   what the map does.
4. **Reading, saving, numbering and verifying** (`HttpStream.dfy`, `KeyList.dfy`, `DeviceLists.dfy`, `TxnId.dfy`,
   `Sas.dfy`, `SasRun.dfy`). The eager and the lazy reader of a response body; the key list's file and the lists of changed
   users; transaction ids over any crashes; and the verification of a device by emoji.
5. **The daemon's scheduling** (`McpdState.dfy`, `Mcpd.dfy`). Transfers that are parked while the other side is blocked,
   notices that come in while bytes are moved, and watchers in parallel arrays. `McpdState` says what each step makes of
   the daemon and of what the server and the sockets still have to offer; `Mcpd` is the daemon, which does just that, and
   proves what is kept.
6. **The poll dispatcher** (`PollLoop.dfy`). Ready events gone through while callbacks add, modify and remove handles.

Where the C code asserts, the model has a result (`ok`, or a state that is down): what is promised is promised of runs that
go on. Layout, time, the network, the module server and cryptography are parameters: any layout, any events, any answers,
any functions.

Premises that a caller can check: the message ids of one chunk are distinct; session ids are base64 and new outbound
session ids are fresh; files are written in one piece; strings of the key list are not empty, have no line end and, where
they follow a number, do not start with white space; the token count only grows, a notice names a peer, connections have
descriptors above 1, and the module server sends a notice whenever a direction that answered none becomes usable;
a chunk has fewer than 2^31 bytes, and at most eight digits for that.

Where the code differs from what is said about it:

- The table above the merging code (`beeper/beeper_ui_util.c:170-175`) allows a chunk with neither chunk id. With such a
  chunk the first new message needs a string that is made from a null pointer. `Room.Room.OnMessages` says that the
  program survives a wanted chunk exactly if one of the two ids is there or no message is new. `Room.ShortRoom` is a run
  that does not: the first request names no chunk (`beeper/beeper_task.c:3107`), and the answer of a short room has no
  "end" (`beeper/beeper_task.c:3109-3113`).
- "set non-blocking" (`mcpd/mcpd.c:884-889`) clears the flag for non-blocking use. The model lets a write would-block as
  the code around it expects.
- The place of an accepted watcher is not told what poll reported of it (`mcpd/mcpd.c:872-879`); in the model that is
  any value, and the loop over the watchers then either serves it or stops.
- Two session ids that are not base64 can share a file (`SessionStore.FileNamesClash`).
- The check that a future above others is not the latest (`texter_ui/texter_ui.c:807`) can fail
  (`Texter.WithdrawnLatest`); `Texter.Convo.DrawNew` says exactly when the checks of `texter_ui/texter_ui.c:778-807` hold.
- Near the end of its range the bound of the transaction ids wraps (`TxnId.TopWraps`).

## Model

| member | source | states |
|---|---|---|
| Window.MergeKeeps | beeper/beeper_ui_util.c:216-317 | Merging one unknown message, in either direction, keeps the window well formed (sorted by time and id, distinct ids, placeholders only at the ends and each with a future, futures one contiguous run), leaves the sequence of futures as it was, and makes the real messages exactly the old ones with the new one inserted at its place in the order: an independent reference, sorted insertion. |
| Window.ChunkKeeps | beeper/beeper_ui_util.c:194-317 | A whole chunk, known messages refreshed and new ones merged: the futures are the same, the multiset of ids is the old ids plus those of the unknown messages, and the window stays well formed exactly when those ids are distinct. What the new messages are is in `Window.NewsCame`, and in what order in `Window.WellFormedByTime`. |
| Window.NewsComplete | beeper/beeper_ui_util.c:194-217 | Every id of an accepted chunk is among the old ids or the ids that are merged: nothing is lost. |
| Window.NewsCame | beeper/beeper_ui_util.c:64-74 | A message that no message of the window has the id of is in the window after the chunk, with the text, member, time stamp and id that it came with and the chunk's string. |
| Window.NewsAre | beeper/beeper_ui_util.c:194-217 | The messages that are merged are just those of the chunk whose ids the window has not. |
| Window.RefreshAllIs | beeper/beeper_ui_util.c:194-214 | What the first pass makes of each message: it keeps id, time stamp and chunk; where the chunk has its id it takes the member that came, and in the run the text, or the mark of a deletion if it had one and none came; otherwise it stays as it is. |
| Window.WellFormedByTime | beeper/beeper_ui_util.c:56-62 | In a well-formed window an earlier time stamp is above a later one, and of two messages at the same time the one whose id comes first in the order of strcmp. |
| Window.MergeUpUnder | beeper/beeper_ui_util.c:229-257 | Which message each future shows after an upward merge: the part of the run above the new message moves down by one, everything else stays. |
| Window.MergeDownUnder | beeper/beeper_ui_util.c:278-306 | The mirror image for a downward merge. |
| Window.MergeKeepsReal | beeper/beeper_ui_util.c:220-317 | A future that shows a message never goes back to waiting because of a merge. |
| Window.HoleUpDone | beeper/beeper_ui_util.c:242-257 | Moving the hole up one future at a time until it is above the run gives the same list as inserting and sliding at once. |
| Window.MergeRefs | beeper/beeper_ui_util.c:64-74 | A merged message adds exactly one pointer to its chunk id string and takes none away. |
| Window.FirstAfterSplits | beeper/beeper_ui_util.c:220-227 | The scan from the top splits the window: every real message above the place found comes before the new one, every one from it on comes after. |
| Window.PastLastBeforeSplits | beeper/beeper_ui_util.c:269-276 | The same for the scan from the bottom. |
| Window.BeforeTransitive | beeper/beeper_ui_util.c:56-62 | The comparison by time, then id, is transitive. |
| Window.BeforeTotal | beeper/beeper_ui_util.c:56-62 | Of two messages with different ids exactly one comes before the other. |
| Room.Room.InsertUp | beeper/beeper_ui_util.c:232-263 | The loop that shifts futures down over the list in place: the list afterwards holds the window with the message inserted and the run slid, both marks are at the ends of the run, and the calls made are, in order, those that tell each future that moved the text and the member of the message it is over then. |
| Room.Room.SlideDown | beeper/beeper_ui_util.c:242-257 | The shifting loop ends with the hole above the whole run, every future moved by one and told the text and the member of the message it has come to, in that order; the marks moved along. |
| Room.Room.SlideUp | beeper/beeper_ui_util.c:291-306 | The mirror image. |
| Room.Room.PlaceUp | beeper/beeper_ui_util.c:220-268 | One new message of an upward chunk, over the list, is the window's merge: a waiting placeholder is filled or the message is inserted and an idle placeholder dropped. |
| Room.Room.RefreshKnown | beeper/beeper_ui_util.c:190-214 | The first pass over a chunk refreshes exactly the known messages and keeps exactly the unknown ones. |
| Room.Room.TakeIn | beeper/beeper_ui_util.c:170-318 | Both passes, with the calls they make and every new message as it came; the program survives them exactly when a chunk id is named or there is no new message. |
| Room.Room.OnMessages | beeper/beeper_ui_util.c:117-361 | A chunk in full: whether it is wanted, the window afterwards, the calls that tell futures of it, the request that follows, the two request slots and the caught-up mark. Every new message is in the window with the id, time stamp, text and member that it came with, and every call says the text and the member of the message that its future is over when it is made. The well-formedness of list, marks, futures and counted strings is kept. A chunk without either id that brings new messages is exactly the one that ends the program. |
| Room.MergeTells | beeper/beeper_ui_util.c:229-317 | The calls of one merged message: one for each future that the merge moved, or that shows the new message, with the text and the member of the message it is over afterwards, and for no other. |
| Room.RefreshSays | beeper/beeper_ui_util.c:190-214 | A refreshed message makes one call, with its new text and member, exactly if it is in the run and its text has changed; a change of the member alone makes none. |
| Room.ChunkSays | beeper/beeper_ui_util.c:190-317 | Every call of a whole chunk says the text and the member of the message that its future is over at a point of the merge: after some of the refreshes, or after all of them and some of the merges. |
| Room.DecryptSays | beeper/beeper_ui_util.c:362-383 | A late text makes one call, with that text and the message's member, exactly if the message is in the run and had another text. |
| Room.LoadSays | beeper/beeper_ui_util.c:448-505 | A LOAD that finds a text makes one call for the new future, with the text and the member of the message it is put over, and none otherwise. |
| Room.NoChunkId | beeper/beeper_ui_util.c:170-187 | A state and a chunk for which that happens: the window waits at its first placeholder, and the chunk is wanted and brings a message. |
| Room.ShortRoom | beeper/beeper_task.c:3107-3113 | How a run comes to it: the first request names no chunk, the answer of a short room has no end, and the program does not survive the answer. |
| Room.Room.OnDecrypted | beeper/beeper_ui_util.c:362-383 | A late text goes to the message with that id, and with its member to its future; everything else stays. |
| Room.Room.LoadTop | beeper/beeper_ui_util.c:448-476 | LOAD at the top: a future for the next message above or for a new placeholder, and a request for older messages exactly if it has to wait and none is under way. The future is told the text and the member of its message if that has a text. |
| Room.Room.LoadBottom | beeper/beeper_ui_util.c:477-505 | LOAD at the bottom, which asks only if newer messages have been let go. The future is told as at the top. |
| Room.Room.UnloadTop | beeper/beeper_ui_util.c:507-529 | UNLOAD at the top: the run is one future shorter, all messages above it are destroyed, the request slot is given up; the last future takes the whole window with it. |
| Room.Room.UnloadBottom | beeper/beeper_ui_util.c:530-551 | UNLOAD at the bottom; afterwards the window is no longer caught up. |
| Room.Room.Decref | beeper/beeper_util.c:378-385 | A counted string is freed exactly when the pointer given up was the last one: the strings allocated are those with a pointer from a message or a request slot, each with that count. |
| Room.Room.CreateMaybe | beeper/beeper_util.c:358-368 | The string made earlier for the same purpose is pointed at once more, or a new one is made with one pointer. |
| Room.HoleUpClosed | beeper/beeper_ui_util.c:242-257 | Where the hole can go no further the list, the marks and what every future shows are those of the window with the message inserted. |
| LinkedList.Ring.InsertAbove | beeper/beeper_util.c:321-333 | On the pointers of the circular list, inserting above a link (or at the bottom) is insertion into the sequence of links; the circle stays intact both ways round. |
| LinkedList.Ring.InsertBelow | beeper/beeper_util.c:335-347 | The same below a link, or at the top. |
| LinkedList.Ring.Remove | beeper/beeper_util.c:292-298 | Removing a link takes exactly it out of the sequence. |
| LinkedList.Ring.LinkUp | beeper/beeper_util.c:305-311 | The neighbour above; above no link is the bottom, and the top has none. |
| LinkedList.Ring.LinkDown | beeper/beeper_util.c:313-319 | The neighbour below, likewise. |
| LinkedList.Ring.IsEmpty | beeper/beeper_util.c:249-252 | The list is empty exactly if its sentinel points at itself. |
| EventQueue.Cancel | texter_ui/texter_ui.c:393-407 | Taking a pending LOAD out of the middle of the queue is as if it had never been queued: replaying the rest gives the same run less that future. |
| EventQueue.WithoutTop | texter_ui/texter_ui.c:393-407 | A future at the top that no later event is about could as well not be there. |
| EventQueue.LoadAgreed | texter_ui/texter_ui.c:383-391 | Adding a bubble and queueing its LOAD keeps the two sides in agreement: the client's run, with the queued events replayed, is the bubble list. |
| EventQueue.UnloadAgreed | texter_ui/texter_ui.c:701-706 | So does removing a bubble and queueing its UNLOAD. |
| EventQueue.CancelAgreed | texter_ui/texter_ui.c:701-706 | So does removing a bubble whose LOAD is cancelled instead; what is cancelled is always a LOAD. |
| EventQueue.DeliverAgreed | texter_ui/texter_ui.c:611-636 | So does delivering the first event; it fits the client's run. |
| EventQueue.Settled | texter_ui/texter_ui.c:740-760 | A future of the list is the client's exactly if no event about it is queued; one that was ever given a text is the client's. |
| Texter.Convo.AddEnd | texter_ui/texter_ui.c:409-417 | A new future is in the list and in the queue, with two references; agreement, reference counts and the once-only history are kept. |
| Texter.Convo.DropEnd | texter_ui/texter_ui.c:701-709 | An end of the list goes: the client is told exactly if it has the future, otherwise the pending LOAD is cancelled; the future is freed exactly when nothing refers to it. |
| Texter.Convo.CancelEvent | texter_ui/texter_ui.c:393-407 | Finds the pending event of a future, if any, takes it out and gives its reference back. |
| Texter.Convo.Take | texter_ui/texter_ui.c:611-625 | The first event is taken for delivery: the client's run takes it, the history has it once. |
| Texter.Convo.Done | texter_ui/texter_ui.c:625-636 | After delivery the event's reference is given back. |
| Texter.Convo.UpdateScroll | texter_ui/texter_ui.c:644-738 | Which bubbles there are afterwards, exactly, for any measurements: none more or less while nothing is drawn; otherwise one more at each end that is near and shows a text; then, from below and then from above, every future that is out of sight while its end is far away is given back, and the first that is not is kept. Older futures keep text, member and latest mark; list, queue, counts and history stay right. What stays in the list is drawn as it was, and nothing that is not in the list is. |
| Texter.Convo.TrimBottom | texter_ui/texter_ui.c:690-709 | The futures that go are exactly those at the bottom that are out of sight while, with the drawn ones below them gone, the end is still far away; it fails only where the very last one would go. |
| Texter.Convo.Back | texter_ui/texter_ui.c:483-522 | Leaving a conversation keeps the first future marked latest and what is below it, or starts over with a new future if none in the list is; texts and marks stay with their futures. Nothing is drawn any more; a new future is the latest. |
| Texter.Convo.Open | texter_ui/texter_ui.c:547-609 | Opening draws the top future if it has a text, and scrolls; nothing in list or queue changes when there is no text yet, or another conversation is open. |
| Texter.Convo.DrawNew | texter_ui/texter_ui.c:767-818 | A bubble is drawn for a future without one exactly if it is the latest when it is alone, and is not when it is not; that nothing else is drawn when it is alone, as the program checks, always holds. At the bottom it becomes the latest if the one above it was, and nothing else changes. |
| Texter.WithdrawnLatest | texter_ui/texter_ui.c:804-807 | The check that a future above others is not the latest does fail, whatever the layout: the latest message gets its text, loses it while the conversation is closed, and gets one again when it is open. |
| Texter.Convo.GiveBack | texter_ui/texter_ui.c:690-735 | Both ends are cut, the bottom first. |
| Texter.GoesSame | texter_ui/texter_ui.c:690-735 | Which futures go depends on nothing but the list, which of it is drawn, and the layout. |
| Texter.Convo.KeepLatest | texter_ui/texter_ui.c:823-839 | A message for a closed conversation becomes the latest: the one before it is given back, and one more is asked for, each exactly when needed. The new one below is not the latest. |
| Texter.Convo.SetMessage | texter_ui/texter_ui.c:740-852 | A future takes a text. One that has left the list takes none, and nothing changes. In an open conversation its bubble is drawn if it had none, or a check fails and nothing else changes; then the list is what scrolling makes of it, and other futures change in references and bubbles only. In a closed one list and queue are given exactly and it becomes the latest. List, queue, counts and history stay right. |
| Chat.Chat.Synchronised | texter_ui/texter_ui.c:383-407 | In every state between callbacks the room's futures from top to bottom of its run, after the queued LOAD and UNLOAD events, are the conversation's bubbles in order; each bubble that the room has a message for shows that message's text, with the member that the room told last with it; the messages are in the order of time and id; each future had at most one LOAD and one UNLOAD, in that order; the futures allocated are exactly those in the list or the queue. |
| Chat.Chat.TakeCall | texter_ui/texter_ui.c:740-852 | A call of the room changes the conversation just as its message does, given what the conversation held before; where it fails, that is what the failing check or scrolling leaves. |
| Chat.Chat.TakeCalls | texter_ui/texter_ui.c:740-852 | The calls are taken one after the other, in order, each making the next state of the one before it; all of them, or up to the one at which the conversation came to a stop. |
| Chat.Chat.Deliver | texter_ui/texter_ui.c:611-636 | The first event leaves the queue; the room's window, requests, slots and caught-up mark become what LOAD or UNLOAD makes of them; the conversation takes the room's calls, from its state before on; and the event's reference is given back. Both sides stay consistent unless the conversation came to a stop at a call. |
| Chat.Chat.OnMessages | beeper/beeper_ui_util.c:117-361 | A chunk that is wanted is merged, with the request and the slots that follow, and one that is not changes no message; the conversation takes the calls that this causes, from its state before on. Both sides stay consistent, except exactly for a wanted chunk without either chunk id that brings a new message, where the conversation is as it was, and where the conversation came to a stop at a call. The calls are exactly those of `Room.ChunkSays`. |
| Chat.Chat.OnDecrypted | beeper/beeper_ui_util.c:362-383 | A late text goes into the window, requests and slots stay, the conversation takes the call, and both sides stay consistent unless it came to a stop there. |
| Chat.Chat.Step | texter_ui/texter_ui.c:483-738 | What each step, a chunk, a decryption, a delivery, opening, going back or scrolling, makes of the room and of the conversation, of both sides in full; they are kept in step, or the step ends with the reason why it broke. |
| Chat.Run | texter_ui/texter_ui.c:216-255 | Any run of a new chat, of any steps in any order: the states it goes through begin with that of a new chat and end with the one returned, each is what its step makes of the one before, and in each the two sides are in step. All steps are taken, or the last one taken broke for the reason stated: a chunk id that is missing, a check on drawing, or the last bubble. In step means the bubbles' order, texts and members as in `Chat.Chat.Synchronised`. |
| Chat.ReadyForLoad | beeper/beeper_ui_util.c:447-505 | An event that the queue lets through is one the window is ready for: a LOAD never comes on a side that is still waiting. |
| Sessions.StepKeeps | beeper/beeper_task.c:2168-2360 | Every step keeps the waits distinct and disjoint from the known sessions, each waiting message once, a wait's key asked for exactly if the bridgebot is known, and one request for every wait ever started unless it is still to be sent or the key came first. What a request says is in `Sessions.RequestsAdded`. |
| Sessions.RunKeeps | beeper/beeper_task.c:2168-2360 | The same over any run. To whom the requests go is in `Sessions.RequestsRight`. |
| Sessions.RequestsRight | beeper/beeper_task.c:2115-2160 | Over any run from an empty book every request is sent to the bridgebot that was named last by then, for a session id and with a sender key that came together in the message that started a wait before; the bridgebot known is the one named last, and every wait is for the session and sender key of such a message. |
| Sessions.RequestsAdded | beeper/beeper_task.c:2228-2245 | What each input adds to the requests: when the first bridgebot is named, one for each wait, to it and in the order of the waits, with the wait's session and sender key; when a wait starts and a bridgebot is known, one for it; otherwise none. |
| Sessions.AskedInOrder | beeper/beeper_task.c:3887-3903 | The requests sent when a bridgebot is named are, one for one and in order, those of the waits whose keys have not been asked for. |
| Sessions.EmitsPrefix | beeper/beeper_task.c:2299-2315 | What is emitted is the longest run of waiting messages, from the first on, that decrypt one after the other. |
| Sessions.WaitsInOrder | beeper/beeper_task.c:2179-2193 | Whatever comes in between, the messages of a session whose key has not come wait in the order in which they first came, each once. |
| Sessions.KeyEmits | beeper/beeper_task.c:2288-2330 | When the key comes the waiting messages are emitted in that order; all of them, each once, exactly if they all decrypt; the session is known then and nothing waits for it. |
| Sessions.OthersWait | beeper/beeper_task.c:2288-2330 | An event about one session leaves the waits for all others as they were. |
| SessionStore.FileNameInjective | beeper/beeper_task.c:301-309 | Two session ids in base64 never share a file name. |
| SessionStore.FileNamesEqual | beeper/beeper_task.c:301-309 | Two session ids share a file exactly when, character by character, they are the same but for a character and the one that stands in for it. |
| SessionStore.FileNamesClash | beeper/beeper_task.c:301-309 | Ids that are not base64 can: two that differ, with one file name. |
| SessionStore.PushLookup | beeper/beeper_util.c:426-433 | Putting a session in front, with the last one saved, changes what cache and disk together give for that id only. |
| SessionStore.SavedLookup | beeper/beeper_task.c:1976-2008 | A session that needs no save can be read back from its file as it is. |
| SessionStore.Store.Save | beeper/beeper_task.c:1976-2008 | Afterwards the file holds the session; skipping the write when the cached pickle is the same is safe because the pickle is what the file holds. |
| SessionStore.Store.Add | beeper/beeper_util.c:426-433 | The least recently used session leaves the cache, written back first; all sessions are still found. |
| SessionStore.Store.Get | beeper/beeper_util.c:405-424 | A session is found exactly if it is cached, and is in front afterwards with the others in their order. |
| SessionStore.Store.Index | beeper/beeper_util.c:393-403 | Finds the slot without moving anything. |
| SessionStore.Store.Fetch | beeper/beeper_task.c:2195-2216 | A session is brought to the front, from cache or disk, exactly if it is known. |
| SessionStore.Store.RoomDecrypt | beeper/beeper_task.c:2168-2247 | Cache, files and waits together do what the unbounded map of sessions does, text included. |
| SessionStore.Store.RoomKey | beeper/beeper_task.c:2260-2360 | The same for a key, forwarded or not. A session that is new has its file at once, with the state it is left in. |
| SessionStore.Store.Bridge | beeper/beeper_task.c:3887-3903 | When the bridgebot becomes known, exactly the keys still to be asked for are asked for. |
| SessionStore.Store.Outbound | beeper/beeper_task.c:3192-3213 | The receiving side of a new outbound session is added, as in the map. Its file is written at once. |
| SessionStore.Store.SaveAll | beeper/beeper_task.c:2249-2258 | Afterwards every known session is on disk as it is, and nothing else has changed. |
| SessionStore.Store.DoAll | beeper/beeper_task.c:2168-2360 | However inputs and saves follow each other, cache, files and waits end as the unbounded map does after the same inputs, and the texts shown at once are those of the map. |
| SessionStore.Store.Reopen | beeper/beeper_task.c:2249-2258 | Stopped after a save and started again, the room knows just the sessions it knew, whatever the size of its cache. |
| SessionStore.Store.Die | beeper/beeper_task.c:2195-2330 | Whenever the program dies between two inputs, without a save, and starts again, it knows just the sessions it knew, each in the state in which it was last written. |
| HttpStream.Connection.ReadChunkSize | beeper/beeper_task.c:681-698 | Three bytes, then one at a time: the number that the digits of the size line stand for, with the wire just past the line; what digits stand for is in `HttpStream.PrintedValue`. |
| HttpStream.PrintedValue | beeper/beeper_task.c:695-695 | Every number, printed to base 16 with small or with capital letters, reads as itself. |
| HttpStream.PrintedProper | beeper/beeper_task.c:684-697 | A chunk whose size line is its length so printed is one that the readers take. |
| HttpStream.SentIsRead | beeper/beeper_task.c:783-819 | A body sent in any pieces, each after the line of its length with small or capital digits, is what both chunk readers return, and the byte where they stop is the first that was not sent with it. |
| HttpStream.Connection.ReceiveChunked | beeper/beeper_task.c:792-819 | The eager reader returns the body, however it is cut into chunks, and stops just past the message. |
| HttpStream.Connection.ReceiveSized | beeper/beeper_task.c:783-791 | The reader with a length returns the body and stops just past it. |
| HttpStream.Stream.Peek | beeper/beeper_task.c:2480-2512 | Shows the next byte of the body, or the end, without taking it, however often; the capture and the place on the wire stay right. |
| HttpStream.Stream.Get | beeper/beeper_task.c:2514-2524 | Takes the next byte exactly once. |
| HttpStream.Stream.StartCapture | beeper/beeper_task.c:2526-2538 | The capture begins with the byte that was read last. |
| HttpStream.Stream.Push | beeper/beeper_task.c:2460-2469 | The capture buffer gets one byte more at its end, whether or not it has to grow. |
| HttpStream.Stream.GetCapture | beeper/beeper_task.c:2540-2548 | Under any mix of peeks and gets, a captured part is exactly that part of the body. |
| HttpStream.Stream.ReadAll | beeper/beeper_task.c:2480-2524 | Peeking and getting to the end gives the rest of the body, and leaves the wire just past the message. |
| HttpStream.ReadersAgree | beeper/beeper_task.c:783-819 | For every body and every cut into chunks the eager, the lazy and both length readers return the same bytes; both chunk readers stop at the same byte of the wire, just past the message, and so do both length readers. |
| HttpStream.ChunkReadersAgree | beeper/beeper_task.c:792-819 | The eager and the lazy reader of the same chunks return the body and stop where it ends. |
| KeyList.Save | beeper/beeper_task.c:1701-1746 | The file written is the encoding of the list without users to leave out and devices without keys, counts included. |
| KeyList.SaveAndLoad | beeper/beeper_task.c:1488-1527 | Loading a saved list gives it back less what is not saved, with both flags cleared, for any numbers of users, devices and keys whose strings survive as lines. |
| KeyList.Reader.ReadUsers | beeper/beeper_task.c:1488-1527 | Reading the encoding of a list gives the list. |
| KeyList.Reader.ReadNumber | beeper/beeper_task.c:1470-1475 | A number is read with its line end, and nothing of the line after it. |
| KeyList.Reader.ReadString | beeper/beeper_task.c:1460-1468 | A line is read without its end. |
| KeyList.ValueOfDigits | beeper/beeper_task.c:1686-1689 | A printed number reads as itself. |
| KeyList.SavedSolid | beeper/beeper_task.c:1722-1743 | What is saved of a list that survives as lines survives as lines, with no flag set. |
| DeviceLists.Directory.Apply | beeper/beeper_task.c:1841-1876 | The in-place loop ends, in spite of its 32-bit index stepping back below 0, with a permutation of the users who have not left, exactly those who changed marked; left wins over changed; the list needs saving exactly if somebody left or it did before; and if nobody outdated was overlooked before, nobody is. |
| DeviceLists.Directory.Refresh | beeper/beeper_task.c:1549-1553 | Under that invariant nobody is out of date after a refresh, also where it returns at once. |
| DeviceLists.SurvivorIff | beeper/beeper_task.c:1851-1864 | Who survives, member by member: a user is in the result exactly if it is an old one that has not left, marked if it has changed. |
| DeviceLists.TallyGone | beeper/beeper_task.c:1852-1859 | Filling the hole with the last user loses and repeats nobody. |
| DeviceLists.StepBackAndOn | beeper/beeper_task.c:1858-1858 | Stepping an unsigned 32-bit index back and on again comes back to it, also from 0. |
| TxnId.RoundTrip | beeper/beeper_task.c:250-250 | A number below sixteen to the k, printed with k digits, is read back as itself. |
| TxnId.TextsDiffer | beeper/beeper_task.c:250-251 | Two ids never look the same in a path. |
| TxnId.RangeGrows | beeper/beeper_task.c:330-330 | The end of a range is above its start exactly if the sum fits in 64 bits. |
| TxnId.TopWraps | beeper/beeper_task.c:319-342 | The bound on disk is above the id exactly if the sum fits; beyond that a restart would hand out old ids. |
| TxnId.RunRises | beeper/beeper_task.c:319-382 | Over any run of starts, ids taken and deaths in which no range starts at or above 2^64 - 0x10000 the ids rise, after all of earlier runs, and the disk has a bound above them all. |
| TxnId.StartsRight | beeper/beeper_task.c:319-382 | A range starts just when the file is written, and the bound written is 65536 above where it starts, in 64 bits. |
| TxnId.TopRepeats | beeper/beeper_task.c:319-382 | Where a range starts higher than that it goes wrong: after one id, a new process hands out a smaller one. |
| TxnId.Counter.Init | beeper/beeper_task.c:347-373 | After a start whose range fits, whatever became of the process before, the bound on disk is above every id ever handed out. |
| TxnId.Counter.Next | beeper/beeper_task.c:375-382 | The id is above all ids of this process and those before it, if it does not start a range that does not fit. |
| TxnId.Counter.Run | beeper/beeper_task.c:311-382 | Over any run of starts, ids taken and deaths (also right after the file is written), of any length, process and disk are what the machine says; and if no range starts at or above 2^64 - 0x10000 the ids rise and no two of their texts are the same. |
| Sas.EmojiIds | beeper/beeper_task.c:3637-3646 | The seven emoji are the digits to base 64 of the first 42 of the 48 bits. |
| Sas.OneEmoji | beeper/beeper_task.c:3637-3646 | Two devices with the same bytes show the same emoji. |
| Sas.VerifyPeer | beeper/beeper_task.c:2583-2697 | The checking loop succeeds exactly if the message is what a device seals that has one master key and one key of the peer's device, in either order, both with the values of the key list, which has just one master key, signed, and the device signed: no other two keys, users, devices or transaction pass. |
| Sas.ProvesIs | beeper/beeper_task.c:2656-2697 | The two entries pass, one after the other, exactly if there is such a master key and device key. |
| Sas.KeyIdsEitherWay | beeper/beeper_task.c:2617-2625 | The list of the two key ids does not depend on the order of the entries. |
| SasRun.CompletionIsEarned | beeper/beeper_task.c:3678-3688 | If the client has been told that verification is complete, it was told once and after the emoji; before it came, in order and under one transaction and one device, a fresh request, a fitting start, a key, then in either order the user's word and a MAC that proves one master and one device key, then the peer's end; and exactly the five kinds of message have been sent, our MAC and our end among them. Which emoji they are is in `SasRun.EmojiMeet`. |
| SasRun.EveryRunHasAStory | beeper/beeper_task.c:2917-3688 | The same for every step: what has been sent and told so far, and the events it is owed to; the peer's MAC is stored exactly while the user's word is missing. The emoji and the MAC are spelled out in `SasRun.EmojiMeet` and `SasRun.OurMacIs`. |
| SasRun.CompleteOnlyAtEnd | beeper/beeper_task.c:3678-3688 | Completion is told in the last step only, also in runs that fail. |
| SasRun.EitherOrder | beeper/beeper_task.c:2943-3063 | Whether the user's word or the peer's MAC comes first, and whatever else comes in between, the same is sent and told and the same state reached. |
| SasRun.BesideIsIgnored | beeper/beeper_task.c:3652-3660 | While both or one of the two are missing, every other event changes nothing. |
| SasRun.ProofsMeet | beeper/beeper_task.c:2949-3039 | What one device sends as its MAC another device of the user accepts, if its key list has the master key and that device's key. |
| SasRun.HonestRunCompletes | beeper/beeper_task.c:3413-3688 | With a peer that sends a key and a MAC of its own making, under the secret it has from the key that it got, and a user who agrees, it does get to the end, and the emoji shown are those that the peer makes from its side. |
| SasRun.EmojiMeet | beeper/beeper_task.c:3600-3648 | In every run that has shown emoji, to a peer whose key is the one that came: a single key of ours was sent, to that peer, and the emoji shown are those that the peer, which started, makes from its own user, device and key, then ours with the key that was sent, and the transaction. |
| SasRun.OurMacIs | beeper/beeper_task.c:2948-3010 | Our MAC in full: the two key ids, the lesser first and with a comma between, sealed for the purpose of a list, and each key sealed for its id, under who sends to whom in which transaction. |
| SasRun.Verifier.OnRequest | beeper/beeper_task.c:3413-3474 | The request as the state machine has it: taken exactly if none was before, verification is still to be done, the sender is the user, the method is among those named, and it is no more than ten minutes old and no more than five minutes ahead. |
| SasRun.Verifier.OnStart | beeper/beeper_task.c:3475-3598 | The start: all four offers must be there; acceptance and key are sent. |
| SasRun.Verifier.OnKey | beeper/beeper_task.c:3599-3652 | The key: the shared secret and the emoji, which are those of `SasRun.EmojiMeet`. |
| SasRun.Verifier.OnMatches | beeper/beeper_task.c:2943-3063 | The user's word: our MAC is sent, and a stored one of the peer checked. |
| SasRun.Verifier.OnMac | beeper/beeper_task.c:3653-3677 | The peer's MAC: stored, or checked if the user has spoken. |
| SasRun.Verifier.Loop | beeper/beeper_task.c:2926-3688 | The thread does to its variables, over any events, what the state machine says. |
| Mcpd.Daemon.Handle | mcpd/mcpd.c:368-393 | A whole notice unblocks exactly the peer that waits for just that; a new count is taken; a notice about no peer leaves the poller where it is. |
| Mcpd.Daemon.Multitask | mcpd/mcpd.c:490-531 | Whatever notices come while bytes are moved, no parked transfer is forgotten: each is still blocked at the server, or has a notice on its way, or is marked unblocked with the main loop to know of it. |
| Mcpd.Daemon.AskServer | mcpd/mcpd.c:553-561 | One answer of the server is used up for one question; it counts as none if the direction is blocked, and after an answer of none the direction is blocked with a notice to come; meanwhile no parked transfer is forgotten. |
| Mcpd.Daemon.Round | mcpd/mcpd.c:547-582 | One round asks one question and moves just the least of the answer, 255 and what remains; an answer of none parks the transfer with a notice to come, or asks again if the peer was unblocked meanwhile; it ends only if the server answers no more or the source has too little. The whole state afterwards is that of the specified round. |
| Mcpd.Daemon.Rounds | mcpd/mcpd.c:551-582 | Answer by answer: every answer that has gone was used for a question about this transfer, what remains has come down by just what was moved on each, and the bytes moved are the next of the source, in order. The whole state afterwards is that of the specified rounds; they give up only where all answers have been used up or the source has less than remains. |
| Mcpd.Daemon.ContinueTransfer | mcpd/mcpd.c:543-587 | It ends idle with nothing remaining and its socket listened to again, or parked and not forgotten; what is gone from what remains has moved, once each and in order, on the answers that were used up for it. It fails only where the transfer is stuck for ever, with the state that the specified rounds lead to. |
| Mcpd.Daemon.StartTransfer | mcpd/mcpd.c:1126-1136 | From the request on, with what was asked for put on record: every peer's record, its channels and the questions about it agree afterwards, and the whole state is the specified one; it fails only where the transfer is stuck. |
| Mcpd.WholeTransfer | mcpd/mcpd.c:543-587 | What the record of a transfer says, however often it was parked and resumed: the bytes moved are the first of those there were at the request, in order, as many as are not remaining, and as many as were moved on the server's answers about it since then; all that were asked for once it is over; nothing the other way. |
| Mcpd.FinishedOn | mcpd/mcpd.c:547-586 | Stretches of a transfer add up to the whole. |
| Mcpd.AccountsJoin | mcpd/mcpd.c:551-582 | The accounts of two stretches of a transfer add up to the account of both. |
| Mcpd.AboutOne | mcpd/mcpd.c:551-582 | Questions that account for one peer's transfer are about no other peer. |
| Mcpd.Daemon.ContinueAll | mcpd/mcpd.c:799-804 | Every transfer that can go on does, in the order of the peers, every one keeps to its record, and the whole state is that of continuing one after the other; it fails only where one is stuck. |
| Mcpd.Daemon.CloseWatcher | mcpd/mcpd.c:589-616 | Both parallel arrays lose the same watcher, the last one taking its place. |
| Mcpd.Daemon.UpdateWatcher | mcpd/mcpd.c:618-646 | The watcher has got every token below where it stands, but the daemon's own, once each and in order; it has all, or waits to be writable, or is closed; the others are as they were. |
| Mcpd.Daemon.UpdateWatchers | mcpd/mcpd.c:791-796 | Every watcher that does not wait to be writable has all tokens afterwards, none being skipped when another is closed; if no write fails nobody is closed and nobody has to wait. |
| Mcpd.Daemon.AddPeers | mcpd/mcpd.c:756-782 | The peers' tokens are all tokens but the daemon's own, in order; the new places are put between peers and watchers. The new places are vacant and listened to for reading. |
| Mcpd.Daemon.SetInterests | mcpd/mcpd.c:784-789 | Exactly the new peers are asked for, in order; meanwhile no parked transfer is forgotten. |
| Mcpd.Daemon.SendTokens | mcpd/mcpd.c:625-645 | The tokens sent are those below where it stops, but the daemon's own, in order; it stops early only if a write fails. |
| Mcpd.Daemon.Admit | mcpd/mcpd.c:756-797 | New tokens, with the requests and the watchers' news: seats, watchers and counts are right again, and interest has been asked for exactly once for every peer, in order. Every seat stays listened to for reading. |
| Mcpd.Daemon.Attend | mcpd/mcpd.c:746-804 | One round of the inner loop keeps everything, with the record of every transfer, and makes of the whole state what is specified; it fails only where a transfer is stuck. |
| Mcpd.Daemon.Settle | mcpd/mcpd.c:745-816 | Where the daemon blocks nothing has happened that it does not know of, no parked transfer could go on, and each one is still blocked at the server or has an unprocessed notice on its way; the whole state is the one the specified loop ends in, which it does because every further round uses up something that happened; it fails only where a transfer is stuck; every transfer keeps to its record. |
| Mcpd.Daemon.AcceptPeer | mcpd/mcpd.c:829-866 | A connection is refused as unknown exactly if the token is not one of a peer, and as busy exactly if its place is not vacant; otherwise it gets the place. |
| Mcpd.Daemon.AcceptWatcher | mcpd/mcpd.c:867-894 | A new watcher is put last in both arrays and is sent all tokens, or waits to be writable, or is gone again; if no write fails it has them all. |
| Mcpd.Daemon.ServeWatchers | mcpd/mcpd.c:1142-1156 | Every watcher that hung up is gone; if no write fails every one that could be written to has all tokens and waits no more; nobody is skipped in spite of the swaps, and those that nothing was reported of are still there; it fails only if something to read was reported of a watcher. |
| Mcpd.Daemon.Quit | mcpd/mcpd.c:911-938 | The peer's place is vacant again. |
| Mcpd.Daemon.Run | mcpd/mcpd.c:745-1157 | Whatever poll reports and whatever happens at the server, the state of peers, watchers, records, answers and what else is left to come is exactly what serving the events one after the other, with the main loop in between, leads to. The daemon never blocks with a transfer that could go on; every answer of the server that has gone was used for a question; and every transfer has moved just what is not remaining of it, in order, on the answers to the questions about it. It stops before only if a transfer is stuck or poll reports of a watcher what nobody asked for. Every peer's seat is listened to for reading whenever the daemon blocks. |
| Mcpd.Daemon.Serve | mcpd/mcpd.c:819-1156 | What each reported event makes of the whole state. A transfer is put on record with what was asked for, a connection gets its vacant place, one that quits leaves it; watchers are added and dealt with, and those that nothing was reported of stay; the records of all other transfers stay as they are. |
| Mcpd.Daemon.ServeAll | mcpd/mcpd.c:818-1157 | Everything one call of poll reports, one after the other. |
| Mcpd.TokensAre | mcpd/mcpd.c:773-783 | The tokens in order are 0, 1, 2, ... without the daemon's own, all distinct. |
| Mcpd.TokensEqual | mcpd/mcpd.c:749-754 | Where only the daemon's own token has come, there is nobody to add. |
| Mcpd.SwapRemovedAt | mcpd/mcpd.c:599-604 | After a removal the same watcher is found at the same place of both arrays. |
| PollLoop.Dispatcher.Add | mcp_lvgl_common/mcp_lvgl_common.c:112-137 | The handle is registered in the linked list, counted, and not called in the run under way. |
| PollLoop.Dispatcher.Modify | mcp_lvgl_common/mcp_lvgl_common.c:139-149 | The subscription is the new one from then on; list and ready events stay. |
| PollLoop.Dispatcher.Remove | mcp_lvgl_common/mcp_lvgl_common.c:151-176 | The handle is out of the doubly linked list, the count and the ready events still to come. |
| PollLoop.Dispatcher.Turn | mcp_lvgl_common/mcp_lvgl_common.c:54-85 | A ready event's turn calls exactly what is expected after the effects so far: nothing if the handle was removed, otherwise what was reported of what it is subscribed to now. |
| PollLoop.Dispatcher.Run | mcp_lvgl_common/mcp_lvgl_common.c:39-89 | Over a whole run with callbacks that add, modify and remove any handles: every ready event is answered as registrations and subscriptions stand when its turn comes; what happens between two turns is just what the callback called then does, of the handles registered at that time; and the list afterwards is the first one with what was added and less what was removed. |
| PollLoop.DoesOne | mcp_lvgl_common/mcp_lvgl_common.c:54-85 | The actions of a callback are done one after the other, each of the handles that are registered by then. |
| PollLoop.CalledOnce | mcp_lvgl_common/mcp_lvgl_common.c:54-85 | No callback runs on a removed handle; a handle that no callback touched is called exactly once if something it is subscribed to, a hang-up or an error was reported, not at all otherwise, and no other call is for it. |

## Left out

- Texter.Convo.DrawNew: scrolling the area after a bubble is drawn can raise the scroll event, and with it one more scroll before the latest mark moves on (`texter_ui/texter_ui.c:785`, `texter_ui/texter_ui.c:800`, `texter_ui/texter_ui.c:816`, and `texter_ui/texter_ui.c:605` for opening); LVGL is not part of this model, and has one scroll after it.
- LVGL: what is drawn where. A layout is any set of distances; only that it never gives back the last bubble is a premise (`Texter.Convo.TrimBottom` fails there).
- Deleting a conversation, and with it the unload events still queued (`texter_ui/texter_ui.c:262-284`).
- More than one room: rooms share the chat menu, of which the model has whether another conversation is open, and the event queue, in which the events of one conversation keep their order.
- Texter.Convo.DropEnd: the bubble list and the event queue are sequences; the circular list under both is the one that `LinkedList` proves.
- Sending text, titles, members, log-in, the sync response's JSON apart from what it asks of rooms, key list and verification.
- Room.Room.OnMessages: messages are objects, but the list of them is a sequence, not the pointer ring; that ring operations are sequence operations is proved in `LinkedList`.
- Chat.Chat.OnMessages: the room's calls on futures are taken when the room has handled its event; the text UI never calls the room back while it takes one, so that the order of calls is that of the code.
- SessionStore.Store.Add: the slots are a sequence that is reassigned; `memmove` within the array is not shown byte by byte.
- DeviceLists.Directory.Apply: the users are a sequence that is reassigned; freeing and shrinking of the array is not modelled.
- DeviceLists.Directory.Refresh: the answer to the query, and so the new keys of a user, is not modelled; only the flags are.
- KeyList.SaveAndLoad: counts are unbounded; 32-bit counts, and files that were not written by this program, on which the reader stops, are not modelled.
- TxnId.Counter.Run: a death between truncating and writing the file is left out; the next start would stop at the short read.
- HttpStream.ReadersAgree: responses with chunk extensions or trailer fields, which the readers do not take, and the reading of headers are left out; a chunk is smaller than 2^31 bytes, and that the whole body is too, which the `int` position needs, is not stated.
- Sas.VerifyPeer: message authentication codes, key agreement and hashes are any functions; that they are hard to forge is not modelled. JSON events arrive parsed, and those without the fields the code asserts are not there.
- SasRun.HonestRunCompletes: the peer's messages other than its key and its MAC are given, not produced by a second state machine.
- Sessions.StepKeeps: one room. The refresh of the bridgebot's devices before a key is asked for, and the request's JSON, are left out; an import or a pickle that fails ends the program.
- Mcpd.Daemon.Run: tokens, counts and lengths are unbounded (8 and 32 bits in the C code). Pins, GPIO, peripherals and their paths are left out. The counter of ready descriptors, which ends a pass early once all are served, is not modelled: the pass goes on and finds nothing.
- Mcpd.Daemon.Multitask: the bit-level exchange over the two sockets is a list of things that happen between two bytes.
- Mcpd.Daemon.AcceptPeer: the one-byte response is a value; the sockets' own buffers are not modelled.
- PollLoop.Dispatcher.Run: what the kernel reports is a parameter; timeouts and the deadline of the user interface are left out.
- Memory that runs out, and threads beyond the queue that hands events over.
