# orkut-2.0 in Dafny

orkut-2.0 is a nostalgic social-network clone: a React front end with floating
"desktop" windows, an MSN-style chat and an audio library, and a FastAPI back
end with rate limiting, a peer-to-peer file registry, document tools and a
language-model "gist memory". This project models the parts of it that hold
logic of their own, and proves what they promise.

- **Floating windows.**
  - `WindowFrame` (window_frame.dfy) is one window's state machine: dragging by the title bar, a button row that never starts a drag, minimize and maximize as two independent flags, and the focus and close callbacks it hands to its host.
  - Three hosts own such windows:
    - the MSN chat simulator (msn_chat_simulator.dfy), with one window per contact id, a z-order counter that only grows, per-contact drafts, and one pending "typing" timer per contact;
    - the MSN page (chat_msn.dfy), with one window per contact name and no z-order;
    - the profile page (orkut_profile.dfy), with a single active window and a growing counter.
- **Back end.**
  - The two sliding-window rate limiters (rate_limit.dfy).
  - Gist-memory pagination and the "not configured" paths of the model client (cerebras_service.dfy).
  - The P2P file registry and its statistics (ai_p2p.dfy).
  - The PDF upload checks, the fallback chunker and the output caps of the section and topic extractors (ai_documents.dfy).
  - The CORS origin list (config.py, modelled in config.dfy).
  - The Windows-to-POSIX PATH converter script (convert_path.dfy).
- **Front-end pure logic and handlers.**
  - The API error mapping, URL sanitiser and registration rules (validation.dfy).
  - The audio library (audio_uploader.dfy).
  - Likes (dashboard.dfy), saved feed items (feed.dfy), and the chat page and chat window (chat.dfy, msn_chat_window.dfy).

Components whose handlers update state in place are classes whose fields are
that state. Each handler is a method whose `ensures` gives the new state, as a
specification function of the old one. Pure code is functions and lemmas.

Two modules are shared:
- basics.dfy: filter, flatten, distinctness.
- text.dfy: string operations, with JavaScript's and Python's white-space sets kept apart for `trim`/`strip`. It has Python's `split` with a separator (proved to round-trip with `join`), `split()` on white space, lower-casing, substring search, and decimal rendering of naturals.

Clocks, random choices, generated ids, the network, the file system and the
browser's media objects are parameters of the operations that use them.

## Model

| member | source | states |
|---|---|---|
| WindowFrame.Run | frontend/src/components/WindowFrame.tsx:114-132 | no sequence of events changes whether the window may be minimized or maximized |
| WindowFrame.LayoutOf | frontend/src/components/WindowFrame.tsx:90-96 | maximized: left and top 0 with full width and height; otherwise the stored position and width, with auto height when minimized and the stored height when not |
| WindowFrame.MouseDownStartsDrag | frontend/src/components/WindowFrame.tsx:68-78 | outside the no-drag zone a mouse-down starts a drag with offset pointer minus position, keeps the position and asks for focus; inside it nothing changes and no focus is asked |
| WindowFrame.MaximizeToggles | frontend/src/components/WindowFrame.tsx:80-84 | the double click toggles maximize on a maximizable window and does nothing otherwise; the maximize button always toggles |
| WindowFrame.SizeNeverChanges | frontend/src/components/WindowFrame.tsx:39 | no sequence of events changes the window's size |
| WindowFrame.MovesFollowPointer | frontend/src/components/WindowFrame.tsx:45-51 | while dragging, a run of moves leaves the window at the last pointer minus the unchanged drag offset |
| WindowFrame.DragMovesByPointerDelta | frontend/src/components/WindowFrame.tsx:45-51 | a drag from p0 to p1 moves the window by exactly p1 - p0 |
| WindowFrame.MovesAfterMouseUpAreInert | frontend/src/components/WindowFrame.tsx:53-60 | when not dragging, pointer moves change nothing |
| WindowFrame.MinimizedAndMaximizedTogether | frontend/src/components/WindowFrame.tsx:36-37 | both flags can be set at once; the layout is then full size and the content is unmounted |
| WindowFrame.MaximizeTwiceRestoresLayout | frontend/src/components/WindowFrame.tsx:91-94 | maximizing and restoring gives back the same state and layout |
| WindowFrame.Window.constructor | frontend/src/components/WindowFrame.tsx:36-41 | the initial state: given position and size, nothing minimized, maximized or dragging |
| WindowFrame.Window.HandleMouseDown | frontend/src/components/WindowFrame.tsx:68-78 | the fields and callbacks follow `Step` for a title mouse-down |
| WindowFrame.Window.HandleMouseMove | frontend/src/components/WindowFrame.tsx:45-51 | the fields follow `Step` for a pointer move |
| WindowFrame.Window.HandleMouseUp | frontend/src/components/WindowFrame.tsx:53-55 | the drag ends |
| WindowFrame.Window.HandleDoubleClick | frontend/src/components/WindowFrame.tsx:80-84 | the fields follow `Step` for a double click |
| WindowFrame.Window.ClickMinimize | frontend/src/components/WindowFrame.tsx:114-122 | minimize flips and the bubbled click asks for focus |
| WindowFrame.Window.ClickMaximize | frontend/src/components/WindowFrame.tsx:124-132 | maximize flips and the bubbled click asks for focus |
| WindowFrame.Window.ClickClose | frontend/src/components/WindowFrame.tsx:134-140 | calls close, then focus; the state is unchanged |
| WindowFrame.Window.ClickFrame | frontend/src/components/WindowFrame.tsx:100 | calls focus; the state is unchanged |
| WindowFrame.Step | frontend/src/components/WindowFrame.tsx:45-140 | the transition each handler makes, as the new state and the callbacks fired; what it promises is proved in MouseDownStartsDrag, MaximizeToggles, MovesFollowPointer, DragMovesByPointerDelta, MovesAfterMouseUpAreInert and SizeNeverChanges, and the Window methods follow it |
| WindowFrame.Initial | frontend/src/components/WindowFrame.tsx:36-41 | the state the useState calls start from; Window.constructor establishes it and MinimizedAndMaximizedTogether starts from it |
| MsnChatSimulator.Updated | frontend/src/components/MSNChatSimulator.tsx:138-147 | the per-window update changes only the window of that contact and keeps the ids (and the z-indices, unless it is a raise) |
| MsnChatSimulator.CloseRemovesThatWindow | frontend/src/components/MSNChatSimulator.tsx:149-150 | with unique ids, closing removes exactly that contact's window and keeps the others in order |
| MsnChatSimulator.CloseAbsentIsNoOp | frontend/src/components/MSNChatSimulator.tsx:149-150 | closing a contact with no window changes nothing |
| MsnChatSimulator.RemoveWindow | frontend/src/components/MSNChatSimulator.tsx:149-150 | removing a window removes exactly its id and its z-index and keeps both free of repeats |
| MsnChatSimulator.RaiseKeepsZOrder | frontend/src/components/MSNChatSimulator.tsx:138-147 | the raised window is above every other, and z-indices stay distinct and handed out by the counter |
| MsnChatSimulator.AtMostOneTimerPerContact | frontend/src/components/MSNChatSimulator.tsx:80-86 | no contact ever has two armed typing timers |
| MsnChatSimulator.RearmKeepsTimers | frontend/src/components/MSNChatSimulator.tsx:80-86 | re-arming cancels the contact's previous timer and keeps the timer bookkeeping consistent |
| MsnChatSimulator.CancelKeepsTimers | frontend/src/components/MSNChatSimulator.tsx:154-158 | cancelling on close leaves every armed timer on a window still open |
| MsnChatSimulator.CloseKeepsInv | frontend/src/components/MSNChatSimulator.tsx:149-159 | closing keeps the invariant and leaves no window, draft or armed timer for the contact |
| MsnChatSimulator.Simulator.constructor | frontend/src/components/MSNChatSimulator.tsx:55-61 | no windows, drafts or timers, and the counter at 1000 |
| MsnChatSimulator.Simulator.BringToFront | frontend/src/components/MSNChatSimulator.tsx:138-147 | the counter grows by one even for an absent id; that window gets it and is above all others; nothing else changes |
| MsnChatSimulator.Simulator.StartChat | frontend/src/components/MSNChatSimulator.tsx:111-136 | a new contact gets one window on top with the status-dependent greeting; an open one is only brought to front; no duplicates |
| MsnChatSimulator.Simulator.CloseChat | frontend/src/components/MSNChatSimulator.tsx:149-159 | the window and the draft go, and the contact's timer is cancelled and forgotten |
| MsnChatSimulator.Simulator.EditDraft | frontend/src/components/MSNChatSimulator.tsx:56 | only the contact's draft changes |
| MsnChatSimulator.Simulator.SimulateTyping | frontend/src/components/MSNChatSimulator.tsx:73-109 | the typing flag is set and the contact's only timer is re-armed with a new handle |
| MsnChatSimulator.Simulator.SendMessage | frontend/src/components/MSNChatSimulator.tsx:161-189 | a missing or blank draft does nothing; otherwise the trimmed text goes to that window only as the user's, the draft empties, and an online contact starts typing |
| MsnChatSimulator.Simulator.Fire | frontend/src/components/MSNChatSimulator.tsx:86-108 | the fired timer appends one reply from the contact to that window, clears its typing flag and is disarmed |
| MsnChatSimulator.Simulator.Unmount | frontend/src/components/MSNChatSimulator.tsx:199-205 | every armed timer is cancelled |
| MsnChatSimulator.OnlyOnlineContactsReply | frontend/src/components/MSNChatSimulator.tsx:46-53 | of the fixed contacts exactly ids 1, 2 and 4 are online and answer |
| MsnChatSimulator.Apply | frontend/src/components/MSNChatSimulator.tsx:73-189 | the four per-window updates (`zIndex`, `isTyping`, an appended message, a reply that clears `isTyping`); Updated proves each reaches only the matching window |
| MsnChatSimulator.Greeting | frontend/src/components/MSNChatSimulator.tsx:121 | the opening message depends on the contact being online; Simulator.StartChat puts it first in a new window |
| MsnChatSimulator.OnlineContact | frontend/src/components/MSNChatSimulator.tsx:185-186 | the lookup `contacts.find(...)?.status === 'online'`; OnlyOnlineContactsReply evaluates it for the fixed list |
| MsnChatSimulator.ReplyAuthor | frontend/src/components/MSNChatSimulator.tsx:90 | the reply is signed by the contact's name or "Contato"; Simulator.Fire uses it |
| MsnChatSimulator.ReplyAvatar | frontend/src/components/MSNChatSimulator.tsx:93 | the reply's avatar is the contact's or the generic one; Simulator.Fire uses it |
| ChatMsn.Closed | frontend/src/pages/ChatMSN.tsx:39-41 | after closing, no window of that name is left |
| ChatMsn.SentTo | frontend/src/pages/ChatMSN.tsx:43-57 | the message is appended to every window of that name; other windows, names and count are unchanged |
| ChatMsn.ClosedKeepsOthers | frontend/src/pages/ChatMSN.tsx:39-41 | closing keeps exactly the windows of other names |
| ChatMsn.CloseRemovesOneWindow | frontend/src/pages/ChatMSN.tsx:39-41 | with unique names, closing removes that one window and keeps the order of the rest |
| ChatMsn.CloseAbsentIsNoOp | frontend/src/pages/ChatMSN.tsx:39-41 | closing a name with no window changes nothing |
| ChatMsn.SendReachesOneWindow | frontend/src/pages/ChatMSN.tsx:43-57 | with unique names, a message lands in exactly one window |
| ChatMsn.SendToAbsentIsNoOp | frontend/src/pages/ChatMSN.tsx:43-57 | a message to a name without a window is dropped |
| ChatMsn.ClosedKeepsInv | frontend/src/pages/ChatMSN.tsx:39-41 | closing keeps one window per name, each opened by its greeting |
| ChatMsn.SentToKeepsInv | frontend/src/pages/ChatMSN.tsx:43-57 | sending keeps one window per name, each still opened by its greeting |
| ChatMsn.Page.constructor | frontend/src/pages/ChatMSN.tsx:23 | no windows |
| ChatMsn.Page.StartChat | frontend/src/pages/ChatMSN.tsx:27-37 | an open name changes nothing; otherwise one window whose only message is "Oi!" from the contact is appended |
| ChatMsn.Page.CloseChat | frontend/src/pages/ChatMSN.tsx:39-41 | the windows become `Closed` of the old ones, and the invariant holds |
| ChatMsn.Page.SendMessage | frontend/src/pages/ChatMSN.tsx:43-57 | the windows become `SentTo` with a message from "Você", and the invariant holds |
| ChatMsn.Page.SubmitInput | frontend/src/pages/ChatMSN.tsx:98-110 | an empty input does nothing; a non-empty one is sent untrimmed and the input is emptied |
| OrkutProfile.Next | frontend/src/pages/OrkutProfile.tsx:98-105 | opening makes that kind active and adds exactly one to the counter, even when it was already active; closing clears the active window and keeps the counter |
| OrkutProfile.ZIndexCountsOpens | frontend/src/pages/OrkutProfile.tsx:98-101 | the counter equals its start plus the number of openings, so it never decreases |
| OrkutProfile.ActiveIsLastOpened | frontend/src/pages/OrkutProfile.tsx:98-105 | the active window is the last one opened, or none after a close |
| OrkutProfile.OnlyTheActiveKind | frontend/src/pages/OrkutProfile.tsx:202 | among distinct kinds, only the active one passes the render condition |
| OrkutProfile.ShownIsActive | frontend/src/pages/OrkutProfile.tsx:202-383 | at most one window is on screen, and it is the active one |
| OrkutProfile.Page.constructor | frontend/src/pages/OrkutProfile.tsx:33-34 | no active window, and the counter at 1000 |
| OrkutProfile.Page.OpenWindow | frontend/src/pages/OrkutProfile.tsx:98-101 | the fields follow `Next` for an opening |
| OrkutProfile.Page.CloseWindow | frontend/src/pages/OrkutProfile.tsx:103-105 | the fields follow `Next` for a close |
| OrkutProfile.Replay | frontend/src/pages/OrkutProfile.tsx:98-105 | the state after a run of opens and closes; ZIndexCountsOpens and ActiveIsLastOpened state what it gives |
| OrkutProfile.Shown | frontend/src/pages/OrkutProfile.tsx:202-383 | the five conditional windows in page order; ShownIsActive proves at most one shows, the active one |
| RateLimit.Recent | backend/app/middleware/rate_limit.py:29-33 | pruning never grows the list, and every kept time lies inside the window |
| RateLimit.Admit | backend/app/middleware/rate_limit.py:38-45 | refused exactly when the pruned list has reached the limit; a refusal appends nothing; an admission appends now and leaves limit - count between 0 and limit - 1 |
| RateLimit.RecentMembers | backend/app/middleware/rate_limit.py:29-33 | pruning keeps exactly the times inside the window |
| RateLimit.RecentLater | backend/app/middleware/rate_limit.py:29-33 | pruning at a later time of an already pruned list is pruning the original |
| RateLimit.RecentAppendNow | backend/app/middleware/rate_limit.py:45 | a request recorded now survives pruning now |
| RateLimit.ServeKeepsWindow | backend/app/middleware/rate_limit.py:21-45 | with a clock that does not go back, the stored list is exactly the admitted requests inside the window, and never more than the limit |
| RateLimit.AtMostLimitPerWindow | backend/app/middleware/rate_limit.py:21-45 | no window ending at a request admits more than the limit |
| RateLimit.RateLimitMiddleware.constructor | backend/app/middleware/rate_limit.py:16-19 | the limit as given, and an empty table |
| RateLimit.RateLimitMiddleware.Dispatch | backend/app/middleware/rate_limit.py:21-56 | only the address's entry changes (a refusal keeps the pruning); the 429 text; on admission the limit and remaining headers |
| RateLimit.LoginRateLimitMiddleware.constructor | backend/app/middleware/rate_limit.py:64-67 | the limit as given, and an empty table |
| RateLimit.LoginRateLimitMiddleware.Dispatch | backend/app/middleware/rate_limit.py:69-102 | any other path passes and leaves the table alone; the login path prunes to 300 seconds and refuses at the limit with its 429 text |
| RateLimit.ClientIp | backend/app/middleware/rate_limit.py:23 | the client address, or "unknown" without one; both Dispatch methods key their table by it |
| RateLimit.Pruned | backend/app/middleware/rate_limit.py:26-35 | an address's list after pruning, empty for a new address; the Dispatch methods store Admit of it |
| RateLimit.Serve | backend/app/middleware/rate_limit.py:21-45 | one address served over a run of requests from a fresh table; ServeKeepsWindow and AtMostLimitPerWindow state what it keeps |
| CerebrasService.GroupWordsAppend | backend/app/services/cerebras_service.py:73-74 | the running word count adds each paragraph's words |
| CerebrasService.PackFromPartition | backend/app/services/cerebras_service.py:72-83 | the pages hold the paragraphs in order: concatenated, they give the list back |
| CerebrasService.WellSizedAt | backend/app/services/cerebras_service.py:77-80 | each page is non-empty and had at most 500 words before its last paragraph; every page but the last passed 500 |
| CerebrasService.PackFromSizes | backend/app/services/cerebras_service.py:72-83 | the packing loop produces well-sized pages |
| CerebrasService.PackFromNonEmpty | backend/app/services/cerebras_service.py:82-83 | at least one paragraph gives at least one page |
| CerebrasService.PackProperties | backend/app/services/cerebras_service.py:66-83 | partition, order, at least one page, and the size bounds |
| CerebrasService.JoinPagesFlatten | backend/app/services/cerebras_service.py:77-83 | joining the pages is joining all their paragraphs |
| CerebrasService.PagesRebuildDocument | backend/app/services/cerebras_service.py:66-83 | the pages joined with blank lines are the document |
| CerebrasService.EmptyDocumentHasOnePage | backend/app/services/cerebras_service.py:66-83 | the empty document gives exactly one, empty, page |
| CerebrasService.Paginate | backend/app/services/cerebras_service.py:66-83 | the loop produces exactly the pages of `Pack` |
| CerebrasService.Summarize | backend/app/services/cerebras_service.py:88-98 | one summary per page, in order: the model's answer to the page's prompt, or "Erro ao gerar resumo" when the call raised |
| CerebrasService.GistMemory | backend/app/services/cerebras_service.py:63-104 | total_pages equals the number of pages and of gists, and is at least 1; the pages rebuild the document |
| CerebrasService.Service.constructor | backend/app/services/cerebras_service.py:14-18 | no client yet |
| CerebrasService.Service.Initialize | backend/app/services/cerebras_service.py:20-31 | the client exists afterwards exactly when it did before or there is an API key |
| CerebrasService.Service.Complete | backend/app/services/cerebras_service.py:38-61 | no key: "Cerebras not configured"; otherwise the answer, or "Error: " and the failure |
| CerebrasService.GroupWords | backend/app/services/cerebras_service.py:73-74 | the running word count of a page; GroupWordsAppend proves it adds up over concatenation |
| CerebrasService.PackFrom | backend/app/services/cerebras_service.py:72-83 | the page-filling loop from a page in progress; PackFromPartition, PackFromSizes and PackFromNonEmpty state its partition, size and non-emptiness |
| CerebrasService.Pack | backend/app/services/cerebras_service.py:66-83 | the pages of a document; PackProperties and PagesRebuildDocument state what they are, and Paginate computes them |
| CerebrasService.Prompt | backend/app/services/cerebras_service.py:91 | the first 500 characters of a page and "..."; Summarize sends it once per page |
| CerebrasService.Gist | backend/app/services/cerebras_service.py:93-98 | the answer, or "Erro ao gerar resumo" when the call raised; Summarize and GistMemory give one per page |
| AiP2P.UploadRefusal | backend/app/api/ai.py:821-835 | accepted exactly when the type is one of the eleven allowed and the size is at most 100 MiB; a bad type is refused with its own text first |
| AiP2P.FirstStats | backend/app/api/ai.py:901-905 | a first listing records the entry's downloads and max(1, size // 1 MiB) peers |
| AiP2P.InsertByDate | backend/app/api/ai.py:911 | inserting adds one entry, at the front or behind the first |
| AiP2P.InsertByDateSorted | backend/app/api/ai.py:911 | inserting into a newest-first list keeps it newest first |
| AiP2P.InsertByDatePermutes | backend/app/api/ai.py:911 | inserting is a permutation of the entry and the list |
| AiP2P.InsertByDateStable | backend/app/api/ai.py:911 | entries with the same date keep their relative order |
| AiP2P.SortNewestFirstCorrect | backend/app/api/ai.py:911 | the sort is newest first, a permutation, and stable |
| AiP2P.SumsUpdate | backend/app/api/ai.py:1003-1004 | changing one category's totals changes the sums by the difference |
| AiP2P.AddToCategoryKeepsSums | backend/app/api/ai.py:999-1004 | counting a file adds one and its size to the sums and keeps categories distinct |
| AiP2P.CategoryTotalsAddUp | backend/app/api/ai.py:998-1004 | per-category counts and sizes add up to the number of files and their total size, each category once |
| AiP2P.CategoryTotalsNames | backend/app/api/ai.py:998-1004 | the categories listed are exactly those of the files |
| AiP2P.TotalDownloadsUpdate | backend/app/api/ai.py:993 | changing one file's statistics changes the total by its difference in downloads |
| AiP2P.TotalDownloadsAppend | backend/app/api/ai.py:993 | a key added at the end adds its downloads |
| AiP2P.ListedIdsExactly | backend/app/api/ai.py:886-896 | a file is listed exactly when it is registered and passes the category and case-insensitive search filters, and none twice |
| AiP2P.DownloadCountsOne | backend/app/api/ai.py:937-939 | a download adds exactly one to the total, creates {0 downloads, 1 peer} when missing, and leaves other files and all peer counts alone |
| AiP2P.DeleteUndoesUpload | backend/app/api/ai.py:1029-1031 | deleting a freshly uploaded id gives back the registry and its order |
| AiP2P.NewEntry | backend/app/api/ai.py:847-863 | the stored entry has the new id and no downloads, and is audio exactly when the type starts with "audio/" |
| AiP2P.ListShared | backend/app/api/ai.py:882-917 | the listing's tables and answer: matching entries only, newest first, with their total and every registry category; the tables stay consistent |
| AiP2P.AnnotateOne | backend/app/api/ai.py:899-908 | one loop step keeps the registry's ids and adds statistics only for that id |
| AiP2P.AnnotateAll | backend/app/api/ai.py:899-908 | the loop keeps the registry's ids and adds statistics exactly for the listed ids |
| AiP2P.AnnotateAllStats | backend/app/api/ai.py:901-905 | existing statistics are kept, and a listed file seen first gets its first statistics |
| AiP2P.AnnotateAllFiles | backend/app/api/ai.py:907-908 | every listed entry carries its statistics' downloads and peers; others are untouched |
| AiP2P.AnnotateAllOrder | backend/app/api/ai.py:901-905 | new statistics are appended in listing order |
| AiP2P.AnnotatedStillMatch | backend/app/api/ai.py:889-908 | annotated entries still pass the filters |
| AiP2P.SortedStillMatch | backend/app/api/ai.py:911 | sorting keeps every entry's properties |
| AiP2P.AnnotateAllConsistent | backend/app/api/ai.py:899-908 | the loop keeps the tables consistent |
| AiP2P.AnnotateListed | backend/app/api/ai.py:899-908 | the loop computes `AnnotateAll` |
| AiP2P.Registry.constructor | backend/app/api/ai.py:813-814 | both tables empty |
| AiP2P.Registry.Upload | backend/app/api/ai.py:816-880 | a refusal is a 500 wrapping the 400's text and changes nothing; otherwise one entry under the id, no statistics touched |
| AiP2P.Registry.ListFiles | backend/app/api/ai.py:882-917 | the tables as the loop leaves them and the answer; listed files match and are newest first |
| AiP2P.Registry.Download | backend/app/api/ai.py:923-951 | unknown or missing on disk: a 500 wrapping the 404 and no change; otherwise the file, with one more download |
| AiP2P.Registry.Delete | backend/app/api/ai.py:1014-1039 | unknown: a 500 wrapping the 404; otherwise removed from both tables |
| AiP2P.Registry.GetStats | backend/app/api/ai.py:989-1012 | file count, max(100, 10 × files) peers, summed downloads, per-category totals, "active" |
| AiP2P.TypeText | backend/app/api/ai.py:829 | how the f-string renders the content type; UploadRefusal gives the detail it appears in |
| AiP2P.ExceptionText | backend/app/api/ai.py:880 | `str(e)` of an HTTPException, status then detail; the wrapped errors of Registry.Upload, Registry.Download, Registry.Delete and AiDocuments.UploadPdf are built from it |
| AiP2P.Matches | backend/app/api/ai.py:889-896 | the category and case-insensitive search filters; ListedIdsExactly proves the listing keeps exactly the matching files |
| AiP2P.SortNewestFirst | backend/app/api/ai.py:911 | the stable newest-first sort; SortNewestFirstCorrect proves it ordered, a permutation and stable |
| AiP2P.TotalDownloads | backend/app/api/ai.py:993 | the downloads summed over the files; TotalDownloadsUpdate and TotalDownloadsAppend state how it changes |
| AiP2P.CategoryTotals | backend/app/api/ai.py:998-1004 | the `categories` object; CategoryTotalsAddUp and CategoryTotalsNames prove it counts every file once under its category |
| AiDocuments.UploadPdf | backend/app/api/ai.py:462-537 | accepted exactly for a PDF of at most 50 MiB with five simulated pages; a refusal is a 500 wrapping the 400 |
| AiDocuments.NonPdfText | backend/app/api/ai.py:465-537 | a non-PDF is answered "Error processing PDF: 400: Only PDF files are allowed" with status 500 |
| AiDocuments.ChunksCover | backend/app/api/ai.py:135-137 | the chunks put back together are the words, in order |
| AiDocuments.ChunksSizes | backend/app/api/ai.py:135-137 | each chunk has 1 to size words, all but the last exactly size |
| AiDocuments.ChunksCount | backend/app/api/ai.py:135-137 | the number of chunks is the least c with c × size ≥ the word count |
| AiDocuments.ChunkSizeAsWritten | backend/app/api/ai.py:133 | the size as written: 200 below 1000 words, from there the floor of a fifth of the words (five of it fall short of the count by less than five words) |
| AiDocuments.ChunkSize | backend/app/api/ai.py:133 | the corrected size is at least 200 and five chunks of it cover the words |
| AiDocuments.ChunkSizeGivesAtMostFive | backend/app/api/ai.py:133 | the corrected size gives at most five chunks |
| AiDocuments.AsWrittenGivesMoreThanFive | backend/app/api/ai.py:133-137 | as written, 1000 words or more, not a multiple of five, give six chunks or more |
| AiDocuments.AsWrittenSixSections | backend/app/api/ai.py:133-137 | as written, 1001 words give six sections |
| AiDocuments.AsWrittenAtMostSix | backend/app/api/ai.py:131-137 | the bound the size as written does keep: never more than six chunks |
| AiDocuments.JoinEachPointwise | backend/app/api/ai.py:136 | one section per chunk, the i-th being the i-th chunk joined by single spaces |
| AiDocuments.ChunkSections | backend/app/api/ai.py:131-137 | the `range` loop with the size as written gives the chunks of `Chunks` joined by spaces, at most six of them |
| AiDocuments.LongParagraphsExactly | backend/app/api/ai.py:127-128 | the paragraph strategy keeps exactly the paragraphs of more than 50 words, in order, each stripped |
| AiDocuments.ExtractSectionsShape | backend/app/api/ai.py:125-139 | at most ten sections; two titled sections or more are used as they are; failing both earlier strategies, the chunks with the size as written: c sections with c × size ≥ the word count > (c - 1) × size, at most six |
| AiDocuments.TopicsShape | backend/app/api/ai.py:169-173 | at most eight topics, words before word pairs, nothing reordered |
| AiDocuments.PdfRefusal | backend/app/api/ai.py:465-475 | the type check, then the size check; UploadPdf states what each refusal answers |
| AiDocuments.Chunks | backend/app/api/ai.py:135-137 | the slices `words[i:i + size]` for i in `range(0, n, size)`; ChunksCover, ChunksSizes and ChunksCount state them |
| AiDocuments.Chunked | backend/app/api/ai.py:131-137 | the chunker's sections with the size as written; ChunkSections computes them and AsWrittenAtMostSix bounds their number |
| AiDocuments.ExtractSections | backend/app/api/ai.py:87-139 | the three strategies and the cap of ten; ExtractSectionsShape states what each gives |
| AiDocuments.Topics | backend/app/api/ai.py:169-173 | `(top_words + top_bigrams)[:8]`; TopicsShape states its length and order |
| Validation.StatusError | frontend/src/utils/validation.ts:130-174 | every response status is carried as the status code |
| Validation.HandleApiError | frontend/src/utils/validation.ts:124-190 | a response decides by its status and is never a network error; without one there is no status code, and the error is a network error exactly when the message is "Network Error", unknown otherwise |
| Validation.CodeStatus | frontend/src/utils/validation.ts:130-167 | a known code reads back as one of the six statuses |
| Validation.StatusCodeRoundTrip | frontend/src/utils/validation.ts:130-173 | the six statuses get the six codes, which give the status back; any other is UNKNOWN_ERROR |
| Validation.SanitizeUrl | frontend/src/utils/validation.ts:81-92 | an http or https URL is returned as serialised; unparseable or any other protocol gives "/" |
| Validation.AcceptedPasswordIsMixed | frontend/src/utils/validation.ts:30-41 | an accepted password is 8 to 128 characters, equals its confirmation and holds three distinct characters: upper case, digit, symbol |
| Validation.AcceptedNameHasNoDigit | frontend/src/utils/validation.ts:21-25 | an accepted name holds no digit |
| Validation.NameChar | frontend/src/utils/validation.ts:25 | the characters the name pattern allows; AcceptedNameHasNoDigit proves none is a digit |
| Validation.NameOk | frontend/src/utils/validation.ts:21-25 | the name rules; AcceptedNameHasNoDigit states a consequence |
| Validation.PasswordOk | frontend/src/utils/validation.ts:30-36 | the password rules; AcceptedPasswordIsMixed states what an accepted password holds |
| Validation.RegisterOk | frontend/src/utils/validation.ts:20-41 | the whole register form, with the confirmation check; AcceptedPasswordIsMixed starts from it |
| ConvertPath.Convert | convert_path.py:3-14 | the loop computes `Converted`: kept entries converted and joined by colons |
| ConvertPath.ConvertEntryShape | convert_path.py:9-12 | no backslash is left; an entry starting "C:" after the replacement becomes "/c" and the rest; others are only the replacement |
| ConvertPath.ConvertedHasNoBackslash | convert_path.py:9-14 | the output holds no backslash |
| ConvertPath.KeptEntriesExactly | convert_path.py:4-7 | exactly the non-empty segments are kept, in order |
| ConvertPath.ConvertedColons | convert_path.py:14 | the output has one colon fewer than the kept entries, plus those inside them |
| ConvertPath.KeptEntries | convert_path.py:4-7 | the non-empty pieces between semicolons; KeptEntriesExactly proves it keeps exactly those, in order |
| ConvertPath.ConvertEntry | convert_path.py:9-12 | the backslash replacement and the "C:" rewrite; ConvertEntryShape states both |
| ConvertPath.Converted | convert_path.py:3-14 | the converted `PATH`; Convert computes it, and ConvertedHasNoBackslash and ConvertedColons state its shape |
| Config.CorsOrigins | backend/app/config.py:60-62 | one origin per comma-separated piece |
| Config.CorsOriginsCount | backend/app/config.py:62 | number of commas plus one origins, empty ones included |
| Config.CorsOriginsStripped | backend/app/config.py:62 | each origin is its piece, in order, stripped; no origin starts or ends with white space or holds a comma |
| Config.DefaultOrigins | backend/app/config.py:17-62 | the default setting gives the two local development servers |
| Config.TwoOrigins | backend/app/config.py:62 | two comma-free, already stripped origins joined by a comma read back as themselves |
| Config.DevServersUntouched | backend/app/config.py:17 | stripping leaves the two default origins as they are |
| Config.LocalOriginUntouched | backend/app/config.py:17 | stripping leaves an origin with printable ends as it is |
| Config.PrintableIsNotSpace | backend/app/config.py:62 | a printable ASCII character is not Python white space |
| AudioUploader.PadTwo | frontend/src/components/AudioUploader.tsx:209 | two or more characters stay; fewer are left-padded with zeros to two |
| AudioUploader.SecondsField | frontend/src/components/AudioUploader.tsx:208-209 | the seconds field is two digits worth the seconds mod 60 |
| AudioUploader.FormatTimeRoundTrip | frontend/src/components/AudioUploader.tsx:206-210 | reading "m:ss" back gives the seconds: the format loses nothing |
| AudioUploader.ParseFields | frontend/src/components/AudioUploader.tsx:209 | digits, a colon and two digits read as minutes and seconds |
| AudioUploader.SplitFields | frontend/src/components/AudioUploader.tsx:209 | the colon is the only separator |
| AudioUploader.ParseOfParts | frontend/src/components/AudioUploader.tsx:209 | two well-formed fields parse |
| AudioUploader.FileRefusal | frontend/src/components/AudioUploader.tsx:102-112 | accepted exactly when the type starts with "audio/" and the size is at most 100 MiB |
| AudioUploader.WithoutExactly | frontend/src/components/AudioUploader.tsx:197-203 | deleting drops every entry with the id and keeps the others in order |
| AudioUploader.WithoutUndoesPrepend | frontend/src/components/AudioUploader.tsx:197-203 | deleting a fresh entry put in front gives the library back |
| AudioUploader.Uploader.constructor | frontend/src/components/AudioUploader.tsx:21-26 | empty library, not recording or uploading, nothing playing |
| AudioUploader.Uploader.StartRecording | frontend/src/components/AudioUploader.tsx:35-82 | with the microphone granted a recording starts with the counter at zero; otherwise nothing changes |
| AudioUploader.Uploader.Tick | frontend/src/components/AudioUploader.tsx:74-76 | the counter grows by one while the interval runs |
| AudioUploader.Uploader.StopRecording | frontend/src/components/AudioUploader.tsx:49-94 | corrected: a running recording stops, goes in front with the seconds counted, and the counter resets; otherwise nothing changes |
| AudioUploader.Uploader.StopRecordingAsWritten | frontend/src/components/AudioUploader.tsx:49-94 | as written: the recording goes in front with duration 0 |
| AudioUploader.Uploader.UploadFile | frontend/src/components/AudioUploader.tsx:97-172 | a refused file alerts and changes nothing; otherwise the file goes in front on success, under the server's id or the fallback, and the bar returns to zero |
| AudioUploader.Uploader.TogglePlay | frontend/src/components/AudioUploader.tsx:175-194 | the playing entry pauses; any other becomes the one playing |
| AudioUploader.Uploader.PlaybackEnded | frontend/src/components/AudioUploader.tsx:187-189 | nothing plays |
| AudioUploader.Uploader.DeleteAudio | frontend/src/components/AudioUploader.tsx:197-203 | the library loses that id's entries; playback stops exactly when it was that id's |
| AudioUploader.ThreeSecondsAsWritten | frontend/src/components/AudioUploader.tsx:49-76 | three seconds recorded as written give an entry of 0 seconds |
| AudioUploader.ThreeSeconds | frontend/src/components/AudioUploader.tsx:49-76 | three seconds recorded with the corrected handler give 3 seconds |
| AudioUploader.FormatTime | frontend/src/components/AudioUploader.tsx:206-210 | minutes, a colon and two-digit seconds; FormatTimeRoundTrip proves ParseTime reads it back |
| AudioUploader.ParseTime | frontend/src/components/AudioUploader.tsx:206-210 | the reading of "m:ss" that FormatTimeRoundTrip uses as formatTime's inverse; the component has no parser of its own |
| Dashboard.Toggled | frontend/src/pages/Dashboard.tsx:42-50 | the id's membership flips and every other id's stays |
| Dashboard.ToggleTwice | frontend/src/pages/Dashboard.tsx:42-50 | toggling twice gives the set back |
| Dashboard.TogglesCommute | frontend/src/pages/Dashboard.tsx:42-50 | toggles of two posts commute |
| Dashboard.Page.constructor | frontend/src/pages/Dashboard.tsx:40 | nothing liked |
| Dashboard.Page.ToggleLike | frontend/src/pages/Dashboard.tsx:42-50 | the set becomes `Toggled` of the old one |
| Feed.SaveToggled | frontend/src/pages/Feed.tsx:66-72 | same length and order; `saved` flips exactly on the items with the id; every other field stays |
| Feed.SaveToggledTwice | frontend/src/pages/Feed.tsx:66-72 | toggling twice gives the list back |
| Feed.FilteredItems | frontend/src/pages/Feed.tsx:74-76 | never more items than the list |
| Feed.FilteredItemsCases | frontend/src/pages/Feed.tsx:74-76 | "todos" shows all in order; "saved" exactly the saved ones; any other value nothing |
| Feed.ToggleInSavedView | frontend/src/pages/Feed.tsx:66-76 | with unique ids, toggling an item adds it to the saved view or removes it, and no other item changes its presence |
| Feed.Page.constructor | frontend/src/pages/Feed.tsx:62-63 | the given items, filter "todos" |
| Feed.Page.ToggleSave | frontend/src/pages/Feed.tsx:66-72 | the items become `SaveToggled`; the filter stays |
| Feed.Page.SetFilter | frontend/src/pages/Feed.tsx:63 | only the filter changes |
| Feed.FlipSaved | frontend/src/pages/Feed.tsx:66-72 | the `saved` flip; SaveToggled and SaveToggledTwice state its effect |
| Feed.Shown | frontend/src/pages/Feed.tsx:74-76 | the filter test; FilteredItemsCases states its three cases |
| Chat.AfterSend | frontend/src/pages/Chat.tsx:81-94 | a blank input changes nothing; otherwise one message from the user with the untrimmed text is appended after the existing ones, and the input empties |
| Chat.AfterSendKeepsTextsNotBlank | frontend/src/pages/Chat.tsx:82 | the user's messages never become blank |
| Chat.SentIffVisible | frontend/src/pages/Chat.tsx:82 | a message is added exactly when the input holds a character other than white space |
| Chat.Conversation.constructor | frontend/src/pages/Chat.tsx:78 | the given messages, empty input |
| Chat.Conversation.Type | frontend/src/pages/Chat.tsx:78 | only the input changes |
| Chat.Conversation.Send | frontend/src/pages/Chat.tsx:81-94 | messages and input become `AfterSend` of the old ones |
| Chat.StatusColorRoundTrip | frontend/src/pages/Chat.tsx:96-105 | every status has a class, and the class gives the status back, so distinct statuses get distinct classes |
| Chat.FilteredContacts | frontend/src/pages/Chat.tsx:107-109 | never more contacts than the list |
| Chat.FilteredContactsExactly | frontend/src/pages/Chat.tsx:107-109 | listed exactly when the lower-cased term occurs in the lower-cased name; an empty term lists all in order |
| Chat.NameMatches | frontend/src/pages/Chat.tsx:107-109 | the lower-cased `includes` test; FilteredContactsExactly proves it both ways |
| MsnChatWindow.Open | frontend/src/components/MSNChatWindow.tsx:23-37 | a new conversation with the two opening messages and an empty input; its input and `sendMessage` (lines 37-52) are `Chat.Conversation.Type` and `Chat.Conversation.Send`, the same trim rule and untrimmed append |

## Left out

- The network: HTTP clients, the language model's round trip (a `Reply` or an outcome function instead), and the RSS and search endpoints.
- The file system and streaming: the upload directory, temporary files, file and streaming responses. Whether a file is still on disk is a parameter of `Download`. The stream endpoint is not part of this model.
- Generated ids (`uuid4`, `Date.now()`), the clock (`time.time()`, `datetime.now()`, `toLocaleTimeString`), `Math.random` reply choice and delay: all are parameters.
- Floating point: `formatSize` and the MB figure of the simulated PDF text are not modelled.
- Concurrency and `await`: each handler, `dispatch` call or endpoint is one atomic step. `setTimeout` timers are an explicit map fired by `Fire`.
- Unicode: strings are sequences of code points, so JavaScript lengths in UTF-16 units are not modelled. Lower-casing covers ASCII and Latin-1 only.
- The regular-expression title detection and `Counter` topic ranking of the document tools: their results enter `ExtractSections` and `Topics` as parameters. `generate_intelligent_summary` and `simulate_question_answer` are not part of this model.
- The WHATWG URL parser: a parameter of `SanitizeUrl`. Zod's e-mail check: a boolean parameter of `RegisterOk`. The login schema and the HTML sanitiser are not part of this model.
- Starlette's handling of the rate limiters' `HTTPException` is not modelled: the refusal is a `TooManyRequests` response value carrying the 429 status, detail and headers the code builds. An exception raised inside a `BaseHTTPMiddleware.dispatch` does not pass through the application's exception handlers, so what the client finally receives depends on the framework version; Starlette is not part of this model.
- The upload extension, the file path and the `FileResponse`: the path is an opaque string.
- The simulated PDF text and its word count are not modelled.
- The feed's initial items are a constructor parameter. The dashboard's posts are not modelled, only the liked set.
- The `MediaRecorder` and `Audio` objects. `onloadedmetadata` is folded into `UploadFile` as a duration parameter. The recorder's asynchronous `onstop` is folded into `StopRecording`.
- AudioUploader.Uploader.StartRecording: requires `!isRecording`, because the button calls `startRecording` only then.
- AudioUploader.Uploader.UploadFile: the upload's answer is a parameter. The simulated progress bar's values between 0 and 100 are kept, but the 100 ms waits are not.
- AiDocuments: `extract_document_sections` is modelled with the chunk size as written (`Chunked`, `ChunkSections`, `ExtractSections`), so its chunker may give six sections; the rounded-up size exists only in `ChunkSize` and `ChunkSizeGivesAtMostFive`, the corrected half of the first finding.
- MsnChatWindow: the opening messages' text is not proved non-blank. The send rule that keeps user messages non-blank is proved once for both chats, in `Chat.AfterSendKeepsTextsNotBlank`.
- Chat.StatusColor: the classes are checked through `Chat.StatusColorRoundTrip` rather than a contract of their own.

## Findings

| source | as written | input that shows it | evidently intended | confidence | as-written member | corrected member |
|---|---|---|---|---|---|---|
| backend/app/api/ai.py:133-137 | `chunk_size = max(200, len(words) // 5)` rounds down, so the chunker can give a sixth chunk | 1001 words: size 200, six sections, the last holding one word | at most five sections, as the comment on line 133 says: round the fifth up | not executed | AiDocuments.AsWrittenSixSections | AiDocuments.ChunkSizeGivesAtMostFive |
| frontend/src/components/AudioUploader.tsx:49-63 | the `onstop` handler, created when recording starts, reads `recordingTime` from that render, where it is 0 | record for three seconds, then stop: the entry's duration is 0 | the duration of the recording, 3 | not executed | AudioUploader.ThreeSecondsAsWritten | AudioUploader.ThreeSeconds |
