# Warren deal platform — a Dafny model of its data layer and page logic

Warren is a single-page application for venture dealflow. An investor sees a
filtered pipeline of startup deals, a stage board and a shortlist toggle; a
founder searches an investor directory and keeps a data room of documents; both
roles share a messaging page. The data layer asks a hosted store for rows when a
client is configured and otherwise falls back to fixed fixture data.

This project models, one Dafny module per source file:

- `Types` (types.ts): the enumerations and record shapes. Optional properties
  are `Option`s: `Startup.matchScore`, `stats` and `logoUrl` and
  `Thread.lastMessage` may be missing, while `InvestorDirectoryItem.matchScore`
  and `Thread.unreadCount` must be present. `Document.type` and `status` are
  the datatypes `DocType` and `DocStatus`, so only their four and two literal
  values exist.
- `Constants` (constants.tsx): the navigation table and every fixture (mock
  profiles, startups, deals, documents, threads and the 30-entry investor
  directory), with lemmas about their consistency.
- `DataService` (services/dataService.ts and the client rule of
  supabaseClient.ts): each fetch as a choice between the store's answer and a
  fixture. The answer is a parameter (`Reply`: data and error, or a thrown
  exception).
- `UserContext`, `Layout`, `Dealflow`, `FindInvestors`, `Tracker`, `Messages`
  and `DealRoom`: the pages' derived views as functions and lemmas. In
  `UserContext`, `Layout`, `Dealflow`, `Messages` and `DealRoom` the state the
  component keeps is a class (`UserProvider`, `LayoutView`, `DealflowView`,
  `MessagesView`, `DealRoomView`) whose methods are the event handlers.
  `FindInvestors` (search term, selected type, investors, loading flag) and
  `Tracker` (the loaded deals) have no handler that does more than store a
  value, so their state is the input of the functions that derive the view.
- `Seqs`: `Array.prototype.filter`, the order-preserving-subsequence relation,
  code-unit string order, and `Array.from(new Set(xs)).sort()`.

Four behaviours of the code are worth stating plainly:

- The data layer has no `try`/`catch`. A configured client whose query throws
  makes the fetch reject rather than fall back to the fixtures.
- An empty array from the store is truthy, so it is returned as it is.
- `getDocuments` never filters the fallback by startup.
- While an upload runs, the data room's header button is disabled, but the
  empty list's "Upload First Document" button is not. So with no documents a
  second upload can start while the first runs. Each finished upload puts its
  document in front and clears the flag, so after the first finishes the page
  no longer shows an upload in progress although the second is still pending.

## Model

| member | source | states |
|---|---|---|
| Types.DealStageMembers | types.ts:13-19 | `DealStage` has exactly five members with five distinct string values |
| Types.StartupStageMembers | types.ts:6-11 | `StartupStage` has exactly four members with four distinct string values |
| Constants.MockDealsConsistent | constants.tsx:104-141 | four mock deals; each one's `startup_id` is its embedded startup's id, its investor is the mock investor, and none is passed |
| Constants.MockDocsBelongToFirstStartup | constants.tsx:143-147 | every mock document belongs to `s_1`, the first mock startup |
| Constants.MockThreadsConsistent | constants.tsx:149-166 | each mock thread's last message carries the thread's id; the thread has two participants and the first is the mock investor |
| Constants.MockInvestorDirectoryIdsDistinct | constants.tsx:168-499 | the directory has 30 entries with pairwise distinct ids |
| Constants.MockInvestorDirectoryScoresInRange | constants.tsx:168-499 | every directory match score lies in 0..100 |
| DataService.EnvOrEmpty | supabaseClient.ts:4-5 | a set variable reads as its own value; an unset one reads as `''` |
| DataService.CreateClient | supabaseClient.ts:9-11 | a client exists exactly when both URL and key are non-empty, and it is built from them |
| DataService.FetchOrFallback | services/dataService.ts:10-18 | the remote rows exactly when a client exists and the reply has data and no error; rejection exactly when a configured query throws; otherwise the fallback |
| DataService.GetDeals | services/dataService.ts:9-19 | remote deals under the remote condition; `MOCK_DEALS` without a client or on error or missing data; rejection when the query throws |
| DataService.GetStartups | services/dataService.ts:21-28 | the same rule with `MOCK_STARTUPS` as the fallback |
| DataService.GetDocuments | services/dataService.ts:30-37 | the same rule with `MOCK_DOCS` as the fallback |
| DataService.NoClientIgnoresReply | services/dataService.ts:10 | without a client, any two replies give the same result, the fallback |
| DataService.FallbackIsErrorPathInvariant | services/dataService.ts:15-18 | every non-remote, non-throwing path gives the same result |
| DataService.EmptyRemoteAnswerIsKept | services/dataService.ts:15 | an empty remote answer with no error is returned as `[]`, not replaced by the mock deals |
| DataService.DocumentsFallbackIgnoresStartup | services/dataService.ts:35-36 | on the fallback path the result is all of `MOCK_DOCS` whatever the startup id |
| DataService.ToggleShortlist | services/dataService.ts:39-45 | a write is sent exactly when a client exists; it targets that deal id and carries the negated flag |
| DataService.OrElse | services/dataService.ts:52-55 | `x \|\| fallback`: a missing or empty string takes the fallback, any other is kept |
| DataService.UploadDocument | services/dataService.ts:47-59 | the record has the given id and time, status Ready, and each field copied when given and non-empty, else `''`, `Untitled`, `PDF`, `1 MB` |
| DataService.UploadIgnoresDraftBookkeeping | services/dataService.ts:50-58 | the draft's own id, upload time and status never reach the stored record |
| DataService.GetThreads | services/dataService.ts:61-64 | two threads, `t_1` then `t_2` |
| DataService.ThreadsIgnoreClientAndUser | services/dataService.ts:61-64 | the result is `MOCK_THREADS` whatever the client and the user |
| UserContext.Switched | context/UserContext.tsx:20 | investor becomes founder and founder becomes investor; never the same role |
| UserContext.SwitchTwice | context/UserContext.tsx:19-21 | switching twice restores the role |
| UserContext.UserFor | context/UserContext.tsx:17 | the user is the mock investor exactly for the investor role and the mock founder exactly for the founder role, and has that role |
| UserContext.UseUser | context/UserContext.tsx:30-36 | fails with the provider error exactly when there is no provider value, else returns that value |
| UserContext.UserProvider.constructor | context/UserContext.tsx:14 | the initial role is investor |
| UserContext.UserProvider.Value | context/UserContext.tsx:24 | the context value carries the provider's role and the mock profile of that role |
| UserContext.UserProvider.SwitchRole | context/UserContext.tsx:19-21 | the new role is the switched old role |
| Layout.NavItems | components/Layout.tsx:16 | the role's entries followed by the common ones: 5 for an investor, 3 for a founder, Messages last |
| Layout.AtMostOneActive | components/Layout.tsx:46 | no two entries of a role's list are active for the same pathname |
| Layout.IsActive | components/Layout.tsx:46 | a link is highlighted exactly when the current path is its path |
| Layout.SwitchLabel | components/Layout.tsx:73 | the caption names the role the button switches to, never the current one |
| Layout.LayoutView.constructor | components/Layout.tsx:14 | the sidebar starts closed |
| Layout.LayoutView.ToggleMenu | components/Layout.tsx:85 | the menu button negates the open flag |
| Layout.LayoutView.CloseSidebar | components/Layout.tsx:51 | a navigation link or the overlay closes the sidebar |
| Dealflow.FilteredDeals | pages/investor/Dealflow.tsx:35-40 | a deal is shown exactly when it is loaded and meets all four conditions; the result is an order-preserving subsequence with one entry per shown deal, so repeated deals are all kept, and holds no passed deal |
| Dealflow.ClearedFiltersShowAllNotPassed | pages/investor/Dealflow.tsx:130 | with cleared filters and non-negative scores, exactly the non-passed deals are shown, in order |
| Dealflow.SectorValues | pages/investor/Dealflow.tsx:33 | position by position, the sector of each deal |
| Dealflow.Sectors | pages/investor/Dealflow.tsx:33 | the sector list is strictly sorted in code-unit order, has no duplicates, and holds exactly the loaded deals' sectors |
| Dealflow.SectorsIgnoreDealOrder | pages/investor/Dealflow.tsx:33 | any reordering of the deals gives the same sector list |
| Dealflow.ToggleShortlisted | pages/investor/Dealflow.tsx:28 | same length; deals with another id are unchanged; deals with the id have only their flag negated |
| Dealflow.ToggleTwice | pages/investor/Dealflow.tsx:28 | toggling the same id twice restores the list |
| Dealflow.ToggleKeepsIdsAndStages | pages/investor/Dealflow.tsx:28 | apart from the flag, every deal is unchanged |
| Dealflow.FindIndex | pages/investor/Dealflow.tsx:24 | none exactly when no deal has the id; otherwise the first position holding it |
| Dealflow.RemoteWriteMatchesLocalFlag | pages/investor/Dealflow.tsx:29 | the write the data layer sends carries the flag the optimistic update gave the deal |
| Dealflow.DealflowView.constructor | pages/investor/Dealflow.tsx:8-12 | no deals, loading, score 0, no sector, no stage |
| Dealflow.DealflowView.DealsLoaded | pages/investor/Dealflow.tsx:14-21 | a resolved fetch stores the deals and ends loading; a rejected one changes nothing; the filters are kept |
| Dealflow.DealflowView.SetFilterScore | pages/investor/Dealflow.tsx:100-104 | the score becomes the slider position, one of 0, 5, ..., 95; nothing else changes |
| Dealflow.DealflowView.SetSector | pages/investor/Dealflow.tsx:67 | the sector filter is replaced; nothing else changes |
| Dealflow.DealflowView.SetStage | pages/investor/Dealflow.tsx:83 | the stage filter is replaced; nothing else changes |
| Dealflow.DealflowView.ClearFilters | pages/investor/Dealflow.tsx:130 | score 0, no sector, no stage; the deals and the loading flag are kept; with no negative score every deal that is not passed is on screen, in order |
| Dealflow.DealflowView.ToggleShortlist | pages/investor/Dealflow.tsx:23-30 | an unknown id changes nothing and calls nothing; a known id flips the flag of the deals with that id and calls the data layer with the first one's old flag |
| Dealflow.MockDealsAtScore90 | pages/investor/Dealflow.tsx:35-40 | over the mock deals, a minimum score of 90 shows exactly `d_1` and `d_3`, in that order |
| Dealflow.MockDealsUnfiltered | pages/investor/Dealflow.tsx:35-40 | with no filter all four mock deals are shown |
| FindInvestors.LowerChar | pages/founder/FindInvestors.tsx:25-26 | ASCII capitals map to their small letters; every other code unit is kept; the result is never a capital |
| FindInvestors.Lower | pages/founder/FindInvestors.tsx:25-26 | same length; each code unit is lowered |
| FindInvestors.LowerIdempotent | pages/founder/FindInvestors.tsx:25-26 | lowering twice is lowering once |
| FindInvestors.Contains | pages/founder/FindInvestors.tsx:25-26 | `includes` holds exactly when the term occurs at some position of the text |
| FindInvestors.ContainsEmpty | pages/founder/FindInvestors.tsx:25-26 | every string includes the empty term |
| FindInvestors.FilteredInvestors | pages/founder/FindInvestors.tsx:24-29 | an investor is kept exactly when the lowered term occurs in the lowered name or thesis and the type filter is empty or equal; the result is an order-preserving subsequence with one entry per kept investor |
| FindInvestors.KeptIsListed | pages/founder/FindInvestors.tsx:24-29 | an investor that passes both the search and the type filter is listed |
| FindInvestors.EmptyFiltersKeepAll | pages/founder/FindInvestors.tsx:24-29 | an empty term and no type keep every investor, in order |
| FindInvestors.SearchIgnoresCase | pages/founder/FindInvestors.tsx:25-26 | two terms that lower alike give the same result |
| FindInvestors.SearchTermLowered | pages/founder/FindInvestors.tsx:25-26 | a term and its lowered form give the same result |
| FindInvestors.TypeFilterIsCaseSensitive | pages/founder/FindInvestors.tsx:27 | type `VC` is rejected by the filter `vc` and accepted by `VC` whenever the search matches |
| FindInvestors.AiMatchesSupplyChain | constants.tsx:208 | the term `AI` matches the directory entry whose thesis mentions "Supply Chain", which is therefore listed |
| FindInvestors.TypeValues | pages/founder/FindInvestors.tsx:31 | position by position, the type of each investor |
| FindInvestors.InvestorTypes | pages/founder/FindInvestors.tsx:31 | the type list is strictly sorted, has no duplicates, and holds exactly the loaded investors' types |
| FindInvestors.InvestorTypesIgnoreOrder | pages/founder/FindInvestors.tsx:31 | any reordering of the investors gives the same type list |
| FindInvestors.StageChips | pages/founder/FindInvestors.tsx:109-114 | at most three leading stages are shown, and the overflow count makes up the rest |
| Tracker.ColumnsAreThePipelineStages | pages/investor/Tracker.tsx:8-13 | four columns Sourced, Reviewing, Due Diligence, Closed, each labelled with its stage's name and with distinct stages; a stage has a column exactly when it is not Passed |
| Tracker.ColumnDeals | pages/investor/Tracker.tsx:26 | a column holds exactly the loaded deals at its stage, as an order-preserving subsequence |
| Tracker.BadgeCountsStage | pages/investor/Tracker.tsx:35 | the badge equals the number of deals at the column's stage |
| Tracker.StageCountsAddUp | pages/investor/Tracker.tsx:8-13 | the four stage counts add up to the number of deals that are not passed |
| Tracker.BadgesAddUp | pages/investor/Tracker.tsx:25-35 | the four badges add up to the number of deals that are not passed |
| Tracker.EachDealInOneColumn | pages/investor/Tracker.tsx:25-26 | a deal is in a column exactly when it is at that column's stage, and in some column exactly when it is not passed |
| Tracker.BoardDeals | pages/investor/Tracker.tsx:16-20 | the board shows a resolved fetch's deals and stays empty otherwise |
| Messages.TrimStart | pages/Messages.tsx:33 | a suffix of the text; what was removed is white space; what is left starts with a non-space |
| Messages.TrimEnd | pages/Messages.tsx:33 | a prefix of the text; what was removed is white space; what is left ends with a non-space |
| Messages.Trim | pages/Messages.tsx:33 | a slice of the text with only white space outside it, which neither starts nor ends with white space |
| Messages.BlankIffAllWhitespace | pages/Messages.tsx:33 | the text trims to nothing exactly when all of it is white space |
| Messages.FirstOther | pages/Messages.tsx:63 | none exactly when every participant is the user; otherwise the first position whose participant is not the user |
| Messages.OtherParticipant | pages/Messages.tsx:63 | none exactly when there are no participants; the first participant who is not the user, or the first participant when all are the user |
| Messages.HeaderName | pages/Messages.tsx:102 | none exactly when every participant is the user; otherwise the name of a participant who is not the user |
| Messages.HeaderAgreesWithInbox | pages/Messages.tsx:102 | when someone other than the user takes part, the header names the inbox entry's participant |
| Messages.MockThreadOtherParticipant | pages/Messages.tsx:63 | in the first mock thread the investor sees the founder-side participant and the mock founder sees the investor |
| Messages.IsMine | pages/Messages.tsx:109 | a message is drawn on the user's side exactly when the user sent it |
| Messages.MineIffNotFromOther | pages/Messages.tsx:109 | in a two-person thread, a message is the viewer's exactly when it does not come from the participant the inbox shows |
| Messages.Preview | pages/Messages.tsx:79 | the last message's text when there is a non-empty one, else `No messages yet` |
| Messages.MessagesView.constructor | pages/Messages.tsx:11-15 | no threads, no selection, empty input, no messages, loading |
| Messages.MessagesView.ThreadsLoaded | pages/Messages.tsx:17-23 | threads stored, the first one selected when there is one, the selection kept otherwise, loading ends |
| Messages.MessagesView.SelectThread | pages/Messages.tsx:67 | the clicked thread becomes the selection; nothing else changes |
| Messages.MessagesView.SetInput | pages/Messages.tsx:141 | the input becomes the typed text; nothing else changes |
| Messages.MessagesView.SmartReply | pages/Messages.tsx:45-47 | the input becomes the fixed suggestion; messages, threads and selection are unchanged |
| Messages.MessagesView.Send | pages/Messages.tsx:32-43 | blank input or no selection changes nothing; otherwise exactly one message is appended with the selected thread's id, the user's id and the untrimmed input, it is the user's own, and the input is cleared |
| DealRoom.CurrentStartupId | pages/founder/DealRoom.tsx:16 | always the first mock startup's id, `s_1` |
| DealRoom.UploadRequest | pages/founder/DealRoom.tsx:25-30 | the request names the current startup, `New Due Diligence Item`, PDF and `3.2 MB`, and nothing else |
| DealRoom.UploadedDocumentKeepsRequest | pages/founder/DealRoom.tsx:25-31 | the data layer's record for that request keeps all four fields and is Ready |
| DealRoom.DealRoomView.constructor | pages/founder/DealRoom.tsx:11-13 | documents tab, no documents, not uploading |
| DealRoom.DealRoomView.DocumentsLoaded | pages/founder/DealRoom.tsx:18-20 | a resolved fetch replaces the documents; a rejected one keeps them |
| DealRoom.DealRoomView.SetTab | pages/founder/DealRoom.tsx:45 | the tab changes; documents and flag are kept |
| DealRoom.DealRoomView.UploadButtonEnabled | pages/founder/DealRoom.tsx:66-67 | the header upload button is shown on the documents tab and enabled exactly when no upload runs |
| DealRoom.DealRoomView.CanStartUpload | pages/founder/DealRoom.tsx:66-100 | an upload can start from the documents tab through the header button when none runs, or through the empty list's button |
| DealRoom.DealRoomView.BeginUpload | pages/founder/DealRoom.tsx:22-30 | the page is uploading, the header button is disabled, and the fixed request is sent |
| DealRoom.DealRoomView.FinishUpload | pages/founder/DealRoom.tsx:31-36 | success puts the new document in front of the unchanged list; failure keeps the list; the flag is always cleared |
| DealRoom.DealRoomView.OverlappingUploads | pages/founder/DealRoom.tsx:22-37 | with no documents, two uploads started one after the other both finish at the front of the list, newest first; the first to finish already clears the flag |
| DealRoom.DealRoomView.SimulateUpload | pages/founder/DealRoom.tsx:22-37 | a whole upload puts the Ready document with the requested fields in front and clears the flag |

## Left out

- Asynchrony: `await`, the simulated delays and the order in which effects
  complete. Each call returns its value at once. The upload is split into
  `BeginUpload` and `FinishUpload`, which may interleave.
- The remote store's query semantics (the join, the `eq` filter, the update).
  What a query answers is an input. `toggleShortlist` never inspects the store's
  answer to its update, so a thrown update is not modelled.
- Clock and randomness: `Date.now()`, `new Date().toISOString()`,
  `Math.random()` ids and the fixtures' timestamps are parameters (`LoadClock`,
  `stampId`, `createdAt`, `randomId`, `now`).
- `getMessages` and `getInvestorDirectory` are called by the pages but not
  defined in services/dataService.ts. The message list only changes by sending.
  The investor search works over any list of investors.
- FindInvestors.Lower: folds only the ASCII letters `A`..`Z`. JavaScript's
  `toLowerCase` folds all of Unicode.
- Seqs.Below: the order is code-unit order on Dafny characters, which matches
  JavaScript's default sort for text without surrogate pairs.
- Dealflow.FilteredDeals: scores are integers; fractional and `NaN` scores are
  not modelled.
- Types.Profile: the mock profiles' `email` property is not part of the
  `Profile` interface and is dropped.
- Constants.MockInvestorDirectory: the first entry's name is kept as the
  code units of its literal in the file, which looks like doubly encoded
  UTF-8. The model keeps them as written.
- A negative search example needs the search to fail on long literal theses.
  Unrolling the whole text is too costly for the verifier, so only the positive
  "AI" example is proved.
- Presentation: icons, class names, currency formatting, the modal, the
  DealRoom checklist and progress bar, the charts and the directory table. The
  Tracker's cards can be grabbed but have no drop handling, so stage changes
  are not modelled.
- Messages.MessagesView: the user id is fixed when the page is created. In the
  application the role switch in the layout stays reachable while the page is
  open; switching reloads the threads, flips which messages are drawn as the
  user's own and changes the sender id of later messages. The model treats
  such a switch as leaving the page and opening it again.
