# Excel VBA assistant front-end, modelled in Dafny

The application is a React front-end. A signed-in user opens a project,
describes an Excel task in a chat, and gets back a VBA macro. The macro
can be copied or downloaded as a `.bas` file. Each user stores a Gemini API
key in their profile, and generation runs with that key.

This project models the logic behind that flow:

- `ProjectContext`: the project store. Its operations are written as
  functions over a captured `ProjectState` snapshot. A `ProjectStore` class
  writes their results into the live state, and the last write wins.
- `AuthContext`: the session store. It holds the user, the loading flag, the
  60-second sign-up cooldown and the copy of the user kept in browser
  storage. Every backend answer is a parameter.
- `Gemini`: the generation client. It maps the chat history to chat turns
  and coerces the reply into `{ vbaCode, response }`, first by JSON and
  otherwise by a fenced ```` ```vba ```` block.
- `VbaGenerator`: the offline keyword generator. It returns canned templates.
- `ChatContainer`, `ChatInput`, `VbaCodeEditor`, `NewProjectModal`,
  `LoginModal`, `ApiKeyModal`: the components' state and handlers. Each is a
  class whose fields are the component's state.
- `Types` and `Text` are support modules. `Types` holds the records, the
  JavaScript truthiness of optional strings, and thrown values. `Text` holds
  the JavaScript string primitives the code relies on: `trim`, `\s`,
  `includes`, `toLowerCase`, and the left-to-right search a regular
  expression with a literal prefix performs.

The model follows the code as written, including the four defects listed
under "## Findings". Where the code reads a value captured at render time,
the model passes that value explicitly (`snap`, `user`). The corrected
behaviour sits beside the as-written one, and lemmas state the difference.

## Model

| member | source | states |
|---|---|---|
| Text.Trim | src/components/Chat/ChatInput.tsx:15 | `trim()` is empty exactly when the text is blank; otherwise it neither starts nor ends with whitespace |
| Text.TrimIsInfix | src/components/Auth/ApiKeyModal.tsx:30 | the trimmed text is the part of the input between a blank prefix and a blank suffix, which with `Trim`'s contract fixes its value |
| Text.FindFrom | src/services/gemini.ts:42 | the search returns the first occurrence at or after the start index, and `None` only when there is no occurrence |
| Text.ContainsIffFound | src/services/vbaGenerator.ts:144-149 | `includes` holds exactly when the search from index 0 finds something |
| Text.ContainsToLower | src/services/vbaGenerator.ts:142 | an occurrence survives lower-casing of both texts |
| ProjectContext.ReplaceById | src/context/ProjectContext.tsx:48-52 | the mapped list keeps its length; entries with the updated id become the update, all others are kept |
| ProjectContext.FindIndex | src/context/ProjectContext.tsx:72 | the index of the first project with the id, and `None` exactly when no project has it |
| ProjectContext.CreateOn | src/context/ProjectContext.tsx:22-36 | with no user, nothing changes; otherwise one project with the given fields, no messages, no code and the user's id is appended and becomes current |
| ProjectContext.AddMessageOn | src/context/ProjectContext.tsx:38-56 | with no current project, nothing changes; otherwise the current project gains exactly one message at the end, its other fields are kept except `updatedAt`, and the list is updated by id |
| ProjectContext.UpdateVbaCodeOn | src/context/ProjectContext.tsx:58-69 | with no current project, nothing changes; otherwise only the code and `updatedAt` of the current project change, and the list is updated by id |
| ProjectContext.SelectOn | src/context/ProjectContext.tsx:71-76 | the list is untouched; an unknown id keeps the current project; a known id selects the first project with it |
| ProjectContext.AppendAllKeepsCallOrder | src/context/ProjectContext.tsx:38-56 | `addMessage` calls that each see the latest state append their messages in call order |
| ProjectContext.ProjectStore.constructor | src/context/ProjectContext.tsx:18-19 | the store starts with no projects and no current project |
| ProjectContext.ProjectStore.CreateNewProject | src/context/ProjectContext.tsx:22-36 | the live state becomes `CreateOn` of the captured snapshot, or is unchanged without a user |
| ProjectContext.ProjectStore.AddMessage | src/context/ProjectContext.tsx:38-56 | the live state becomes `AddMessageOn` of the captured snapshot, or is unchanged without a current project |
| ProjectContext.ProjectStore.UpdateVbaCode | src/context/ProjectContext.tsx:58-69 | the live state becomes `UpdateVbaCodeOn` of the captured snapshot, or is unchanged without a current project |
| ProjectContext.ProjectStore.SelectProject | src/context/ProjectContext.tsx:71-76 | only the current project changes, and only when the id is found in the snapshot's list |
| AuthContext.CooldownMessageDuringCooldown | src/context/AuthContext.tsx:117-119 | while the cooldown runs, the wait message is "Please wait 60 seconds before trying again" |
| AuthContext.BuildUserData | src/context/AuthContext.tsx:25-49 | a lookup that threw gives no user; otherwise id, email and token are copied, and a missing or empty stored key becomes the absent key (never `""`) |
| AuthContext.WithKey | src/context/AuthContext.tsx:179-184 | only the key of the user changes |
| AuthContext.SessionStore.constructor | src/context/AuthContext.tsx:20-23 | the store starts with no user, loading, no cooldown (invariant `Valid`), and the storage copy left by an earlier visit |
| AuthContext.SessionStore.SetUserData | src/context/AuthContext.tsx:25-49 | the user becomes `BuildUserData` and storage mirrors it |
| AuthContext.SessionStore.InitAuth | src/context/AuthContext.tsx:51-64 | a session user is loaded; otherwise user and storage are untouched; loading ends in every case |
| AuthContext.SessionStore.OnAuthStateChange | src/context/AuthContext.tsx:67-74 | an event with a user reloads that user; one without a user clears the user and storage; storage mirrors the user afterwards |
| AuthContext.SessionStore.OnVisibilityChange | src/context/AuthContext.tsx:76-83 | the user is reloaded only when the page is visible and the backend reports a user; otherwise nothing changes |
| AuthContext.SessionStore.SignIn | src/context/AuthContext.tsx:93-114 | a backend error or a throw is returned as an error with the user untouched; success reports no error and loads the returned user |
| AuthContext.SessionStore.SignUp | src/context/AuthContext.tsx:116-147 | the cooldown invariant is kept; during the cooldown the call rejects with the wait message and changes nothing; a `rate_limit` error starts the cooldown and any other error leaves it; success loads the user |
| AuthContext.SessionStore.SignUpCooldownElapsed | src/context/AuthContext.tsx:131-134 | the expiry ends the cooldown and restores the invariant |
| AuthContext.SessionStore.SignOut | src/context/AuthContext.tsx:149-161 | user and storage are cleared only after the backend succeeds; an error is rethrown with both untouched |
| AuthContext.SessionStore.UpdateGeminiApiKey | src/context/AuthContext.tsx:163-193 | without a user it reports "User not authenticated"; success changes only the key and mirrors it to storage; failure reports the message or the fallback and changes nothing |
| Gemini.HistoryToTurns | src/services/gemini.ts:11-14 | one turn per message, in order; a user message becomes a `user` turn and every other message a `model` turn; the content is unchanged |
| Gemini.HistoryToTurnsAppend | src/services/gemini.ts:11-14 | the turns of a concatenated history are the concatenated turns |
| Gemini.VbaBlockBounds | src/services/gemini.ts:42 | the bounds are those of the first ```` ```vba ```` and the first fence after it, and there are none exactly when no opening is followed by a fence |
| Gemini.FallbackCode | src/services/gemini.ts:42 | the captured block when there is a non-empty one, else the whole reply |
| Gemini.Coerce | src/services/gemini.ts:33-45 | a parsed non-null value gives its `vbaCode` and `explanation`; anything else gives the fallback code and the fixed explanation |
| Gemini.GenerateVbaCode | src/services/gemini.ts:32-49 | an SDK error is rethrown unchanged; a reply is coerced |
| Gemini.FencedBlockIsExtracted | src/services/gemini.ts:39-45 | a fenced block with no backtick before it or inside it is extracted exactly |
| VbaGenerator.GenerateVbaCode | src/services/vbaGenerator.ts:132-159 | the reply is the canned object of the template the lower-cased request selects, and it carries a `vbaCode` exactly when the Hello World default is chosen |
| VbaGenerator.SortKeywordWins | src/services/vbaGenerator.ts:144-145 | "sort" or "order" selects the sort template, whatever other keywords occur |
| VbaGenerator.AverageKeywordNext | src/services/vbaGenerator.ts:146-147 | without a sort keyword, "average", "mean" or "calculate" selects the average template |
| VbaGenerator.UserFormKeywordLast | src/services/vbaGenerator.ts:148-149 | without earlier keywords, "form", "input" or "customer" selects the user-form template |
| VbaGenerator.DefaultExactlyWithoutKeywords | src/services/vbaGenerator.ts:150-157 | the Hello World default is returned exactly when no keyword occurs, and only it carries its macro under `vbaCode` |
| VbaGenerator.MatchingIgnoresCase | src/services/vbaGenerator.ts:142 | lower-casing the request first changes nothing |
| VbaGenerator.SortKeywordInAnyCase | src/services/vbaGenerator.ts:142-145 | a sort keyword in any letter case selects the sort template |
| VbaGenerator.PreviousMessagesIgnored | src/services/vbaGenerator.ts:132-159 | the previous messages never affect the result |
| VbaCodeEditor.CollapseLeavesNoWs | src/components/CodePreview/VbaCodeEditor.tsx:23 | the `replace(/\s+/g, '_')` result holds no whitespace |
| VbaCodeEditor.CollapseKeepsText | src/components/CodePreview/VbaCodeEditor.tsx:23 | a title without whitespace is kept as it is |
| VbaCodeEditor.CollapseAppend | src/components/CodePreview/VbaCodeEditor.tsx:23 | the replacement distributes over a split that does not fall after whitespace |
| VbaCodeEditor.CollapseBlankPrefix | src/components/CodePreview/VbaCodeEditor.tsx:23 | a leading whitespace run becomes one underscore |
| VbaCodeEditor.CollapseRun | src/components/CodePreview/VbaCodeEditor.tsx:23 | every maximal whitespace run between two pieces becomes exactly one underscore |
| VbaCodeEditor.DownloadName | src/components/CodePreview/VbaCodeEditor.tsx:23 | the file name is the title with each whitespace run replaced by one underscore, followed by `_vba_code.bas`; it holds no whitespace |
| VbaCodeEditor.Editor.constructor | src/components/CodePreview/VbaCodeEditor.tsx:7 | nothing copied, no pending timer, no writes, no downloads |
| VbaCodeEditor.Editor.CopyToClipboard | src/components/CodePreview/VbaCodeEditor.tsx:9-15 | without code nothing changes; otherwise the code is written to the clipboard, `copied` turns on and a reset timer is pending |
| VbaCodeEditor.Editor.CopiedResetFires | src/components/CodePreview/VbaCodeEditor.tsx:13 | a firing timer turns `copied` off and one fewer timer is pending |
| VbaCodeEditor.Editor.DownloadAsVba | src/components/CodePreview/VbaCodeEditor.tsx:17-29 | without code nothing is downloaded; otherwise one download of the code under `DownloadName(title)` |
| ChatInput.SendButtonDisabled | src/components/Chat/ChatInput.tsx:51 | the button is disabled exactly when a submit would be refused |
| ChatInput.TextareaDisabled | src/components/Chat/ChatInput.tsx:41 | a disabled box refuses every message; an enabled one accepts exactly the non-blank ones |
| ChatInput.Input.constructor | src/components/Chat/ChatInput.tsx:11 | the box starts empty with nothing sent |
| ChatInput.Input.Change | src/components/Chat/ChatInput.tsx:34 | the message becomes the typed value |
| ChatInput.Input.HandleSubmit | src/components/Chat/ChatInput.tsx:13-19 | an accepted message is sent untrimmed and the box is cleared; otherwise nothing changes |
| ChatInput.Input.KeyDown | src/components/Chat/ChatInput.tsx:35-40 | Enter without Shift submits as `HandleSubmit`; any other key changes nothing |
| ChatContainer.GateEffect | src/components/Chat/ChatContainer.tsx:17-30 | no user sends the browser home; a user without a key gets the key dialog; a user with a key is left alone |
| ChatContainer.InputDisabled | src/components/Chat/ChatContainer.tsx:107 | the input is disabled exactly when the gate asks for a key, and enabled exactly when a send passes the key guard |
| ChatContainer.HistoryOf | src/components/Chat/ChatContainer.tsx:52 | the history is the current project's messages, or empty |
| ChatContainer.SendAsWritten | src/components/Chat/ChatContainer.tsx:40-66 | as written: after a reply the transcript is the snapshot's and only the code changes; after a failure only the apology is added |
| ChatContainer.SendAsWrittenLosesExchange | src/components/Chat/ChatContainer.tsx:45-56 | a concrete send whose prompt and reply both vanish from the transcript |
| ChatContainer.SendThreaded | src/components/Chat/ChatContainer.tsx:40-66 | intended: the transcript grows by the user's message and then the reply or apology, and a reply's code is stored |
| ChatContainer.SendThreadedKeepsListInStep | src/context/ProjectContext.tsx:48-55 | the intended send keeps the list in step with the current project and leaves other entries alone |
| ChatContainer.SettleSteps | src/components/Chat/ChatContainer.tsx:55-62 | after the await: the reply then its code, or the apology alone, and never a second request |
| ChatContainer.Container.constructor | src/components/Chat/ChatContainer.tsx:13 | not loading, no steps issued |
| ChatContainer.Container.BeginSend | src/components/Chat/ChatContainer.tsx:40-53 | it starts exactly when the user has a key; then it writes the user's message from the snapshot, turns loading on and requests generation with the snapshot's history |
| ChatContainer.Container.SettleSend | src/components/Chat/ChatContainer.tsx:55-65 | the reply and code (or the apology) are written from the snapshot, and loading goes off |
| ChatContainer.Container.HandleSendMessage | src/components/Chat/ChatContainer.tsx:40-66 | without a key nothing happens; with one the steps are message, request, settle steps, and the live state ends as `SendAsWritten` |
| LoginModal.Modal.constructor | src/components/Auth/LoginModal.tsx:11-14 | sign-in mode, no error, no close requested |
| LoginModal.Modal.ToggleMode | src/components/Auth/LoginModal.tsx:85 | the mode flips |
| LoginModal.Modal.HandleSubmit | src/components/Auth/LoginModal.tsx:17-31 | as written: sign-in always closes and shows no error, and the user and storage copy change only on a sign-in with a user; a rejected sign-up shows its message or the fallback and stays open, a resolved one closes; in sign-up mode the store's effects are `SignUp`'s (cooldown kept during the cooldown, started by a `rate_limit` error, user loaded on success, storage mirrored or untouched) |
| LoginModal.Modal.HandleSignInCheckingResult | src/components/Auth/LoginModal.tsx:17-31 | intended: a returned error is shown and the dialog stays open; it closes only on success; the user and the storage copy change only on a sign-in with a user |
| LoginModal.FailedSignInAsWritten | src/components/Auth/LoginModal.tsx:25-27 | wrong credentials: the dialog closes with no error and nobody signed in |
| LoginModal.FailedSignInCorrected | src/components/Auth/LoginModal.tsx:25-27 | wrong credentials: the dialog stays open and shows the backend's error |
| ApiKeyModal.Modal.constructor | src/components/Auth/ApiKeyModal.tsx:12-15 | empty key, no error, not loading, no success, no timers |
| ApiKeyModal.Modal.Prefill | src/components/Auth/ApiKeyModal.tsx:17-21 | opening with a stored key prefills it; otherwise the field is kept |
| ApiKeyModal.Modal.ChangeKey | src/components/Auth/ApiKeyModal.tsx:80 | the field becomes the typed value |
| ApiKeyModal.Modal.HandleSubmit | src/components/Auth/ApiKeyModal.tsx:23-41 | as written: success is shown and a close timer is started whatever the update reported; the user's key becomes the trimmed input only when the update succeeded, and otherwise user and storage copy are untouched |
| ApiKeyModal.Modal.HandleSubmitCheckingResult | src/components/Auth/ApiKeyModal.tsx:23-41 | intended: a reported error (no user, or a failed update) is shown with no success and no timer, and user and storage copy are untouched; a save that went through shows success, starts the timer and stores the trimmed key |
| ApiKeyModal.Modal.CloseTimerFires | src/components/Auth/ApiKeyModal.tsx:32-35 | one close request, one fewer pending timer, success cleared |
| ApiKeyModal.SuccessfulSaveOnlyCloses | src/components/Auth/ApiKeyModal.tsx:5-8 | a successful save ends in one close request and nothing else; the dialog has no success callback |
| ApiKeyModal.FailedSaveAsWritten | src/components/Auth/ApiKeyModal.tsx:30-31 | a failed save shows success and no error, and no key is saved |
| ApiKeyModal.FailedSaveCorrected | src/components/Auth/ApiKeyModal.tsx:30-31 | a failed save shows the error and no success |
| NewProjectModal.CreateDisabledIsEmptyTrim | src/components/NewProjectModal.tsx:144 | the Create button is disabled exactly when the trimmed title is empty |
| NewProjectModal.Modal.constructor | src/components/NewProjectModal.tsx:15-18 | empty form, no nested dialog, no navigation |
| NewProjectModal.Modal.Shown | src/components/NewProjectModal.tsx:70-88 | the login dialog wins over the key dialog, which wins over the form; nothing shows when closed |
| NewProjectModal.Modal.GateOnOpen | src/components/NewProjectModal.tsx:23-31 | opening without a user asks for login; with a user but no key asks for a key |
| NewProjectModal.Modal.SetTitle | src/components/NewProjectModal.tsx:114 | the title becomes the typed value |
| NewProjectModal.Modal.SetDescription | src/components/NewProjectModal.tsx:127 | the description becomes the typed value |
| NewProjectModal.Modal.HandleSubmit | src/components/NewProjectModal.tsx:33-53 | no user asks for login and no key asks for a key, with the store unchanged; a blank title does nothing; otherwise one project is created from the snapshot, the form resets, the modal closes and the chat opens |
| NewProjectModal.Modal.HandleLoginSuccess | src/components/NewProjectModal.tsx:55-60 | the login dialog closes; a user without a key gets the key dialog |
| NewProjectModal.Modal.HandleApiKeySuccess | src/components/NewProjectModal.tsx:62-68 | the key dialog closes; with a blank title nothing else changes; with a non-blank title the submit runs again: a user with a key gets the project created, the form reset, the modal closed and the chat opened; without a user the sign-in dialog is requested, and a user without a key gets the key dialog back, with the store and form untouched |
| NewProjectModal.Modal.Cancel | src/components/NewProjectModal.tsx:99-136 | the close and Cancel buttons only close the dialog; the typed title and description are kept |
| NewProjectModal.Modal.Reopen | src/components/NewProjectModal.tsx:9-14 | the parent's `isOpen` becomes true again, with the component's state kept |
| NewProjectModal.Modal.LoginDialogClosed | src/components/NewProjectModal.tsx:73-76 | the login dialog and the modal close |
| NewProjectModal.Modal.ApiKeyDialogClosed | src/components/NewProjectModal.tsx:82-85 | the key dialog and the modal close |
| NewProjectModal.TitleLeftFromEarlierOpening | src/components/NewProjectModal.tsx:23-31 | a title typed while the user had a key and then cancelled is still held when the dialog reopens for a user without a key; the key dialog is on screen and no project exists |
| NewProjectModal.KeySaveAsWritten | src/components/NewProjectModal.tsx:79-88 | as written: from that state, saving the key creates no project, opens no chat and closes the dialog |
| NewProjectModal.KeySaveResumesCreation | src/components/NewProjectModal.tsx:62-68 | intended: from the same state, forwarding the save to `handleApiKeySuccess` creates exactly one project with the held title and opens the chat |

## Left out

- The hosted auth and database backend, the Gemini SDK, `JSON.parse`, `uuidv4()` and `new Date()` are parameters: outcome datatypes, ids and times.
- The prompt text and `generationConfig` given to the SDK are not modelled; `GenerateCall` records the key, the user's text and the history only.
- Timers are explicit expiry methods (`CopiedResetFires`, `CloseTimerFires`, `SignUpCooldownElapsed`). The 2000 ms delay of the offline generator is not modelled.
- Rendering, CSS and `if (!isOpen) return null` are not modelled. Navigation is counted, and the navigation bar's DOM click that opens the key dialog is modelled as "key dialog requested".
- The `supabase.auth.change` window event that `signIn` dispatches is not modelled, since no listener in this core reacts to it.
- The email and password fields of the login dialog are not modelled; the backend's answer to them is the outcome parameter.
- Case mapping covers ASCII letters only. Every keyword is ASCII, and no non-ASCII letter lower-cases to an ASCII one except U+0130 and U+212A (`İ`, `K`), so only requests containing those could match differently.
- JSON property values that are not strings are treated as absent.
- `console` logging is not modelled.
- src/lib/supabase.ts is not part of this model, nor are the excel-operations function, excelOperations.ts, sessionSync.ts, date formatting or the view-only components.
- Only the chat send is split at its `await` (`BeginSend`, `SettleSend`). Every other asynchronous handler is modelled as one atomic step, so no interleaving of other events at its `await`s is represented. The handlers concerned are listed below.
- AuthContext.SessionStore.SetUserData, InitAuth, OnAuthStateChange, OnVisibilityChange, SignIn, SignUp, SignOut, UpdateGeminiApiKey: each is one atomic step from the state before the call to the state after it.
- LoginModal.Modal.HandleSubmit: one atomic step; a second submit or a session event while the backend call is pending is not represented.
- ApiKeyModal.Modal.HandleSubmit: one atomic step; the in-flight state (`isLoading` true and the button disabled while the update is pending) is not represented, only `!isLoading` afterwards. The same holds for `HandleSubmitCheckingResult`.
- ProjectContext.CreateOn: uses one time `now` for `createdAt` and `updatedAt`, where the source calls `new Date()` once for each.
- ProjectContext.AddMessageOn: uses one time `now` for the message's `timestamp` and the project's `updatedAt`, where the source calls `new Date()` once for each.
- AuthContext.SessionStore.UpdateGeminiApiKey: the `updated_at` value written to the profile row is not modelled.
- AuthContext.SessionStore.SignUp: reads the live cooldown fields, whereas the source reads the values captured by the render; the two differ only if a second sign-up starts before a re-render.
- AuthContext.SessionStore.UpdateGeminiApiKey: reads the live user, whereas the source reads the user captured by the render.
- VbaGenerator.DefaultExactlyWithoutKeywords: the three templates carry their macro under `code`, so a caller reading `vbaCode` gets nothing for them. The model records this rather than correcting it, because the offline generator is not called from this core.
- ChatContainer.SendAsWritten: does not state the ids and timestamps of the written-over messages, since they do not survive.
- NewProjectModal.Modal.HandleLoginSuccess: the login dialog takes no success callback (src/components/Auth/LoginModal.tsx:5-8), so nothing calls this handler; the model states what it would do.
- ChatContainer.Container.SettleSend: no check that the current project is still the one that sent; the reply is written from the sending render's snapshot, as the code does.

## Findings

| source | as written | input that shows it | evidently intended | confidence | as-written member | corrected member |
|---|---|---|---|---|---|---|
| src/components/Chat/ChatContainer.tsx:45-56 | `addMessage` and `updateVbaCode` each rebuild the project from the render's snapshot, so the last write wins | a send in a project with no messages and a successful reply | the transcript holds the user's message and the reply, and the code is stored | high, not executed | ChatContainer.SendAsWritten | ChatContainer.SendThreaded |
| src/components/NewProjectModal.tsx:79-88 | the key dialog has no success callback and only closes itself, so `handleApiKeySuccess` never runs | a user with a key types a title and cancels; the key is removed; the dialog is reopened, shows the key dialog, and a key is saved | the project is created and the chat opens | high, not executed | NewProjectModal.KeySaveAsWritten | NewProjectModal.KeySaveResumesCreation |
| src/components/Auth/LoginModal.tsx:25-27 | the `{ error }` that `signIn` returns is ignored and the dialog closes | a sign-in whose backend answer is "Invalid login credentials" | the error is shown and the dialog stays open | high, not executed | LoginModal.FailedSignInAsWritten | LoginModal.FailedSignInCorrected |
| src/components/Auth/ApiKeyModal.tsx:30-31 | the `{ error }` that `updateGeminiApiKey` returns is ignored and success is shown | a save whose profile update fails with "permission denied" | the error is shown and success is not | high, not executed | ApiKeyModal.FailedSaveAsWritten | ApiKeyModal.FailedSaveCorrected |
