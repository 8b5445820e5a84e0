# Lesson Notes AI: the store, the identity service and the session state machine

Lesson Notes AI records a lesson in the browser, has an AI service turn the
audio into notes (a title, a summary, key topics and a transcription), and
lets a signed-in user keep those notes in a per-browser history. This
project models the logic behind the user interface:

- `Types` holds the records of `types.ts`: users, notes, the `Status`
  enum and the tagged `AppState`. It also has the `Option` and `Result`
  wrappers and JavaScript truthiness of optional numbers and strings.
- `Store` gives the meaning of `services/dbService.ts` as functions on a
  value `DbState`. It holds the notes and users object stores as maps keyed
  by their primary key, and the key generator of each. Each function returns
  the new state and the value the call resolves with, or the error it rejects
  with. `Schema` and `UpgradeSchema` model the index ladder of the upgrade
  handler.
- `Db.Database` is the same service as a class whose fields are updated in
  place. The fields are the handle flag, the recorded version and schema,
  both object stores and their key generators. Every method is proved against
  the matching `Store` function. `GetAllNotes` builds the listing with a
  loop; loop invariants prove that the result is the listing `IsListing`
  defines.
- `Auth` models `services/authService.ts`:
  - find-or-create sign-in by Google subject (`SignIn`, `HandleGoogleSignIn`);
  - the read-modify-write plan upgrade (`UpgradePlan`, `UpdateUserPlan`);
  - the one session-storage slot (`SessionSlot` with `Set`, `Get` and `Clear`).
- `AppModel` models the `App` component of `App.tsx`:
  - All its state hooks and refs are one `AppView` record. Each handler is a
    pure transition function with lemmas stating its properties.
  - `AppModel.App` is a class whose handler methods update that record. Each
    method is proved to produce exactly its transition.
  - `Linked` and `HistoryListed` are the class invariant every handler
    keeps. `Linked` says the session slot holds the current user and the
    history holds only that user's time-stamped notes, newest first.
    `HistoryListed` says that, once the store is open, the history is
    exactly that user's listing on the store as it now is.
  - A start while an interval is still live overwrites `timerRef`, so the
    old interval can no longer be cleared. `AppView.strayIntervals` counts
    such intervals, and every live interval advances the clock.
  - Dialog answers, microphone permission, the clock and the generated notes
    are parameters.
- `Recorder` models `formatTime` and the flags of
  `components/RecorderControl.tsx`.
- `Notes` models, from `components/NotesDisplay.tsx`:
  - JavaScript `trim`;
  - the title-commit rule of the title editor;
  - `safeTitle` and the two download file names;
  - the PDF gate and the toolbar flags.

The model follows the code in these easily misread points:

- The code tests `note.id` for truthiness, not presence. A note whose id is 0
  is added under the explicit key 0, and the add fails if that key is taken.
- `createdAt` is kept only when it is truthy. A `createdAt` of 0 is
  re-stamped with the current time.
- The listing is sorted non-increasing by `createdAt`, not strictly
  decreasing. The index scan returns equal timestamps in primary-key order,
  and the stable sort keeps that order. `Store.Before` states this order,
  and `Store.ListingUnique` shows that it fixes the listing uniquely.
- The IndexedDB key generator moves past any numeric key written with `put`,
  as the IndexedDB standard requires (`Store.Bump`).

## Model

| member | source | states |
|---|---|---|
| Types.AppState.StatusOf | types.ts:22-45 | each of the ten tags of the application state maps to its own `Status` member, and only that tag maps to it |
| Store.Bump | services/dbService.ts:109 | an explicit numeric key moves the key generator past it and never backwards: the generator becomes key + 1 when the key reaches it, and stays otherwise |
| Store.UpgradeSchema | services/dbService.ts:28-60 | after the upgrade the notes store has `userId`, the users store has `username` and `googleId` and lacks `appleId`; every other index is kept and no other index is added |
| Store.UpgradeIdempotent | services/dbService.ts:32-59 | running the upgrade twice is running it once |
| Store.UpgradeFixesCurrent | services/dbService.ts:32-59 | on a current schema the upgrade changes nothing |
| Store.AddUser | services/dbService.ts:65-82 | no ensures; its meaning is stated by `Store.AddUserOutcome` |
| Store.AddUserOutcome | services/dbService.ts:65-82 | addUser succeeds iff neither the username nor a given googleId is taken; the new user is free-plan, keyed by the generator, and has a googleId only when a non-empty one is given; a failure is a constraint error and writes nothing |
| Store.AddUserPreservesValid | services/dbService.ts:46-55 | addUser keeps the keys consistent and the username and googleId indexes unique |
| Store.FindUserById | services/dbService.ts:95-103 | the lookup finds a user iff the key is present, and then the row under it |
| Store.FindUserByGoogleId | services/dbService.ts:84-93 | the index lookup finds a user iff some user holds the googleId, and then one holding it |
| Store.FindUserByGoogleIdUnique | services/dbService.ts:55 | with the index unique, the lookup finds the one user holding the googleId |
| Store.UpdateUser | services/dbService.ts:105-115 | no ensures; its meaning is stated by `Store.UpdateUserOutcome` |
| Store.UpdateUserOutcome | services/dbService.ts:105-115 | updateUser fails, writing nothing, iff another row holds the record's username or googleId; otherwise the record replaces the row under its id, resolves unchanged and leaves the notes alone |
| Store.UpdateUserPreservesValid | services/dbService.ts:105-115 | updateUser keeps the store consistent |
| Store.SaveNote | services/dbService.ts:119-142 | no ensures; its meaning is stated by `Store.SaveNoteOutcome` |
| Store.SaveNoteOutcome | services/dbService.ts:119-142 | saveNote fails iff the owner is 0 (a validation error) or the explicit key 0 is taken, writing nothing; on success the stored note is the given one with an id and a createdAt filled in (a truthy createdAt kept, else now; an id kept, else the generator's), written under that id, and the users are untouched |
| Store.SaveNotePreservesValid | services/dbService.ts:119-142 | saveNote keeps every row under its own id and below the key generator |
| Store.SaveNewNoteAddsRow | services/dbService.ts:131 | a note without an id lands in a fresh row, so the store grows by exactly one key |
| Store.ResaveAddsNoRow | services/dbService.ts:128-134 | re-saving the saved note, even edited, overwrites its row: no key is added, and the id and the original createdAt are kept |
| Store.GetNoteWithAudio | services/dbService.ts:164-183 | the fetch succeeds iff the row exists and belongs to the user, and then returns the note and its audio separately; every other case is the one combined error |
| Store.DeleteNote | services/dbService.ts:186-204 | no ensures; its meaning is stated by `Store.DeleteNoteOutcome` |
| Store.DeleteNoteOutcome | services/dbService.ts:186-204 | deleteNote succeeds iff the row belongs to the user, and then removes exactly that key and keeps every other row and all users; otherwise nothing changes |
| Store.DeleteIsFinal | services/dbService.ts:192-199 | after a delete the note can be neither fetched nor deleted again, by anyone, and every other row is unchanged |
| Store.DeleteNotePreservesValid | services/dbService.ts:186-204 | deleteNote keeps the store consistent |
| Store.InsertOrdered | services/dbService.ts:154 | inserting a note into an ordered listing keeps it ordered, adds exactly that note and grows it by one |
| Store.ListingIsolated | services/dbService.ts:150-155 | a listing holds only the user's own time-stamped notes, with createdAt non-increasing |
| Store.HeadIsFirst | services/dbService.ts:154 | in the listing order the head comes before every other element |
| Store.OrderedUnique | services/dbService.ts:153-154 | two ordered sequences with the same elements are equal |
| Store.ListingUnique | services/dbService.ts:145-162 | getAllNotes is determined by the store: there is exactly one listing per user |
| Store.OwnershipIsolation | services/dbService.ts:150-176 | a note saved for one user is in no other user's listing and cannot be fetched by another user |
| Store.DeleteUnlists | services/dbService.ts:186-204 | a delete takes from the owner's listed notes exactly the note with the deleted id |
| Store.ListingFollowsNotes | services/dbService.ts:145-162 | the listing depends on the notes store alone |
| Store.DuplicateUsernameRejected | services/dbService.ts:52 | adding the same username twice fails the second time and keeps the first user |
| Store.AliceSavesOneNote | services/dbService.ts:119-162 | after alice saves one note, her listing is exactly that note, with key 1 and stamped with the save time |
| Db.Database.constructor | services/dbService.ts:8 | the database starts with the handle unassigned, holding the browser's recorded version, schema and rows; an object store the schema lacks holds no rows and its key generator is at 1 |
| Db.Database.InitDB | services/dbService.ts:10-62 | a no-op once open; fails on a newer recorded version; otherwise opens at version 5, upgrading an older schema; no row changes |
| Db.Database.Upgrade | services/dbService.ts:28-60 | the step-by-step index ladder produces `UpgradeSchema` of the old schema |
| Db.Database.AddUser | services/dbService.ts:65-82 | performs `Store.AddUser` in place; before the store is open it fails and changes nothing |
| Db.Database.GetUserByGoogleId | services/dbService.ts:84-93 | returns `Store.FindUserByGoogleId` on the current rows; fails when not open |
| Db.Database.GetUserById | services/dbService.ts:95-103 | returns `Store.FindUserById` on the current rows; fails when not open |
| Db.Database.UpdateUser | services/dbService.ts:105-115 | performs `Store.UpdateUser` in place; fails when not open |
| Db.Database.SaveNote | services/dbService.ts:119-142 | the owner check comes first; then performs `Store.SaveNote` in place; fails when not open |
| Db.Database.GetAllNotes | services/dbService.ts:145-162 | the loop over the rows yields exactly the user's time-stamped notes in listing order; fails when not open |
| Db.Database.GetNoteWithAudio | services/dbService.ts:164-183 | returns `Store.GetNoteWithAudio` on the current rows; fails when not open |
| Db.Database.DeleteNote | services/dbService.ts:186-204 | performs `Store.DeleteNote` in place, the ownership check and the delete in one transaction; fails when not open |
| Auth.SignIn | services/authService.ts:13-26 | a user holding the subject is returned and nothing is written; otherwise the result is addUser of the email and the subject |
| Auth.SignInCreates | services/authService.ts:24-25 | a first sign-in creates exactly one free-plan user named by the email and carrying the subject, unless the email is already a username; other users and all notes are untouched |
| Auth.SignInTwice | services/authService.ts:15-18 | signing in again with the same subject returns the same user and writes nothing |
| Auth.EmptySubjectSignsInOnce | services/authService.ts:15-25 | with an empty subject nothing is linked, so the second sign-in with that email fails on the username index |
| Auth.UpgradePlan | services/authService.ts:28-37 | an unknown id fails with nothing written; a success writes and returns the stored record with only the plan replaced by Pro |
| Auth.UpgradePlanSucceeds | services/authService.ts:29-34 | on a consistent store the upgrade of an existing user succeeds, keeps id, username and googleId, leaves every other user alone and keeps the store consistent |
| Auth.Decode | services/authService.ts:43-51 | reading the slot yields a user iff it holds a serialised one, and then exactly that user |
| Auth.SessionSlot.constructor | services/authService.ts:4 | the slot starts empty |
| Auth.SessionSlot.Set | services/authService.ts:39-41 | the slot holds the serialised user |
| Auth.SessionSlot.Get | services/authService.ts:43-51 | returns the decoded slot; a missing or malformed entry gives nothing |
| Auth.SessionSlot.Clear | services/authService.ts:53-55 | the slot is empty |
| Auth.SessionRoundTrip | services/authService.ts:39-55 | get after set returns the user set; get after clear, or on a malformed entry, returns nothing |
| Auth.HandleGoogleSignIn | services/authService.ts:13-26 | the store calls perform `SignIn` on the store's rows; fails when the store is not open |
| Auth.UpdateUserPlan | services/authService.ts:28-37 | the store calls perform `UpgradePlan`; a success also puts the updated user in the session slot, a failure leaves the slot alone |
| AppModel.WithLoginRequested | App.tsx:74-81 | no ensures; stated by `AppModel.LoginRequestOnlyOpensModal` |
| AppModel.LoginRequestOnlyOpensModal | App.tsx:74-81 | a login request changes only the modal flag, and opens it unless unsaved notes are on screen and the user declines |
| AppModel.Cleared | App.tsx:177-183 | no ensures; stated by `AppModel.ClearedResetsSession` |
| AppModel.ClearedResetsSession | App.tsx:177-183 | a reset shows the main screen with a zero clock, no audio, chunks or error and not saved; it clears the held interval while the stray ones keep firing, and keeps user, history and options |
| AppModel.AfterReset | App.tsx:171-184 | no ensures; stated by `AppModel.ResetNeedsConsent` |
| AppModel.ResetNeedsConsent | App.tsx:171-184 | a non-forced reset over unsaved notes that the user declines changes nothing; every other reset clears the session |
| AppModel.AfterStop | App.tsx:104-112 | no ensures; stated by `AppModel.StopClearsInterval` and `AppModel.StopIsIdempotent` |
| AppModel.StopClearsInterval | App.tsx:104-112 | a stop leaves no interval handle and clears the held interval, leaving only the stray ones firing; it stops the recorder only if still recording, scheduling its onstop; nothing else changes |
| AppModel.StopIsIdempotent | App.tsx:104-112 | stopping twice is stopping once |
| AppModel.AfterStart | App.tsx:114-169 | no ensures; stated by `AppModel.StartBeginsRecording` |
| AppModel.StartBeginsRecording | App.tsx:114-169 | a start always clears error, audio and saved flag; while recording nothing more happens; a denied microphone shows the error screen; a granted one starts a fresh recorder, an empty chunk list, a zero clock and a live interval, and an interval still live under the overwritten id becomes a stray one, so one more interval fires |
| AppModel.AfterTick | App.tsx:154-162 | no ensures; stated by `AppModel.TickAdvancesClock` |
| AppModel.TickAdvancesClock | App.tsx:154-162 | a firing of any live interval adds exactly one second; the held interval stays live iff it was and a positive limit is not reached, reaching it is a stop, and the stray intervals keep firing |
| AppModel.Run | App.tsx:154-162 | any number of firings keeps the interval flags consistent |
| AppModel.UnlimitedNeverStops | App.tsx:157 | with a limit of 0 the recording never stops on its own: after n ticks the clock reads n more and the recorder is untouched |
| AppModel.StopsAtLimit | App.tsx:154-162 | with a positive limit the interval keeps ticking until the clock reads exactly the limit, and that tick clears it and stops the recorder |
| AppModel.RestartStrandsInterval | App.tsx:154 | a logged-in user who leaves a running recording for pricing, checkout and a successful payment is back on the main screen, start button showing, with the interval still live; a start there adds a live interval, a stop clears only the newer one, and the older one goes on advancing the clock |
| AppModel.Joined | App.tsx:131 | the audio of no chunks is empty |
| AppModel.AfterData | App.tsx:125-127 | no ensures; stated by `AppModel.DataAppendsChunk` |
| AppModel.DataAppendsChunk | App.tsx:125-127 | a data event appends exactly the chunk's bytes to the collected audio and changes nothing else |
| AppModel.AfterRecorderStop | App.tsx:129-132 | no ensures; stated by `AppModel.RecorderStopJoinsChunks` |
| AppModel.RecorderStopJoinsChunks | App.tsx:129-132 | onstop shows the generating screen with the collected chunks as one WebM blob |
| AppModel.OwnerId | App.tsx:136 | the generated note's owner is the current user's id, or 0 for a guest |
| AppModel.NoteOf | App.tsx:137-138 | the generated note carries the generator's fields and the owner, and has no id and no createdAt |
| AppModel.AfterGeneration | App.tsx:134-145 | no ensures; stated by `AppModel.GenerationOutcome` |
| AppModel.GenerationOutcome | App.tsx:134-145 | generated notes are shown unsaved; a failure shows the error screen; user, history and audio are kept |
| AppModel.GuestNoteCannotBeStored | App.tsx:135-138 | a note generated for a guest carries owner 0, which saveNote refuses without a change |
| AppModel.AfterUpdateNote | App.tsx:204-209 | no ensures; stated by `AppModel.UpdateNoteOnlyOnNotesScreen` |
| AppModel.UpdateNoteOnlyOnNotesScreen | App.tsx:204-209 | an edit replaces the note on the notes screen and marks it unsaved; elsewhere it is ignored |
| AppModel.AfterLogin | App.tsx:83-95 | no ensures; stated by `AppModel.LoginSetsUser` |
| AppModel.LoginSetsUser | App.tsx:83-95 | a login makes the user current; with a listing, the history is that listing, the modal closes if asked and any other screen is force-reset to the main one |
| AppModel.AfterLogout | App.tsx:97-102 | no ensures; stated by `AppModel.LogoutForgetsUser` |
| AppModel.LogoutForgetsUser | App.tsx:97-102 | a logout forgets the user and the history and force-resets the session |
| AppModel.AfterCheckout | App.tsx:258-264 | no ensures; stated by `AppModel.CheckoutNeedsUser` |
| AppModel.CheckoutNeedsUser | App.tsx:258-264 | checkout opens for a logged-in user and changes nothing else; a guest only gets the login request |
| AppModel.WithoutId | App.tsx:248 | the filter keeps exactly the notes whose id is not the deleted one, keeping their order |
| AppModel.AfterDelete | App.tsx:246-252 | no ensures; stated by `AppModel.DeleteDropsNote` and `AppModel.DeleteListed` |
| AppModel.DeleteDropsNote | App.tsx:243-254 | a confirmed delete drops exactly the notes with that id from the history and changes nothing else; a refused one only shows the error banner |
| AppModel.DeleteKeepsHistoryFit | App.tsx:248 | the filtered history still belongs to the current user and stays ordered |
| AppModel.ListingFits | App.tsx:86-87 | a listing of the user's notes fits that user as a history |
| AppModel.LinkedKept | App.tsx:47-60 | a step that keeps the interval flags consistent and leaves user and history alone keeps the invariant, both halves |
| AppModel.LoginLinked | App.tsx:83-95 | a login puts the user in the session slot and, from an open store, exactly the user's listing on that store in the history |
| AppModel.AfterSave | App.tsx:193-201 | no ensures; stated by `AppModel.SaveLinked` and `AppModel.App.ShowSaved` |
| AppModel.SaveLinked | App.tsx:193-197 | the history a save installs belongs to the current user and is that user's listing on the store after the save |
| AppModel.AfterListing | App.tsx:221-223 | no ensures; stated by `AppModel.ListingLinked` and `AppModel.App.HandleShowHistory` |
| AppModel.ListingLinked | App.tsx:221-223 | the history shown by the history screen belongs to the current user and is that user's listing on the store |
| AppModel.AfterLoad | App.tsx:226-241 | no ensures; stated by `AppModel.LoadLinked` and `AppModel.App.HandleLoadNote` |
| AppModel.LoadLinked | App.tsx:226-241 | loading a note touches neither user nor history |
| AppModel.DeleteLinked | App.tsx:243-254 | a delete keeps the history the current user's |
| AppModel.DeleteListed | App.tsx:246-248 | the store's delete and the history's filter agree: after a delete the history is still the user's listing on the changed store, and a refused delete changes neither |
| AppModel.AfterUpgrade | App.tsx:273-281 | no ensures; stated by `AppModel.UpgradeLinked` and `AppModel.UpgradeListed` |
| AppModel.UpgradeLinked | App.tsx:273-276 | an upgrade replaces the current user by a record of the same id, which the slot then holds |
| AppModel.UpgradeListed | App.tsx:273-276 | an upgrade writes no note, so the history stays the listing of the same user id |
| AppModel.RecorderView | App.tsx:327-341 | the recorder control shows exactly on the error, main, recording and unlisted screens |
| AppModel.RecorderControlFollowsState | App.tsx:335-341 | where the control shows it offers stop iff recording, is never disabled, shows the elapsed clock only while recording and the limit only while recording with one |
| AppModel.StartShowsStopButton | App.tsx:150-152 | a granted start turns the control into a stop button whose clock reads 00:00 |
| AppModel.App.constructor | App.tsx:47-60 | the component mounts on the loading screen with no user, an empty history and a 300-second limit |
| AppModel.App.Initialize | App.tsx:62-72 | opens the store, restores the session's user with a login that keeps the modal alone, then shows the main screen; a store that cannot open leaves the loading screen |
| AppModel.App.RestoreSession | App.tsx:65-69 | with a user in the slot its login runs, and the main screen follows either way |
| AppModel.App.RequestLogin | App.tsx:74-81 | performs `WithLoginRequested` |
| AppModel.App.HandleLoginSuccess | App.tsx:83-95 | the slot holds the user; the history is the user's listing and the state is `AfterLogin` of it |
| AppModel.App.HandleLogout | App.tsx:97-102 | the slot is cleared and the state is `AfterLogout` |
| AppModel.App.HandleStopRecording | App.tsx:104-112 | performs `AfterStop` |
| AppModel.App.HandleStartRecording | App.tsx:114-169 | performs `AfterStart` for the microphone's answer, a still-live interval becoming a stray one |
| AppModel.App.Tick | App.tsx:154-162 | performs `AfterTick` for a firing of any live interval, calling the stop handler at the limit |
| AppModel.App.DataAvailable | App.tsx:125-127 | performs `AfterData` |
| AppModel.App.RecorderStopped | App.tsx:129-132 | performs `AfterRecorderStop` |
| AppModel.App.GenerationFinished | App.tsx:134-145 | performs `AfterGeneration` |
| AppModel.App.HandleReset | App.tsx:171-184 | performs `AfterReset` for the dialog's answer |
| AppModel.App.HandleSave | App.tsx:186-202 | a guest only gets the login request; without audio nothing happens; otherwise the note is saved under the current user's id, shown saved and the history listed again, and a refusal shows the error banner; the store changes exactly as saveNote says |
| AppModel.App.SaveRecording | App.tsx:192-201 | the logged-in, with-audio part of handleSave, with the same outcome |
| AppModel.App.ShowSaved | App.tsx:194-197 | the saved note is shown saved and the history is the user's listing |
| AppModel.App.HandleUpdateNote | App.tsx:204-209 | performs `AfterUpdateNote` |
| AppModel.App.HandleShowHistory | App.tsx:211-224 | a guest only gets the login request; unsaved notes need consent; then the history is the user's listing on the history screen |
| AppModel.App.HandleLoadNote | App.tsx:226-241 | a guest only gets the login request; otherwise the user's own note is shown saved with its audio, and any failure shows the error screen |
| AppModel.App.HandleDeleteNote | App.tsx:243-254 | only a logged-in user who confirms deletes; the store changes exactly as deleteNote says and the state is `AfterDelete` of its answer |
| AppModel.App.DeleteOwnNote | App.tsx:246-252 | the confirmed part of handleDeleteNote, with the same outcome |
| AppModel.App.HandleShowPricing | App.tsx:256 | only the screen changes, to pricing |
| AppModel.App.HandleProceedToCheckout | App.tsx:258-264 | performs `AfterCheckout` |
| AppModel.App.HandlePaymentSuccess | App.tsx:266-282 | without a user: the error, the main screen and a login request; with one: the store changes as `UpgradePlan` says, and the upgraded Pro user becomes current on the main screen, or the error banner shows |
| AppModel.App.PaymentWithoutUser | App.tsx:267-272 | the guest branch of handlePaymentSuccess |
| AppModel.App.UpgradeCurrentUser | App.tsx:273-281 | the logged-in branch of handlePaymentSuccess |
| Recorder.DigitChar | components/RecorderControl.tsx:27 | a digit value becomes a decimal digit character |
| Recorder.DigitValue | components/RecorderControl.tsx:27 | a digit character denotes a value below ten |
| Recorder.Dec | components/RecorderControl.tsx:27 | `toString` of a natural number is a non-empty digit string, one digit exactly below ten, with no leading zero |
| Recorder.DecValue | components/RecorderControl.tsx:27 | reading the digits back gives the number |
| Recorder.LeadingZeroValue | components/RecorderControl.tsx:27 | a leading zero does not change the value |
| Recorder.Pad2 | components/RecorderControl.tsx:27 | `padStart(2, '0')` keeps a string of two or more characters and left-fills a shorter one with zeros to length two |
| Recorder.Pad2Value | components/RecorderControl.tsx:27 | padding keeps the value of a digit string |
| Recorder.FormatTime | components/RecorderControl.tsx:25-29 | no ensures; stated by `Recorder.FormatTimeShape` and `Recorder.FormatTimeInjective` |
| Recorder.FormatTimeShape | components/RecorderControl.tsx:25-29 | the clock text is at least two minute digits, a colon and two second digits naming 0..59, and minutes × 60 + seconds is the input |
| Recorder.FormatTimeInjective | components/RecorderControl.tsx:25-29 | distinct times give distinct clock texts |
| Recorder.Render | components/RecorderControl.tsx:31-91 | the button stops iff recording and starts otherwise, and is disabled iff generating; the clock shows iff recording, reading the formatted elapsed time; the limit and the auto-stop notice show iff recording with a limit, the limit as the formatted time and the notice as "Recording will stop automatically at " followed by it |
| Notes.TrimStart | components/NotesDisplay.tsx:65 | strips exactly the leading white space |
| Notes.TrimEnd | components/NotesDisplay.tsx:65 | strips exactly the trailing white space |
| Notes.TrimHalves | components/NotesDisplay.tsx:65 | the two halves of trim leave nothing iff the string is all white space |
| Notes.Trim | components/NotesDisplay.tsx:65-66 | the trim is empty iff the string is all white space, otherwise it starts and ends with non-space, and a string without white space at either end is its own trim |
| Notes.CommitTitle | components/NotesDisplay.tsx:63-70 | a title is reported iff the edit has non-space text and differs from the current title as typed, and then it is the trimmed edit |
| Notes.PaddedTitleIsRecommitted | components/NotesDisplay.tsx:65 | adding a trailing space to the title reports the same title again; an unchanged edit reports nothing |
| Notes.TitleEditor.constructor | components/NotesDisplay.tsx:48-49 | the editor starts with the note's title and not editing |
| Notes.TitleEditor.BeginEdit | components/NotesDisplay.tsx:175 | enters editing mode and keeps the text |
| Notes.TitleEditor.Type | components/NotesDisplay.tsx:167 | the input holds the typed text |
| Notes.TitleEditor.NoteTitleChanged | components/NotesDisplay.tsx:52-54 | a new note title replaces the input's text |
| Notes.TitleEditor.Blur | components/NotesDisplay.tsx:63-70 | leaves editing mode; a committed edit is reported as the note with the trimmed title, otherwise the input reverts to the note's title |
| Notes.TitleEditor.KeyDown | components/NotesDisplay.tsx:72-79 | Enter acts as a blur; Escape reverts and leaves editing mode without reporting; other keys change nothing |
| Notes.Lower | components/NotesDisplay.tsx:87 | an ASCII letter or digit lowercases to a safe character other than `_` |
| Notes.SafeTitle | components/NotesDisplay.tsx:87 | the safe title has the title's length in UTF-16 code units, consists of `[a-z0-9_]`, and is empty iff the title is |
| Notes.SafeTitlePointwise | components/NotesDisplay.tsx:87 | on a title within the Basic Multilingual Plane each character maps in place: letters and digits lowercased, everything else `_` |
| Notes.DownloadName | components/NotesDisplay.tsx:87-88 | a download name is the prefix, the safe title and the extension, with the fallback word exactly for an empty title |
| Notes.AudioFilename | components/NotesDisplay.tsx:87-88 | the audio file is `recording_<safe title>.webm`, falling back to `audio` only for an empty title |
| Notes.PdfFilename | components/NotesDisplay.tsx:154-155 | the PDF file is `notes_<safe title>.pdf`, falling back to `generated` only for an empty title |
| Notes.PunctuationTitleKeepsItsName | components/NotesDisplay.tsx:87-88 | a title of punctuation or white space names a file made of underscores, not the fallback |
| Notes.DownloadPdf | components/NotesDisplay.tsx:95-104 | logged out only requests a login, the free plan only requests an upgrade, and only a Pro user exports, under the PDF file name |
| Notes.DownloadAudio | components/NotesDisplay.tsx:81-88 | the audio is downloaded iff there is some, under the audio file name |
| Notes.RenderToolbar | components/NotesDisplay.tsx:186-200 | save is disabled iff the note is saved, and its label says so; the audio button shows iff there is audio; the PRO badge shows iff the plan is free |

## Left out

- IndexedDB's request and event plumbing (`onsuccess`, `onerror`, `onupgradeneeded`) is not modelled. Each service call is one atomic step, and the module handle is a boolean `open`. An open that fails for reasons other than a newer recorded version is not modelled.
- The upgrade handler's "store exists but there is no versionchange transaction" branch is not modelled, since IndexedDB always supplies one during an upgrade.
- Database records keep their audio next to the note. Each note in a listing carries its `audioBlob` spread into it; the model lists the notes without the blob.
- The browser's MediaRecorder, `getUserMedia`, track stopping and the real one-second timer are not modelled. They are replaced by the inputs `micGranted` and by the event methods `Tick`, `DataAvailable`, `RecorderStopped` and `GenerationFinished`.
- `window.confirm`, `alert` and `Date.now` are parameters: the answer `confirmed` and the time `now`. `alert` has no effect on the state, so it is dropped.
- The notes generator in `services/geminiService.ts` is not part of this model. Its answer is an input: a `Draft`, or `None` for a failure.
- The jsPDF document layout and `progressPercentage` are left out. They use a foreign library and floating point.
- The payment widgets, Google Identity initialisation and the decoding of the identity token are left out. The decoded claims are an input, `GoogleJwtPayload`.
- The presentation components and the JSX are left out. Of the `renderContent` screen selection only the branch that shows the recorder control is modelled (`AppModel.RecorderView`). So are the language and limit choosers: `language` and `recordingLimit` are fields that no modelled handler changes.
- The interleaving of asynchronous handlers and the renders between their awaits are not modelled. Examples are the mount effect's non-awaited login, and `onstop` reading the user captured at start. Each handler runs to completion, and its setters take effect together, as React batches them.
- The session slot's JSON is an abstract value: a serialised user or a malformed entry. `JSON.stringify` and `JSON.parse` are not modelled.
- A start while a recorder is still recording (reachable through pricing, checkout and a successful payment) replaces `mediaRecorderRef`. The model's `recorder` holds only the newest recorder. The old one is never stopped, its `onstop` never runs and its microphone track stays open; this is not modelled.
- Every interval, held or stray, fires with the same limit, the current `recordingLimit`. In the code each interval keeps the limit of its own start, but no modelled handler changes the limit, so the two agree.
- AppModel.App.Initialize: the mount effect is modelled from a state with no current user, the state the component mounts in.
- JavaScript numbers are doubles; the model uses unbounded integers. Lost with that: the 2^53 ceiling of the IndexedDB key generator (past it `add` fails), integer precision above 2^53, and the exponent form `toString` uses from 1e21 on in `formatTime`. None is reachable by a browser session.
- The unmount cleanup effect is left out. It only clears the timer and stops tracks.
- Notes.SafeTitle: a character outside the Basic Multilingual Plane becomes two underscores, which models the regular expression running over UTF-16 code units. No other UTF-16 behaviour is modelled. `SafeTitlePointwise` is stated only for titles within that plane.
