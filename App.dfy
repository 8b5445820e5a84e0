/** The `App` component of `App.tsx` as a state machine. Its React state
    (the tagged `AppState`, the current user, the error banner, the elapsed
    time, the recorded audio, the saved flag, the history list, the chosen
    language and limit, the login modal) and its refs (the media recorder,
    the collected audio chunks, the interval handle) are held in one
    `AppView` record, the field `state` of class `App`, beside the store and
    the session slot the component talks to. Each handler is a method proved
    against a transition function on `AppView`; a handler reads the state its
    closure captured, and the setters it calls take effect together, so its
    new state is a function of that state and of the answers the store gave.
    The properties of the state machine are lemmas about those functions, and
    `Linked` is the invariant every handler keeps.

    Answers to `window.confirm`, microphone permission, the current time,
    the generated notes and the browser's recorder and timer events are
    inputs: `confirmed`, `micGranted`, `now`, `Draft` values, and the event
    methods `Tick`, `DataAvailable`, `RecorderStopped` and
    `GenerationFinished`. */
module AppModel {
  import opened Types
  import opened Store
  import opened Db
  import opened Auth
  import Recorder

  /** The messages the error banner can show. */
  datatype Notice =
    | MicrophoneDenied
    | GenerationFailed
    | SaveFailed
    | LoadFailed
    | DeleteFailed
    | AuthenticationLost
    | UpgradeFailed

  /** The media recorder ref: none yet, or one that is recording or inactive. */
  datatype RecorderRef = NoRecorder | Recorder(recording: bool)

  /** The part of a note the notes generator supplies. */
  datatype Draft = Draft(title: string, summary: string, keyTopics: seq<KeyTopic>, transcription: string)

  /** A snapshot of every field of `App` that a handler reads or writes.
      `timerSet` is whether `timerRef.current` holds an interval id;
      `ticking` whether that interval is still live; `stopPending` whether a
      recorder stop has been requested whose `onstop` has not run yet;
      `generationPending` whether generated notes are being awaited;
      `strayIntervals` counts the intervals that are still live although
      `timerRef.current` was overwritten with a newer id, so that nothing
      can clear them any more. */
  datatype AppView = AppView(
    appState: AppState,
    currentUser: Option<User>,
    error: Option<Notice>,
    elapsedTime: nat,
    audioBlob: Option<Blob>,
    isSaved: bool,
    history: seq<NoteData>,
    language: string,
    recordingLimit: int,
    showAuthModal: bool,
    recorder: RecorderRef,
    audioChunks: seq<Blob>,
    timerSet: bool,
    ticking: bool,
    stopPending: bool,
    generationPending: bool,
    strayIntervals: nat)

  /** The state the component mounts in. */
  const Initial := AppView(Loading, None, None, 0, None, false, [], "auto", 300, false,
                           NoRecorder, [], false, false, false, false, 0)

  /** The interval `timerRef` holds, when live, is recorded as held. */
  predicate Wf(v: AppView) {
    v.ticking ==> v.timerSet
  }

  /** How many intervals are firing: the one `timerRef` holds, if live, and
      the stray ones. */
  function LiveIntervals(v: AppView): nat {
    (if v.ticking then 1 else 0) + v.strayIntervals
  }

  /** The unsaved-work condition under which the confirmation dialogs appear. */
  predicate Unsaved(v: AppView) {
    v.appState.Success? && !v.isSaved
  }

  // ---------------------------------------------------------------------
  // Transitions

  /** requestLogin: with unsaved notes on screen the user is asked first;
      otherwise, or when the user agrees, the login modal opens. Nothing
      else changes. */
  function WithLoginRequested(v: AppView, confirmed: bool): (r: AppView)
  {
    if Unsaved(v) && !confirmed then v else v.(showAuthModal := true)
  }

  /** A login request touches the modal flag alone, and opens the modal
      unless unsaved notes are on screen and the user declines. */
  lemma LoginRequestOnlyOpensModal(v: AppView, confirmed: bool)
    ensures WithLoginRequested(v, confirmed).(showAuthModal := v.showAuthModal) == v
    ensures WithLoginRequested(v, confirmed).showAuthModal <==> v.showAuthModal || !Unsaved(v) || confirmed
  {
  }

  /** The fields a reset keeps: who is logged in and what the history holds,
      the options, the modal, the recorder and the interval handle. */
  predicate KeepsContext(v: AppView, r: AppView) {
    && r.currentUser == v.currentUser && r.history == v.history
    && r.language == v.language && r.recordingLimit == v.recordingLimit
    && r.showAuthModal == v.showAuthModal
    && r.recorder == v.recorder && r.timerSet == v.timerSet
    && r.stopPending == v.stopPending && r.generationPending == v.generationPending
    && r.strayIntervals == v.strayIntervals
  }

  /** The body of handleReset once it goes ahead: the main screen, a zero
      clock, no audio, no error, not saved, and the interval cleared. The
      recorder itself is not stopped and `timerRef` keeps its stale id. */
  function Cleared(v: AppView): (r: AppView)
  {
    v.(appState := Idle, error := None, audioChunks := [], audioBlob := None,
       elapsedTime := 0, isSaved := false, ticking := false)
  }

  /** A cleared session: main screen, zero clock, no audio, chunks or
      error, not saved, the held interval cleared with the stray ones still
      firing, and the context kept. */
  lemma ClearedResetsSession(v: AppView)
    ensures var r := Cleared(v);
      && r.appState == Idle && r.elapsedTime == 0 && r.audioBlob.None? && r.error.None?
      && !r.isSaved && r.audioChunks == [] && !r.ticking
      && (Wf(v) ==> LiveIntervals(r) == v.strayIntervals)
      && KeepsContext(v, r)
  {
  }

  /** handleReset: a non-forced reset over unsaved notes that the user
      declines changes nothing; every other reset clears the session. */
  function AfterReset(v: AppView, force: bool, confirmed: bool): (r: AppView)
  {
    if !force && Unsaved(v) && !confirmed then v else Cleared(v)
  }

  /** Only unsaved notes on screen, a non-forced reset and a declined dialog
      together keep the state; otherwise the session is cleared. */
  lemma ResetNeedsConsent(v: AppView, force: bool, confirmed: bool)
    ensures AfterReset(v, force, confirmed) == v <== !force && Unsaved(v) && !confirmed
    ensures AfterReset(v, force, confirmed) == Cleared(v) <== force || !Unsaved(v) || confirmed
  {
  }

  /** handleStopRecording: the interval is cleared and `timerRef` emptied if
      it held one; the recorder is stopped only if it is still recording,
      which schedules its `onstop`. */
  function AfterStop(v: AppView): (r: AppView)
  {
    var v1 := if v.timerSet then v.(timerSet := false, ticking := false) else v;
    if v1.recorder == Recorder(true) then v1.(recorder := Recorder(false), stopPending := true) else v1
  }

  /** A stop leaves no interval handle and clears the held interval, but no
      stray one; a live recorder becomes inactive with its `onstop` pending;
      nothing else changes. */
  lemma StopClearsInterval(v: AppView)
    ensures var r := AfterStop(v);
      && !r.timerSet && (Wf(v) ==> !r.ticking && Wf(r))
      && (Wf(v) ==> LiveIntervals(r) == v.strayIntervals)
      && r.recorder == (if v.recorder == Recorder(true) then Recorder(false) else v.recorder)
      && (r.stopPending <==> v.stopPending || v.recorder == Recorder(true))
      && r.(timerSet := v.timerSet, ticking := v.ticking, recorder := v.recorder, stopPending := v.stopPending) == v
  {
  }

  /** Stopping twice is the same as stopping once. */
  lemma StopIsIdempotent(v: AppView)
    ensures AfterStop(AfterStop(v)) == AfterStop(v)
  {
  }

  /** handleStartRecording: the error, the audio and the saved flag are
      always cleared first; while already recording nothing else happens.
      Otherwise a denied microphone shows the error screen, and a granted one
      starts a fresh recorder, an empty chunk list, a zero clock and a live
      interval whose id replaces the one in `timerRef`; an interval that was
      still live under the old id becomes a stray one. */
  function AfterStart(v: AppView, micGranted: bool): (r: AppView)
  {
    var v1 := v.(error := None, audioBlob := None, isSaved := false);
    if v.appState.Recording? then v1
    else if !micGranted then v1.(error := Some(MicrophoneDenied), appState := Error)
    else v1.(recorder := Recorder(true), audioChunks := [], appState := Recording,
             elapsedTime := 0, timerSet := true, ticking := true,
             strayIntervals := v.strayIntervals + (if v.ticking then 1 else 0))
  }

  /** What a start leaves, case by case: a granted start adds one live
      interval to those already firing; it keeps the interval flags
      consistent. */
  lemma StartBeginsRecording(v: AppView, micGranted: bool)
    ensures var r := AfterStart(v, micGranted);
      && r.audioBlob.None? && !r.isSaved
      && r.error == (if v.appState.Recording? || micGranted then None else Some(MicrophoneDenied))
      && (v.appState.Recording? ==> r == v.(error := None, audioBlob := None, isSaved := false))
      && (!v.appState.Recording? && !micGranted ==>
           r == v.(error := Some(MicrophoneDenied), audioBlob := None, isSaved := false, appState := Error))
      && (!v.appState.Recording? && micGranted ==>
           && r.appState == Recording && r.elapsedTime == 0
           && r.recorder == Recorder(true) && r.audioChunks == []
           && r.timerSet && r.ticking
           && r.strayIntervals == v.strayIntervals + (if v.ticking then 1 else 0)
           && (Wf(v) ==> LiveIntervals(r) == LiveIntervals(v) + 1)
           && r.currentUser == v.currentUser && r.history == v.history)
      && (Wf(v) ==> Wf(r))
  {
  }

  /** Whether the tick that brings the clock to `newTime` stops the recording. */
  predicate LimitReached(recordingLimit: int, newTime: int) {
    recordingLimit > 0 && newTime >= recordingLimit
  }

  /** One firing of a live interval, held or stray (each one was set up with
      the same callback and the same limit): the clock advances by exactly
      one second, and the recording is stopped exactly when a positive limit
      is reached. */
  function AfterTick(v: AppView): (r: AppView)
    requires LiveIntervals(v) > 0 && Wf(v)
  {
    var newTime := v.elapsedTime + 1;
    var v1 := v.(elapsedTime := newTime);
    if LimitReached(v.recordingLimit, newTime) then AfterStop(v1) else v1
  }

  /** A tick adds one second, and the held interval stays live exactly when
      it was and the limit is not reached; reaching it is a stop, which
      leaves the stray intervals firing. */
  lemma TickAdvancesClock(v: AppView)
    requires LiveIntervals(v) > 0 && Wf(v)
    ensures var r := AfterTick(v);
      && r.elapsedTime == v.elapsedTime + 1 && Wf(r)
      && (r.ticking <==> v.ticking && !LimitReached(v.recordingLimit, v.elapsedTime + 1))
      && r.strayIntervals == v.strayIntervals
      && (LimitReached(v.recordingLimit, v.elapsedTime + 1) ==> r == AfterStop(v.(elapsedTime := v.elapsedTime + 1)))
      && (!LimitReached(v.recordingLimit, v.elapsedTime + 1) ==> r == v.(elapsedTime := v.elapsedTime + 1))
  {
    if LimitReached(v.recordingLimit, v.elapsedTime + 1) {
      StopClearsInterval(v.(elapsedTime := v.elapsedTime + 1));
    }
  }

  /** The state after `n` firings: they happen while some interval is live. */
  function Run(v: AppView, n: nat): (r: AppView)
    requires Wf(v)
    ensures Wf(r)
    decreases n
  {
    if n == 0 || LiveIntervals(v) == 0 then v else Run(AfterTick(v), n - 1)
  }

  /** With no limit (the "Unlimited" option is 0) the recording never stops
      on its own: after `n` ticks the clock reads `n` more and the recorder
      is untouched. */
  lemma {:induction false} UnlimitedNeverStops(v: AppView, n: nat)
    requires Wf(v) && v.ticking && v.recordingLimit <= 0
    ensures Run(v, n).ticking
    ensures Run(v, n).elapsedTime == v.elapsedTime + n
    ensures Run(v, n).recorder == v.recorder
    decreases n
  {
    if n > 0 {
      UnlimitedNeverStops(AfterTick(v), n - 1);
    }
  }

  /** With a positive limit, a recording whose clock is below it keeps
      ticking until the clock reads exactly the limit, and that tick clears
      the interval and stops the recorder. */
  lemma {:induction false} StopsAtLimit(v: AppView)
    requires Wf(v) && v.ticking && v.recorder == Recorder(true)
    requires 0 < v.recordingLimit && v.elapsedTime < v.recordingLimit
    ensures var r := Run(v, v.recordingLimit - v.elapsedTime);
      && r.elapsedTime == v.recordingLimit
      && !r.ticking && !r.timerSet
      && r.recorder == Recorder(false) && r.stopPending
    ensures forall j :: 0 <= j < v.recordingLimit - v.elapsedTime ==> Run(v, j).ticking
    decreases v.recordingLimit - v.elapsedTime
  {
    var w := AfterTick(v);
    if v.elapsedTime + 1 < v.recordingLimit {
      StopsAtLimit(w);
      forall j | 0 <= j < v.recordingLimit - v.elapsedTime ensures Run(v, j).ticking {
        if j > 0 {
          assert Run(v, j) == Run(w, j - 1);
        }
      }
    } else {
      assert Run(w, 0) == w;
      forall j | 0 <= j < v.recordingLimit - v.elapsedTime ensures Run(v, j).ticking {
        assert j == 0;
      }
    }
  }

  /** A logged-in user who leaves a running recording for the pricing
      screen, proceeds to checkout and pays is back on the main screen with
      the interval still live, since none of those handlers clears it. A
      start there overwrites `timerRef` while that interval is live: one
      more interval fires from then on, a stop clears only the newer one,
      and the older one goes on advancing the clock after the stop. */
  lemma RestartStrandsInterval(v: AppView, confirmed: bool, upgraded: User)
    requires Wf(v) && v.appState.Recording? && v.ticking && v.currentUser.Some?
    ensures var paid := AfterUpgrade(AfterCheckout(v.(appState := Pricing), confirmed), Ok(upgraded));
      var r := AfterStart(paid, true);
      && paid.appState == Idle && paid.ticking
      && RecorderView(paid).Some? && RecorderView(paid).value.action == Recorder.OnStart
      && LiveIntervals(r) == LiveIntervals(v) + 1
      && LiveIntervals(AfterStop(r)) == LiveIntervals(v) > 0
      && !AfterStop(r).ticking
      && AfterTick(AfterStop(r)).elapsedTime == 1
  {
    RecorderControlFollowsState(AfterUpgrade(AfterCheckout(v.(appState := Pricing), confirmed), Ok(upgraded)));
  }

  /** The bytes of a Blob built from chunks: their concatenation. */
  function Joined(chunks: seq<Blob>): (bytes: seq<bv8>)
    ensures chunks == [] ==> bytes == []
  {
    if chunks == [] then [] else Joined(chunks[..|chunks| - 1]) + chunks[|chunks| - 1].bytes
  }

  /** ondataavailable: the chunk is appended to the collected audio. */
  function AfterData(v: AppView, chunk: Blob): (r: AppView)
  {
    var r := v.(audioChunks := v.audioChunks + [chunk]);
    assert r.audioChunks[..|r.audioChunks| - 1] == v.audioChunks;
    r
  }

  /** The collected audio grows by exactly the chunk's bytes. */
  lemma DataAppendsChunk(v: AppView, chunk: Blob)
    ensures Joined(AfterData(v, chunk).audioChunks) == Joined(v.audioChunks) + chunk.bytes
    ensures AfterData(v, chunk).(audioChunks := v.audioChunks) == v
  {
    var c := AfterData(v, chunk).audioChunks;
    assert c[..|c| - 1] == v.audioChunks;
  }

  /** The recorder's `onstop`: the notes are being generated, and the audio
      is the collected chunks as one WebM blob. */
  function AfterRecorderStop(v: AppView): (r: AppView)
    requires v.stopPending
  {
    v.(appState := Generating, audioBlob := Some(Blob(Joined(v.audioChunks), "audio/webm")),
       stopPending := false, generationPending := true)
  }

  /** `onstop` turns the collected chunks into the audio and awaits the notes. */
  lemma RecorderStopJoinsChunks(v: AppView)
    requires v.stopPending
    ensures var r := AfterRecorderStop(v);
      && r.appState == Generating
      && r.audioBlob == Some(Blob(Joined(v.audioChunks), "audio/webm"))
      && r.generationPending && !r.stopPending
      && r.(appState := v.appState, audioBlob := v.audioBlob, stopPending := true, generationPending := v.generationPending) == v
  {
  }

  /** The owner the generated note is given: the current user, or 0 for a guest. */
  function OwnerId(v: AppView): (id: int)
    ensures v.currentUser.None? ==> id == 0
    ensures v.currentUser.Some? ==> id == v.currentUser.value.id
  {
    if v.currentUser.Some? then v.currentUser.value.id else 0
  }

  /** The generated notes as an unsaved note of `userId`. */
  function NoteOf(d: Draft, userId: int): (n: NoteData)
    ensures n.id.None? && n.createdAt.None? && n.userId == userId
    ensures n.title == d.title && n.summary == d.summary
    ensures n.keyTopics == d.keyTopics && n.transcription == d.transcription
  {
    NoteData(None, userId, d.title, d.summary, d.keyTopics, d.transcription, None)
  }

  /** The end of `onstop`: generated notes are shown unsaved; a failed
      generation shows the error screen. */
  function AfterGeneration(v: AppView, draft: Option<Draft>): (r: AppView)
    requires v.generationPending
  {
    match draft
    case Some(d) => v.(appState := Success(NoteOf(d, OwnerId(v))), isSaved := false, generationPending := false)
    case None => v.(error := Some(GenerationFailed), appState := Error, generationPending := false)
  }

  /** A generated note is shown unsaved under the current owner; a failure
      shows the error; the user, history and audio are kept either way. */
  lemma GenerationOutcome(v: AppView, draft: Option<Draft>)
    requires v.generationPending
    ensures var r := AfterGeneration(v, draft);
      && !r.generationPending
      && (draft.Some? ==> r.appState == Success(NoteOf(draft.value, OwnerId(v))) && !r.isSaved && r.error == v.error)
      && (draft.None? ==> r.appState == Error && r.error == Some(GenerationFailed) && r.isSaved == v.isSaved)
      && r.currentUser == v.currentUser && r.history == v.history && r.audioBlob == v.audioBlob
  {
  }

  /** A note generated for a guest carries owner 0, which the store refuses
      to save, leaving it unchanged. */
  lemma GuestNoteCannotBeStored(v: AppView, d: Draft, st: DbState, blob: Blob, now: int)
    requires v.generationPending && v.currentUser.None?
    ensures AfterGeneration(v, Some(d)).appState.note.userId == 0
    ensures SaveNote(st, AfterGeneration(v, Some(d)).appState.note, blob, now) == (st, Err(ValidationError))
  {
  }

  /** handleUpdateNote: only on the notes screen, which then shows the
      edited note as unsaved. */
  function AfterUpdateNote(v: AppView, note: NoteData): (r: AppView)
  {
    if v.appState.Success? then v.(appState := Success(note), isSaved := false) else v
  }

  /** An edit replaces the note on the notes screen and marks it unsaved;
      on any other screen it is ignored. */
  lemma UpdateNoteOnlyOnNotesScreen(v: AppView, note: NoteData)
    ensures v.appState.Success? ==> AfterUpdateNote(v, note).appState == Success(note) && Unsaved(AfterUpdateNote(v, note))
    ensures AfterUpdateNote(v, note).(appState := v.appState, isSaved := v.isSaved) == v
    ensures !v.appState.Success? ==> AfterUpdateNote(v, note) == v
  {
  }

  /** What handleLoginSuccess leaves: the user is current; when the user's
      notes could be listed the history is that listing, the modal closes
      if asked to, and any screen but the main one is force-reset. A failed
      listing stops the handler after the user is set. */
  function AfterLogin(v: AppView, user: User, closeModal: bool, notes: Result<seq<NoteData>, DbError>): (r: AppView)
  {
    var v1 := v.(currentUser := Some(user));
    if notes.Err? then v1
    else
      var v2 := v1.(history := notes.value, showAuthModal := if closeModal then false else v1.showAuthModal);
      if !v.appState.Idle? then Cleared(v2) else v2
  }

  /** A login always makes the user current; with a listing it shows the
      main screen over that history, force-resetting any other screen. */
  lemma LoginSetsUser(v: AppView, user: User, closeModal: bool, notes: Result<seq<NoteData>, DbError>)
    ensures var r := AfterLogin(v, user, closeModal, notes);
      && r.currentUser == Some(user)
      && (notes.Err? ==> r == v.(currentUser := Some(user)))
      && (notes.Ok? ==>
           && r.history == notes.value
           && r.appState == Idle
           && r.showAuthModal == (v.showAuthModal && !closeModal))
      && (notes.Ok? && !v.appState.Idle? ==>
           r == Cleared(v.(currentUser := Some(user), history := notes.value, showAuthModal := v.showAuthModal && !closeModal)))
  {
  }

  /** handleLogout: no user, no history, and a forced reset. */
  function AfterLogout(v: AppView): (r: AppView)
  {
    Cleared(v.(currentUser := None, history := []))
  }

  /** A logout forgets the user and the history and clears the session. */
  lemma LogoutForgetsUser(v: AppView)
    ensures var r := AfterLogout(v);
      && r.currentUser.None? && r.history == []
      && r.appState == Idle && r.elapsedTime == 0 && r.audioBlob.None? && !r.isSaved && r.error.None?
      && KeepsContext(v.(currentUser := None, history := []), r)
  {
  }

  /** handleProceedToCheckout: a guest only gets the login request. */
  function AfterCheckout(v: AppView, confirmed: bool): (r: AppView)
  {
    if v.currentUser.None? then WithLoginRequested(v, confirmed) else v.(appState := Checkout)
  }

  /** The history without the notes whose id is `id`, in the same order. */
  function WithoutId(h: seq<NoteData>, id: int): (r: seq<NoteData>)
    ensures forall n :: n in r <==> n in h && n.id != Some(id)
    ensures |r| <= |h|
    ensures Ordered(h) ==> Ordered(r)
  {
    if h == [] then []
    else
      var rest := WithoutId(h[1..], id);
      if h[0].id == Some(id) then rest
      else
        assert Ordered(h) ==> forall m :: m in rest ==> Before(h[0], m) by {
          if Ordered(h) {
            forall m | m in rest ensures Before(h[0], m) {
              var j :| 0 <= j < |h[1..]| && h[1..][j] == m;
              assert h[j + 1] == m;
            }
          }
        }
        [h[0]] + rest
  }

  /** The end of handleDeleteNote: once the store has deleted the row the
      note leaves the history; a refusal shows the error banner. */
  function AfterDelete(v: AppView, id: int, deleted: Result<(), DbError>): AppView {
    if deleted.Err? then v.(error := Some(DeleteFailed)) else v.(history := WithoutId(v.history, id))
  }

  /** After a delete of `id` the history loses exactly the notes with that
      id, and nothing else changes; a refused delete only shows the banner. */
  lemma DeleteDropsNote(v: AppView, id: int)
    ensures forall n :: n in AfterDelete(v, id, Ok(())).history <==> n in v.history && n.id != Some(id)
    ensures AfterDelete(v, id, Ok(())).(history := v.history) == v
    ensures forall e :: AfterDelete(v, id, Err(e)) == v.(error := Some(DeleteFailed))
  {
  }

  /** The end of handleSave once the store has taken the note: it is shown
      as saved, and the fresh listing becomes the history; a failed listing
      shows the error banner instead. */
  function AfterSave(v: AppView, saved: NoteData, notes: Result<seq<NoteData>, DbError>): AppView {
    var v1 := v.(appState := Success(saved), isSaved := true);
    if notes.Err? then v1.(error := Some(SaveFailed)) else v1.(history := notes.value)
  }

  /** The end of handleShowHistory: the listing and the history screen; a
      failed listing changes nothing. */
  function AfterListing(v: AppView, notes: Result<seq<NoteData>, DbError>): AppView {
    if notes.Err? then v else v.(history := notes.value, appState := History)
  }

  /** The end of handleLoadNote: the note, saved, with its audio; or the
      error screen. */
  function AfterLoad(v: AppView, loaded: Result<(NoteData, Blob), DbError>): AppView {
    if loaded.Err? then v.(error := Some(LoadFailed), appState := Error)
    else v.(appState := Success(loaded.value.0), audioBlob := Some(loaded.value.1), isSaved := true)
  }

  /** The end of handlePaymentSuccess for a logged-in user: the upgraded
      record becomes the current user on the main screen; a failure shows
      the error banner. */
  function AfterUpgrade(v: AppView, updated: Result<User, AuthError>): AppView {
    if updated.Err? then v.(error := Some(UpgradeFailed)) else v.(currentUser := Some(updated.value), appState := Idle)
  }

  /** Checkout opens for a logged-in user, changing nothing but the screen;
      a guest only gets the login request, which touches the modal alone. */
  lemma CheckoutNeedsUser(v: AppView, confirmed: bool)
    ensures v.currentUser.Some? ==> AfterCheckout(v, confirmed) == v.(appState := Checkout)
    ensures v.currentUser.None? ==> AfterCheckout(v, confirmed).(showAuthModal := v.showAuthModal) == v
    ensures v.currentUser.None? ==>
      (AfterCheckout(v, confirmed).showAuthModal <==> v.showAuthModal || !Unsaved(v) || confirmed)
  {
  }

  /** The history belongs to the current user: none without one; with one,
      only that user's time-stamped notes, newest first. */
  predicate HistoryFits(user: Option<User>, history: seq<NoteData>) {
    && (user.None? ==> history == [])
    && (user.Some? ==>
         && Ordered(history)
         && forall i :: 0 <= i < |history| ==> history[i].userId == user.value.id && Truthy(history[i].createdAt))
  }

  /** Deleting from the history keeps it fitting the current user. */
  lemma DeleteKeepsHistoryFit(v: AppView, id: int)
    requires HistoryFits(v.currentUser, v.history)
    ensures HistoryFits(v.currentUser, WithoutId(v.history, id))
  {
  }

  /** A listing of the user's notes fits that user as a history. */
  lemma ListingFits(st: DbState, user: User, listing: seq<NoteData>)
    requires IsListing(st, user.id, listing)
    ensures HistoryFits(Some(user), listing)
  {
    ListingIsolated(st, user.id, listing);
  }

  // ---------------------------------------------------------------------
  // The recorder control on screen

  /** The screens renderContent gives to its fall-through branch, which
      shows the recorder control: the error, main and recording screens and
      every status it does not list. */
  predicate ShowsRecorder(s: AppState) {
    s.Error? || s.Idle? || s.Recording? || s.Auth?
  }

  /** The recorder control on the current screen, drawn from the status,
      the clock and the chosen limit; none on the other screens. */
  function RecorderView(v: AppView): (c: Option<Recorder.ControlView>)
    ensures c.Some? <==> ShowsRecorder(v.appState)
  {
    if ShowsRecorder(v.appState) then Some(Recorder.Render(v.appState.StatusOf(), v.elapsedTime, v.recordingLimit))
    else None
  }

  /** Wherever the control shows, it offers stop exactly while recording,
      is never disabled (generation has its own screen), shows the clock
      only while recording and the limit only while recording with one. */
  lemma RecorderControlFollowsState(v: AppView)
    requires RecorderView(v).Some?
    ensures var c := RecorderView(v).value;
      && (c.action == Recorder.OnStop <==> v.appState.Recording?)
      && !c.disabled
      && c.elapsedLabel == (if v.appState.Recording? then Some(Recorder.FormatTime(v.elapsedTime)) else None)
      && (c.limitLabel.Some? <==> v.appState.Recording? && v.recordingLimit > 0)
  {
  }

  /** A granted start turns the control into a stop button whose clock
      reads 00:00. */
  lemma StartShowsStopButton(v: AppView)
    requires !v.appState.Recording?
    ensures var c := RecorderView(AfterStart(v, true));
      && c.Some? && c.value.action == Recorder.OnStop
      && c.value.elapsedLabel == Some("00:00")
  {
    assert Recorder.FormatTime(0) == "00:00";
  }

  // ---------------------------------------------------------------------
  // The component

  /** The interval bookkeeping is consistent, the session slot holds the
      current user, and the history belongs to that user (and is empty until
      the store has been opened). */
  ghost predicate Linked(v: AppView, slot: Option<SlotValue>, open: bool) {
    && Wf(v)
    && (v.currentUser.Some? ==> slot == Some(Serialized(v.currentUser.value)))
    && HistoryFits(v.currentUser, v.history)
    && (!open ==> v.history == [])
  }

  /** Once the store is open, a logged-in user's history is exactly what
      getAllNotes resolves with for that user on the store as it now is. */
  ghost predicate HistoryListed(v: AppView, st: DbState, open: bool) {
    open && v.currentUser.Some? ==> IsListing(st, v.currentUser.value.id, v.history)
  }

  /** The invariant depends on the interval flags, the user and the history
      alone: a change that keeps the flags consistent and leaves the user and
      the history alone keeps it. */
  lemma LinkedKept(v: AppView, r: AppView, slot: Option<SlotValue>, st: DbState, open: bool)
    requires Linked(v, slot, open) && HistoryListed(v, st, open) && Wf(r)
    requires r.currentUser == v.currentUser && r.history == v.history
    ensures Linked(r, slot, open) && HistoryListed(r, st, open)
  {
  }

  /** A login puts the user in the session slot and, from an open store,
      the user's listing in the history. */
  lemma LoginLinked(v: AppView, user: User, closeModal: bool, notes: Result<seq<NoteData>, DbError>,
                    st: DbState, slot: Option<SlotValue>, open: bool)
    requires Linked(v, slot, open)
    requires open ==> notes.Ok? && IsListing(st, user.id, notes.value)
    requires !open ==> notes.Err?
    ensures Linked(AfterLogin(v, user, closeModal, notes), Some(Serialized(user)), open)
    ensures HistoryListed(AfterLogin(v, user, closeModal, notes), st, open)
  {
    if open {
      ListingFits(st, user, notes.value);
    }
  }

  /** A save keeps the invariant when the history it installs is a listing
      of the current user's notes from an open store. */
  lemma SaveLinked(v: AppView, saved: NoteData, notes: Result<seq<NoteData>, DbError>,
                   st: DbState, slot: Option<SlotValue>, open: bool)
    requires Linked(v, slot, open) && v.currentUser.Some?
    requires notes.Ok? ==> open && IsListing(st, v.currentUser.value.id, notes.value)
    requires open ==> notes.Ok?
    ensures Linked(AfterSave(v, saved, notes), slot, open)
    ensures HistoryListed(AfterSave(v, saved, notes), st, open)
  {
    if notes.Ok? {
      ListingFits(st, v.currentUser.value, notes.value);
    }
  }

  /** So does a return to the history screen. */
  lemma ListingLinked(v: AppView, notes: Result<seq<NoteData>, DbError>,
                      st: DbState, slot: Option<SlotValue>, open: bool)
    requires Linked(v, slot, open) && v.currentUser.Some?
    requires notes.Ok? ==> open && IsListing(st, v.currentUser.value.id, notes.value)
    requires open ==> notes.Ok?
    ensures Linked(AfterListing(v, notes), slot, open)
    ensures HistoryListed(AfterListing(v, notes), st, open)
  {
    if notes.Ok? {
      ListingFits(st, v.currentUser.value, notes.value);
    }
  }

  /** Loading a note touches neither the user nor the history. */
  lemma LoadLinked(v: AppView, loaded: Result<(NoteData, Blob), DbError>, slot: Option<SlotValue>, open: bool)
    requires Linked(v, slot, open)
    ensures Linked(AfterLoad(v, loaded), slot, open)
  {
  }

  /** Dropping a note from the history keeps it fitting the user. */
  lemma DeleteLinked(v: AppView, id: int, deleted: Result<(), DbError>, slot: Option<SlotValue>, open: bool)
    requires Linked(v, slot, open)
    ensures Linked(AfterDelete(v, id, deleted), slot, open)
  {
    DeleteKeepsHistoryFit(v, id);
  }

  /** The store's delete and the history's filter agree: the history stays
      the user's listing on the store after the delete, and a refused delete
      leaves both alone. */
  lemma DeleteListed(v: AppView, id: int, deleted: Result<(), DbError>, st: DbState, st': DbState, open: bool)
    requires Store.Valid(st) && HistoryListed(v, st, open) && v.currentUser.Some?
    requires open ==> (st', deleted) == Store.DeleteNote(st, id, v.currentUser.value.id)
    requires !open ==> st' == st
    ensures HistoryListed(AfterDelete(v, id, deleted), st', open)
  {
    if open && deleted.Ok? {
      DeleteUnlists(st, id, v.currentUser.value.id);
    } else if open {
      DeleteNoteOutcome(st, id, v.currentUser.value.id);
    }
  }

  /** An upgrade rewrites a user row and no note, so the history stays the
      listing of the same user id. */
  lemma UpgradeListed(v: AppView, updated: Result<User, AuthError>, st: DbState, st': DbState, open: bool)
    requires HistoryListed(v, st, open) && v.currentUser.Some?
    requires updated.Ok? ==> updated.value.id == v.currentUser.value.id
    requires st'.notes == st.notes
    ensures HistoryListed(AfterUpgrade(v, updated), st', open)
  {
    if open {
      ListingFollowsNotes(st, st', v.currentUser.value.id, v.history);
    }
  }

  /** An upgrade replaces the current user by a record of the same id, which
      the session slot then holds; a failed one leaves the slot alone. */
  lemma UpgradeLinked(v: AppView, updated: Result<User, AuthError>, slot: Option<SlotValue>, slot': Option<SlotValue>, open: bool)
    requires Linked(v, slot, open) && v.currentUser.Some?
    requires updated.Ok? ==> updated.value.id == v.currentUser.value.id && slot' == Some(Serialized(updated.value))
    requires updated.Err? ==> slot' == slot
    ensures Linked(AfterUpgrade(v, updated), slot', open)
  {
  }

  /** The App component: its state hooks, held as one `AppView` record that
      each setter replaces, and the store and the session slot it talks to. */
  class App {
    const db: Database
    const session: SessionSlot
    var state: AppView

    /** The component's invariant on its state, the session slot and the
        store. The store's own invariant, `db.Valid()`, is stated beside it
        by the handlers that use the store. */
    ghost predicate Valid()
      reads this, db, session
    {
      Linked(state, session.slot, db.open) && HistoryListed(state, db.Model(), db.open)
    }

    constructor (db: Database, session: SessionSlot)
      requires db.Valid() && !db.open
      ensures state == Initial
      ensures this.db == db && this.session == session
      ensures Valid()
    {
      this.db := db;
      this.session := session;
      state := Initial;
    }

    /** The mount effect: open the store, then restore the session's user,
        then show the main screen. A store that cannot be opened leaves the
        loading screen up. */
    method Initialize()
      requires Valid() && db.Valid() && state.appState.Loading? && state.currentUser.None?
      modifies this, db, session
      ensures db.Model() == old(db.Model())
      ensures !db.open ==> state == old(state)
      ensures db.open && Decode(old(session.slot)).None? ==> state == old(state).(appState := Idle)
      ensures db.open && Decode(old(session.slot)).Some? ==>
        && IsListing(db.Model(), Decode(old(session.slot)).value.id, state.history)
        && state == AfterLogin(old(state), Decode(old(session.slot)).value, false, Ok(state.history))
      ensures db.Valid() && Valid()
    {
      var ok := db.InitDB();
      if ok {
        RestoreSession();
      }
    }

    /** The rest of the mount effect once the store is open. */
    method RestoreSession()
      requires Valid() && db.Valid() && db.open
      modifies this, session
      ensures Decode(old(session.slot)).None? ==> state == old(state).(appState := Idle)
      ensures Decode(old(session.slot)).Some? ==>
        && IsListing(db.Model(), Decode(old(session.slot)).value.id, state.history)
        && state == AfterLogin(old(state), Decode(old(session.slot)).value, false, Ok(state.history)).(appState := Idle)
      ensures Valid()
    {
      var sessionUser := session.Get();
      if sessionUser.Some? {
        HandleLoginSuccess(sessionUser.value, false);
      }
      state := state.(appState := Idle);
    }

    /** requestLogin */
    method RequestLogin(confirmed: bool)
      requires Valid()
      modifies this
      ensures state == WithLoginRequested(old(state), confirmed)
      ensures Valid()
    {
      if state.appState.Success? && !state.isSaved {
        if !confirmed {
          return;
        }
      }
      state := state.(showAuthModal := true);
    }

    /** handleLoginSuccess: also records the user in the session slot. */
    method HandleLoginSuccess(user: User, closeModal: bool)
      requires Valid() && db.Valid()
      modifies this, session
      ensures session.slot == Some(Serialized(user))
      ensures db.open ==> IsListing(db.Model(), user.id, state.history) && state == AfterLogin(old(state), user, closeModal, Ok(state.history))
      ensures !db.open ==> state == AfterLogin(old(state), user, closeModal, Err(NotOpen))
      ensures Valid()
    {
      ghost var v0, slot0 := state, session.slot;
      session.Set(user);
      var notes := db.GetAllNotes(user.id);
      state := AfterLogin(state, user, closeModal, notes);
      LoginLinked(v0, user, closeModal, notes, db.Model(), slot0, db.open);
    }

    /** handleLogout */
    method HandleLogout()
      requires Valid()
      modifies this, session
      ensures session.slot == None
      ensures state == AfterLogout(old(state))
      ensures Valid()
    {
      session.Clear();
      state := state.(currentUser := None, history := []);
      HandleReset(true, true);
    }

    /** handleStopRecording */
    method HandleStopRecording()
      requires Valid()
      modifies this
      ensures state == AfterStop(old(state))
      ensures Valid()
    {
      if state.timerSet {
        state := state.(timerSet := false, ticking := false);
      }
      if state.recorder == Recorder(true) {
        state := state.(recorder := Recorder(false), stopPending := true);
      }
    }

    /** handleStartRecording, with the microphone's answer as an input. */
    method HandleStartRecording(micGranted: bool)
      requires Valid()
      modifies this
      ensures state == AfterStart(old(state), micGranted)
      ensures Valid()
    {
      state := state.(error := None, audioBlob := None, isSaved := false);
      if state.appState.Recording? {
        return;
      }
      if !micGranted {
        state := state.(error := Some(MicrophoneDenied), appState := Error);
        return;
      }
      state := state.(recorder := Recorder(true), audioChunks := [], appState := Recording,
                      elapsedTime := 0, timerSet := true, ticking := true,
                      strayIntervals := state.strayIntervals + (if state.ticking then 1 else 0));
    }

    /** One firing of an interval set up by handleStartRecording. */
    method Tick()
      requires Valid() && LiveIntervals(state) > 0
      modifies this
      ensures state == AfterTick(old(state))
      ensures Valid()
    {
      var newTime := state.elapsedTime + 1;
      ghost var v0 := state;
      TickAdvancesClock(v0);
      state := state.(elapsedTime := newTime);
      LinkedKept(v0, state, session.slot, db.Model(), db.open);
      if state.recordingLimit > 0 && newTime >= state.recordingLimit {
        HandleStopRecording();
      }
    }

    /** The recorder's `ondataavailable`. */
    method DataAvailable(chunk: Blob)
      requires Valid()
      modifies this
      ensures state == AfterData(old(state), chunk)
      ensures Valid()
    {
      state := state.(audioChunks := state.audioChunks + [chunk]);
    }

    /** The recorder's `onstop`, up to the call of the notes generator. */
    method RecorderStopped()
      requires Valid() && state.stopPending
      modifies this
      ensures state == AfterRecorderStop(old(state))
      ensures Valid()
    {
      state := state.(appState := Generating, audioBlob := Some(Blob(Joined(state.audioChunks), "audio/webm")),
                      stopPending := false, generationPending := true);
    }

    /** The rest of `onstop`, once the generator has answered (`None`: it failed). */
    method GenerationFinished(draft: Option<Draft>)
      requires Valid() && state.generationPending
      modifies this
      ensures state == AfterGeneration(old(state), draft)
      ensures Valid()
    {
      var userId := if state.currentUser.Some? then state.currentUser.value.id else 0;
      match draft {
        case Some(d) =>
          state := state.(appState := Success(NoteOf(d, userId)), isSaved := false, generationPending := false);
        case None =>
          state := state.(error := Some(GenerationFailed), appState := Error, generationPending := false);
      }
    }

    /** handleReset, with the user's answer to the dialog as an input. */
    method HandleReset(force: bool, confirmed: bool)
      requires Valid()
      modifies this
      ensures state == AfterReset(old(state), force, confirmed)
      ensures Valid()
    {
      if !force && state.appState.Success? && !state.isSaved {
        if !confirmed {
          return;
        }
      }
      state := state.(ticking := false, appState := Idle, error := None, audioChunks := [],
                      audioBlob := None, elapsedTime := 0, isSaved := false);
    }

    /** handleSave: a guest is asked to log in; without audio nothing
        happens; otherwise the note is stored under the current user's id,
        shown as saved, and the history is listed again. A refusal by the
        store shows the error banner. */
    method HandleSave(noteToSave: NoteData, now: int, confirmed: bool)
      requires Valid() && db.Valid()
      modifies this, db
      ensures db.Handle() == old(db.Handle())
      ensures old(state.currentUser).None? ==>
        state == WithLoginRequested(old(state), confirmed) && db.Model() == old(db.Model())
      ensures old(state.currentUser).Some? && old(state.audioBlob).None? ==>
        state == old(state) && db.Model() == old(db.Model())
      ensures old(state.currentUser).Some? && old(state.audioBlob).Some? ==>
        var toStore := noteToSave.(userId := old(state.currentUser).value.id);
        if old(db.open) && toStore.userId != 0 then
          var (st, res) := Store.SaveNote(old(db.Model()), toStore, old(state.audioBlob).value, now);
          && db.Model() == st
          && (res.Ok? ==>
               && IsListing(st, toStore.userId, state.history)
               && state == old(state).(appState := Success(res.value), isSaved := true, history := state.history))
          && (res.Err? ==> state == old(state).(error := Some(SaveFailed)))
        else
          db.Model() == old(db.Model()) && state == old(state).(error := Some(SaveFailed))
      ensures db.Valid() && Valid()
    {
      if state.currentUser.None? {
        RequestLogin(confirmed);
        return;
      }
      if state.audioBlob.None? {
        return;
      }
      SaveRecording(noteToSave, now);
    }

    /** The part of handleSave that runs for a logged-in user with audio:
        the note goes to the store under the user's id; on success it is
        shown as saved and the history is listed again, on a refusal the
        error banner shows. */
    method SaveRecording(noteToSave: NoteData, now: int)
      requires Valid() && db.Valid() && state.currentUser.Some? && state.audioBlob.Some?
      modifies this, db
      ensures db.Handle() == old(db.Handle())
      ensures var toStore := noteToSave.(userId := old(state.currentUser).value.id);
        if old(db.open) && toStore.userId != 0 then
          var (st, res) := Store.SaveNote(old(db.Model()), toStore, old(state.audioBlob).value, now);
          && db.Model() == st
          && (res.Ok? ==>
               && IsListing(st, toStore.userId, state.history)
               && state == old(state).(appState := Success(res.value), isSaved := true, history := state.history))
          && (res.Err? ==> state == old(state).(error := Some(SaveFailed)))
        else
          db.Model() == old(db.Model()) && state == old(state).(error := Some(SaveFailed))
      ensures db.Valid() && Valid()
    {
      var user := state.currentUser.value;
      ghost var st0 := db.Model();
      var saved := db.SaveNote(noteToSave.(userId := user.id), state.audioBlob.value, now);
      SaveNoteOutcome(st0, noteToSave.(userId := user.id), old(state.audioBlob).value, now);
      if saved.Err? {
        state := state.(error := Some(SaveFailed));
        return;
      }
      ShowSaved(saved.value);
    }

    /** The rest of handleSave once the store has taken the note: the
        user's notes are listed again and become the history. */
    method ShowSaved(saved: NoteData)
      requires Linked(state, session.slot, db.open) && db.Valid() && state.currentUser.Some? && db.open
      modifies this
      ensures IsListing(db.Model(), old(state.currentUser).value.id, state.history)
      ensures state == old(state).(appState := Success(saved), isSaved := true, history := state.history)
      ensures Valid()
    {
      var notes := db.GetAllNotes(state.currentUser.value.id);
      ghost var v0 := state;
      state := AfterSave(state, saved, notes);
      SaveLinked(v0, saved, notes, db.Model(), session.slot, db.open);
    }

    /** handleUpdateNote */
    method HandleUpdateNote(updatedNote: NoteData)
      requires Valid()
      modifies this
      ensures state == AfterUpdateNote(old(state), updatedNote)
      ensures Valid()
    {
      if state.appState.Success? {
        state := state.(appState := Success(updatedNote), isSaved := false);
      }
    }

    /** handleShowHistory: a guest is asked to log in; unsaved notes need the
        user's agreement; then the user's notes are listed and shown. */
    method HandleShowHistory(confirmed: bool)
      requires Valid() && db.Valid()
      modifies this
      ensures old(state.currentUser).None? ==> state == WithLoginRequested(old(state), confirmed)
      ensures old(state.currentUser).Some? && Unsaved(old(state)) && !confirmed ==> state == old(state)
      ensures old(state.currentUser).Some? && !(Unsaved(old(state)) && !confirmed) ==>
        if db.open then
          IsListing(db.Model(), old(state.currentUser).value.id, state.history)
          && state == old(state).(history := state.history, appState := History)
        else state == old(state)
      ensures Valid()
    {
      if state.currentUser.None? {
        RequestLogin(confirmed);
        return;
      }
      if state.appState.Success? && !state.isSaved {
        if !confirmed {
          return;
        }
      }
      var user := state.currentUser.value;
      var notes := db.GetAllNotes(user.id);
      ghost var v0 := state;
      state := AfterListing(state, notes);
      ListingLinked(v0, notes, db.Model(), session.slot, db.open);
    }

    /** handleLoadNote: a guest is asked to log in; otherwise the user's own
        note is shown, saved, with its audio; any failure shows the error
        screen. */
    method HandleLoadNote(id: int, confirmed: bool)
      requires Valid() && db.Valid()
      modifies this
      ensures old(state.currentUser).None? ==> state == WithLoginRequested(old(state), confirmed)
      ensures old(state.currentUser).Some? ==>
        var res := if db.open then Store.GetNoteWithAudio(db.Model(), id, old(state.currentUser).value.id) else Err(NotOpen);
        && (res.Ok? ==> state == old(state).(appState := Success(res.value.0), audioBlob := Some(res.value.1), isSaved := true))
        && (res.Err? ==> state == old(state).(error := Some(LoadFailed), appState := Error))
      ensures Valid()
    {
      if state.currentUser.None? {
        RequestLogin(confirmed);
        return;
      }
      var loaded := db.GetNoteWithAudio(id, state.currentUser.value.id);
      ghost var v0 := state;
      state := AfterLoad(state, loaded);
      LoadLinked(v0, loaded, session.slot, db.open);
    }

    /** handleDeleteNote: only for a logged-in user who confirms; the row is
        deleted from the store and the note from the history. */
    method HandleDeleteNote(id: int, confirmed: bool)
      requires Valid() && db.Valid()
      modifies this, db
      ensures db.Handle() == old(db.Handle())
      ensures old(state.currentUser).None? || !confirmed ==> state == old(state) && db.Model() == old(db.Model())
      ensures old(state.currentUser).Some? && confirmed ==>
        var res := if old(db.open) then Store.DeleteNote(old(db.Model()), id, old(state.currentUser).value.id).1 else Err(NotOpen);
        && (old(db.open) ==> db.Model() == Store.DeleteNote(old(db.Model()), id, old(state.currentUser).value.id).0)
        && (!old(db.open) ==> db.Model() == old(db.Model()))
        && state == AfterDelete(old(state), id, res)
      ensures db.Valid() && Valid()
    {
      if state.currentUser.None? {
        return;
      }
      if confirmed {
        DeleteOwnNote(id);
      }
    }

    /** The confirmed part of handleDeleteNote: the store deletes the row if
        it is the user's, and then the note leaves the history. */
    method DeleteOwnNote(id: int)
      requires Valid() && db.Valid() && state.currentUser.Some?
      modifies this, db
      ensures db.Handle() == old(db.Handle())
      ensures var res := if old(db.open) then Store.DeleteNote(old(db.Model()), id, old(state.currentUser).value.id).1 else Err(NotOpen);
        && (old(db.open) ==> db.Model() == Store.DeleteNote(old(db.Model()), id, old(state.currentUser).value.id).0)
        && (!old(db.open) ==> db.Model() == old(db.Model()))
        && state == AfterDelete(old(state), id, res)
      ensures db.Valid() && Valid()
    {
      ghost var st0 := db.Model();
      var deleted := db.DeleteNote(id, state.currentUser.value.id);
      ghost var v0 := state;
      state := AfterDelete(state, id, deleted);
      DeleteLinked(v0, id, deleted, session.slot, db.open);
      DeleteListed(v0, id, deleted, st0, db.Model(), db.open);
    }

    /** handleShowPricing */
    method HandleShowPricing()
      requires Valid()
      modifies this
      ensures state == old(state).(appState := Pricing)
      ensures Valid()
    {
      state := state.(appState := Pricing);
    }

    /** handleProceedToCheckout */
    method HandleProceedToCheckout(confirmed: bool)
      requires Valid()
      modifies this
      ensures state == AfterCheckout(old(state), confirmed)
      ensures Valid()
    {
      if state.currentUser.None? {
        RequestLogin(confirmed);
        return;
      }
      state := state.(appState := Checkout);
    }

    /** handlePaymentSuccess: without a user, an error, the main screen and a
        login request (judged on the screen the payment was made from); with
        one, the plan upgrade, whose result becomes the current user. */
    method HandlePaymentSuccess(confirmed: bool)
      requires Valid() && db.Valid()
      modifies this, db, session
      ensures db.Handle() == old(db.Handle())
      ensures old(state.currentUser).None? ==>
        && state == WithLoginRequested(old(state), confirmed).(error := Some(AuthenticationLost), appState := Idle)
        && db.Model() == old(db.Model())
      ensures old(state.currentUser).Some? && old(db.open) ==>
        var (st, res) := UpgradePlan(old(db.Model()), old(state.currentUser).value.id);
        && db.Model() == st
        && (res.Ok? ==> state == old(state).(currentUser := Some(res.value), appState := Idle) && res.value.plan == Pro)
        && (res.Err? ==> state == old(state).(error := Some(UpgradeFailed)))
      ensures old(state.currentUser).Some? && !old(db.open) ==>
        db.Model() == old(db.Model()) && state == old(state).(error := Some(UpgradeFailed))
      ensures db.Valid() && Valid()
    {
      if state.currentUser.None? {
        PaymentWithoutUser(confirmed);
      } else {
        UpgradeCurrentUser();
      }
    }

    /** The guest branch of handlePaymentSuccess. */
    method PaymentWithoutUser(confirmed: bool)
      requires Valid() && state.currentUser.None?
      modifies this
      ensures state == WithLoginRequested(old(state), confirmed).(error := Some(AuthenticationLost), appState := Idle)
      ensures Valid()
    {
      var showModal := !(state.appState.Success? && !state.isSaved) || confirmed;
      state := state.(error := Some(AuthenticationLost), appState := Idle);
      if showModal {
        state := state.(showAuthModal := true);
      }
    }

    /** The logged-in branch of handlePaymentSuccess. */
    method UpgradeCurrentUser()
      requires Valid() && db.Valid() && state.currentUser.Some?
      modifies this, db, session
      ensures db.Handle() == old(db.Handle())
      ensures old(db.open) ==>
        var (st, res) := UpgradePlan(old(db.Model()), old(state.currentUser).value.id);
        && db.Model() == st
        && (res.Ok? ==> state == old(state).(currentUser := Some(res.value), appState := Idle) && res.value.plan == Pro)
        && (res.Err? ==> state == old(state).(error := Some(UpgradeFailed)))
      ensures !old(db.open) ==>
        db.Model() == old(db.Model()) && state == old(state).(error := Some(UpgradeFailed))
      ensures db.Valid() && Valid()
    {
      var user := state.currentUser.value;
      ghost var v0, slot0, open0, st0 := state, session.slot, db.open, db.Model();
      var updated := UpdateUserPlan(db, session, user.id);
      state := AfterUpgrade(state, updated);
      UpgradeLinked(v0, updated, slot0, session.slot, open0);
      UpgradeListed(v0, updated, st0, db.Model(), open0);
    }
  }
}
