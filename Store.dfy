/** The per-browser note and user store of `services/dbService.ts`, as values.

    `DbState` holds the two object stores (rows keyed by their primary key)
    and the key generator of each; `Schema` records which object stores and
    which index names exist. Every operation of the service is a function
    from the old state to the new state and the value it resolves with (or
    the error it rejects with). The class `Db.Database` performs the same
    operations in place and is proved against these functions. */
module Store {
  import opened Types

  /** The schema version the service opens the database at. */
  const DB_VERSION: nat := 5

  datatype DbError =
    | NotOpen           // the module handle is still unassigned
    | VersionError      // the browser holds a newer schema version
    | ConstraintError   // a unique index or the primary key is already taken
    | ValidationError   // saveNote without a (truthy) userId
    | NotFoundOrDenied  // the one error for "no such note" and "not yours"

  /** A row of the notes store: the note, its key and timestamp, and its audio. */
  datatype NoteRow = NoteRow(note: NoteData, audioBlob: Blob)

  /** The contents of both object stores and the next key each would assign. */
  datatype DbState = DbState(
    notes: map<int, NoteRow>,
    users: map<int, User>,
    nextNoteId: int,
    nextUserId: int)

  /** An empty database: both key generators start at 1. */
  const Empty := DbState(map[], map[], 1, 1)

  ghost predicate UniqueUsernames(users: map<int, User>) {
    forall a, b :: a in users && b in users && users[a].username == users[b].username ==> a == b
  }

  /** The googleId index is unique over the users that have a googleId. */
  ghost predicate UniqueGoogleIds(users: map<int, User>) {
    forall a, b :: a in users && b in users && users[a].googleId.Some? && users[a].googleId == users[b].googleId ==> a == b
  }

  /** What the object stores and their unique indexes guarantee of every state. */
  ghost predicate Valid(st: DbState) {
    && st.nextNoteId >= 1
    && st.nextUserId >= 1
    && (forall k :: k in st.notes ==> k < st.nextNoteId && st.notes[k].note.id == Some(k))
    && (forall k :: k in st.users ==> k < st.nextUserId && st.users[k].id == k)
    && UniqueUsernames(st.users)
    && UniqueGoogleIds(st.users)
  }

  /** A key generator moves past every numeric key written explicitly. */
  function Bump(next: int, key: int): (r: int)
    ensures r >= next && r > key
    ensures r == next || r == key + 1
  {
    if key >= next then key + 1 else next
  }

  // ---------------------------------------------------------------------
  // Schema upgrade

  /** The index names of each object store; `None` when the store is absent. */
  datatype Schema = Schema(notesIndexes: Option<set<string>>, usersIndexes: Option<set<string>>)

  function IndexesOf(store: Option<set<string>>): set<string> {
    if store.Some? then store.value else {}
  }

  /** The schema of version 5: notes indexed by owner, users by username and
      googleId, and the retired appleId index gone. */
  ghost predicate IsCurrent(s: Schema) {
    && s.notesIndexes.Some? && "userId" in s.notesIndexes.value
    && s.usersIndexes.Some?
    && "username" in s.usersIndexes.value
    && "googleId" in s.usersIndexes.value
    && "appleId" !in s.usersIndexes.value
  }

  /** The schema after the upgrade handler: missing stores and indexes are
      created, appleId is dropped, and every other index is kept. */
  function UpgradeSchema(s: Schema): (r: Schema)
    ensures IsCurrent(r)
    ensures IndexesOf(s.notesIndexes) <= r.notesIndexes.value
    ensures IndexesOf(s.usersIndexes) - {"appleId"} <= r.usersIndexes.value
    ensures r.notesIndexes.value <= IndexesOf(s.notesIndexes) + {"userId"}
    ensures r.usersIndexes.value <= IndexesOf(s.usersIndexes) + {"username", "googleId"}
  {
    Schema(Some(IndexesOf(s.notesIndexes) + {"userId"}),
           Some(IndexesOf(s.usersIndexes) + {"username", "googleId"} - {"appleId"}))
  }

  lemma UpgradeIdempotent(s: Schema)
    ensures UpgradeSchema(UpgradeSchema(s)) == UpgradeSchema(s)
  {
    UpgradeFixesCurrent(UpgradeSchema(s));
  }

  /** On a current schema the upgrade changes nothing. */
  lemma UpgradeFixesCurrent(s: Schema)
    requires IsCurrent(s)
    ensures UpgradeSchema(s) == s
  {
    assert IndexesOf(s.notesIndexes) + {"userId"} == s.notesIndexes.value;
    assert IndexesOf(s.usersIndexes) + {"username", "googleId"} - {"appleId"} == s.usersIndexes.value;
  }

  // ---------------------------------------------------------------------
  // Users

  predicate UsernameTaken(users: map<int, User>, name: string) {
    exists k :: k in users && users[k].username == name
  }

  predicate GoogleIdTaken(users: map<int, User>, g: string) {
    exists k :: k in users && users[k].googleId == Some(g)
  }

  /** addUser: a new free-plan user under the next key; the googleId is
      recorded only when one is given (a non-empty string). */
  function AddUser(st: DbState, username: string, googleId: Option<string>): (r: (DbState, Result<User, DbError>))
  {
    var user := User(st.nextUserId, username, Free, if Given(googleId) then googleId else None);
    if UsernameTaken(st.users, username) || (Given(googleId) && GoogleIdTaken(st.users, googleId.value)) then
      (st, Err(ConstraintError))
    else
      (st.(users := st.users[user.id := user], nextUserId := st.nextUserId + 1), Ok(user))
  }

  /** addUser refuses a username or a given googleId already in use, and
      then writes nothing; otherwise the new free-plan user takes the next
      key, which the generator moves past. */
  lemma AddUserOutcome(st: DbState, username: string, googleId: Option<string>)
    ensures var (st', r) := AddUser(st, username, googleId);
      && (r.Ok? <==> !UsernameTaken(st.users, username) && !(Given(googleId) && GoogleIdTaken(st.users, googleId.value)))
      && (r.Err? ==> st' == st && r.error == ConstraintError)
      && (r.Ok? ==>
           && r.value == User(st.nextUserId, username, Free, if Given(googleId) then googleId else None)
           && st' == st.(users := st.users[st.nextUserId := r.value], nextUserId := st.nextUserId + 1))
  {
  }

  lemma AddUserPreservesValid(st: DbState, username: string, googleId: Option<string>)
    requires Valid(st)
    ensures Valid(AddUser(st, username, googleId).0)
  {
    var (st', r) := AddUser(st, username, googleId);
    if r.Ok? {
      assert st.nextUserId !in st.users;
      assert forall k :: k in st.users ==> st.users[k].username != username;
      assert Given(googleId) ==> forall k :: k in st.users ==> st.users[k].googleId != googleId;
    }
  }

  /** getUserById: a point lookup on the primary key. */
  function FindUserById(st: DbState, id: int): (r: Option<User>)
    ensures r.Some? <==> id in st.users
    ensures r.Some? ==> r.value == st.users[id]
  {
    if id in st.users then Some(st.users[id]) else None
  }

  /** getUserByGoogleId: a point lookup on the googleId index. */
  ghost function FindUserByGoogleId(st: DbState, g: string): (r: Option<User>)
    ensures r.Some? <==> GoogleIdTaken(st.users, g)
    ensures r.Some? ==> r.value in st.users.Values && r.value.googleId == Some(g)
  {
    if GoogleIdTaken(st.users, g) then
      var k :| k in st.users && st.users[k].googleId == Some(g);
      Some(st.users[k])
    else
      None
  }

  /** With the googleId index unique, the lookup finds the one user holding it. */
  lemma FindUserByGoogleIdUnique(st: DbState, g: string, k: int)
    requires Valid(st)
    requires k in st.users && st.users[k].googleId == Some(g)
    ensures FindUserByGoogleId(st, g) == Some(st.users[k])
  {
  }

  /** Another row, under a different key, holds the username or googleId of `user`. */
  predicate Conflicts(users: map<int, User>, user: User) {
    exists k :: k in users && k != user.id &&
      (users[k].username == user.username || (user.googleId.Some? && users[k].googleId == user.googleId))
  }

  /** updateUser: `put` of the whole record under its own id. */
  function UpdateUser(st: DbState, user: User): (r: (DbState, Result<User, DbError>))
  {
    if Conflicts(st.users, user) then (st, Err(ConstraintError))
    else (st.(users := st.users[user.id := user], nextUserId := Bump(st.nextUserId, user.id)), Ok(user))
  }

  /** updateUser fails, writing nothing, exactly when another row holds the
      record's username or googleId; otherwise the record replaces the row
      under its id and the notes are untouched. */
  lemma UpdateUserOutcome(st: DbState, user: User)
    ensures var (st', r) := UpdateUser(st, user);
      && (r.Ok? <==> !Conflicts(st.users, user))
      && (r.Err? ==> st' == st && r.error == ConstraintError)
      && (r.Ok? ==> r.value == user && st'.users == st.users[user.id := user] && st'.notes == st.notes)
  {
  }

  lemma UpdateUserPreservesValid(st: DbState, user: User)
    requires Valid(st)
    ensures Valid(UpdateUser(st, user).0)
  {
    var (st', r) := UpdateUser(st, user);
    if r.Ok? {
      assert forall k :: k in st.users && k != user.id ==> st.users[k].username != user.username;
      assert user.googleId.Some? ==> forall k :: k in st.users && k != user.id ==> st.users[k].googleId != user.googleId;
    }
  }

  // ---------------------------------------------------------------------
  // Notes

  /** saveNote: refuses a note without an owner; otherwise stores the note
      with its audio, overwriting the row named by a (truthy) id or adding a
      row under the next key, and keeps a (truthy) createdAt or stamps `now`.
      A note whose id is 0 is added under the explicit key 0. The note it
      resolves with is exactly the note stored. */
  function SaveNote(st: DbState, note: NoteData, blob: Blob, now: int): (r: (DbState, Result<NoteData, DbError>))
  {
    if note.userId == 0 then (st, Err(ValidationError))
    else
      var createdAt := if Truthy(note.createdAt) then note.createdAt else Some(now);
      if Truthy(note.id) then
        var saved := note.(createdAt := createdAt);
        (st.(notes := st.notes[note.id.value := NoteRow(saved, blob)],
             nextNoteId := Bump(st.nextNoteId, note.id.value)), Ok(saved))
      else if note.id.Some? then
        if 0 in st.notes then (st, Err(ConstraintError))
        else
          var saved := note.(createdAt := createdAt);
          (st.(notes := st.notes[0 := NoteRow(saved, blob)]), Ok(saved))
      else
        var saved := note.(id := Some(st.nextNoteId), createdAt := createdAt);
        (st.(notes := st.notes[st.nextNoteId := NoteRow(saved, blob)], nextNoteId := st.nextNoteId + 1), Ok(saved))
  }

  /** The outcome of saveNote: it fails exactly for owner 0 (a validation
      error) or for the explicit id 0 when that key is taken, and then writes
      nothing. Otherwise the stored note is the given one with its id and
      creation time filled in (an existing time kept, else `now`; an id kept,
      else the generator's), written under that id; the users are untouched. */
  lemma SaveNoteOutcome(st: DbState, note: NoteData, blob: Blob, now: int)
    ensures SaveNote(st, note, blob, now).1.Err? <==> note.userId == 0 || (note.id == Some(0) && 0 in st.notes)
    ensures SaveNote(st, note, blob, now).1.Err? ==> SaveNote(st, note, blob, now).0 == st
    ensures note.userId == 0 ==> SaveNote(st, note, blob, now).1 == Err(ValidationError)
    ensures var (st', r) := SaveNote(st, note, blob, now);
      r.Ok? ==>
        var saved := r.value;
        && saved.id.Some?
        && saved.createdAt == (if Truthy(note.createdAt) then note.createdAt else Some(now))
        && saved.(id := note.id, createdAt := note.createdAt) == note
        && (note.id.Some? ==> saved.id == note.id)
        && (note.id.None? ==> saved.id == Some(st.nextNoteId))
        && st'.notes == st.notes[saved.id.value := NoteRow(saved, blob)]
        && st'.users == st.users && st'.nextUserId == st.nextUserId
  {
  }

  lemma SaveNotePreservesValid(st: DbState, note: NoteData, blob: Blob, now: int)
    requires Valid(st)
    ensures Valid(SaveNote(st, note, blob, now).0)
  {
  }

  /** A note without an id always lands in a fresh row: the store grows by one. */
  lemma SaveNewNoteAddsRow(st: DbState, note: NoteData, blob: Blob, now: int)
    requires Valid(st) && note.id.None? && note.userId != 0
    ensures var (st', r) := SaveNote(st, note, blob, now);
      && r.Ok? && r.value.id.value !in st.notes
      && st'.notes.Keys == st.notes.Keys + {r.value.id.value}
      && |st'.notes| == |st.notes| + 1
  {
    var (st', r) := SaveNote(st, note, blob, now);
    assert st.nextNoteId !in st.notes;
    assert st'.notes.Keys == st.notes.Keys + {st.nextNoteId};
  }

  /** Re-saving the note a save resolved with (perhaps edited, with other
      audio, at another time) overwrites its row: no row is added and the
      original timestamp is kept. */
  lemma ResaveAddsNoRow(st: DbState, note: NoteData, blob: Blob, now: int, edited: NoteData, blob': Blob, later: int)
    requires Valid(st)
    requires SaveNote(st, note, blob, now).1.Ok?
    requires var saved := SaveNote(st, note, blob, now).1.value;
      edited.id == saved.id && edited.createdAt == saved.createdAt && edited.userId == saved.userId
    requires edited.id != Some(0) && Truthy(edited.createdAt)
    ensures var st1 := SaveNote(st, note, blob, now).0;
      var (st2, r) := SaveNote(st1, edited, blob', later);
      && r.Ok? && r.value.id == edited.id && r.value.createdAt == edited.createdAt
      && st2.notes.Keys == st1.notes.Keys
  {
    var (st1, r1) := SaveNote(st, note, blob, now);
    var k := r1.value.id.value;
    assert k in st1.notes;
    SaveNotePreservesValid(st, note, blob, now);
    var (st2, r) := SaveNote(st1, edited, blob', later);
    assert st2.notes.Keys == st1.notes.Keys + {k};
  }

  /** The row `id` exists and belongs to `userId`. */
  predicate Owns(st: DbState, id: int, userId: int) {
    id in st.notes && st.notes[id].note.userId == userId
  }

  /** getNoteWithAudio: the row split into the note and its audio, for its owner only. */
  function GetNoteWithAudio(st: DbState, id: int, userId: int): (r: Result<(NoteData, Blob), DbError>)
    ensures r.Ok? <==> Owns(st, id, userId)
    ensures r.Err? ==> r.error == NotFoundOrDenied
    ensures r.Ok? ==> r.value.0 == st.notes[id].note && r.value.1 == st.notes[id].audioBlob
  {
    if Owns(st, id, userId) then Ok((st.notes[id].note, st.notes[id].audioBlob)) else Err(NotFoundOrDenied)
  }

  /** deleteNote: removes exactly the row `id`, and only for its owner. */
  function DeleteNote(st: DbState, id: int, userId: int): (r: (DbState, Result<(), DbError>))
  {
    if Owns(st, id, userId) then (st.(notes := st.notes - {id}), Ok(())) else (st, Err(NotFoundOrDenied))
  }

  /** deleteNote succeeds exactly for the row's owner, and then the row and
      nothing else is gone; otherwise nothing changes. */
  lemma DeleteNoteOutcome(st: DbState, id: int, userId: int)
    ensures var (st', r) := DeleteNote(st, id, userId);
      && (r.Ok? <==> Owns(st, id, userId))
      && (r.Err? ==> r.error == NotFoundOrDenied && st' == st)
      && (r.Ok? ==>
           && st'.notes.Keys == st.notes.Keys - {id} && st'.users == st.users
           && forall k :: k in st'.notes ==> st'.notes[k] == st.notes[k])
  {
  }

  /** A deleted note can be neither fetched nor deleted again. */
  lemma DeleteIsFinal(st: DbState, id: int, userId: int, anyUser: int)
    requires DeleteNote(st, id, userId).1.Ok?
    ensures var st' := DeleteNote(st, id, userId).0;
      && GetNoteWithAudio(st', id, anyUser) == Err(NotFoundOrDenied)
      && DeleteNote(st', id, anyUser) == (st', Err(NotFoundOrDenied))
      && (forall k :: k in st.notes && k != id ==> k in st'.notes && st'.notes[k] == st.notes[k])
  {
  }

  lemma DeleteNotePreservesValid(st: DbState, id: int, userId: int)
    requires Valid(st)
    ensures Valid(DeleteNote(st, id, userId).0)
  {
  }

  // ---------------------------------------------------------------------
  // Listing

  /** A row getAllNotes(userId) returns: owned by the user and time-stamped. */
  predicate Listed(row: NoteRow, userId: int) {
    row.note.userId == userId && Truthy(row.note.createdAt)
  }

  ghost function ListedNotes(st: DbState, userId: int): set<NoteData> {
    set k | k in st.notes && Listed(st.notes[k], userId) :: st.notes[k].note
  }

  function DateOf(n: NoteData): int {
    if n.createdAt.Some? then n.createdAt.value else 0
  }

  function KeyOf(n: NoteData): int {
    if n.id.Some? then n.id.value else 0
  }

  /** The listing order: newest first; the index scan yields equal timestamps
      in key order, and the stable sort keeps that order. */
  predicate Before(a: NoteData, b: NoteData) {
    DateOf(a) > DateOf(b) || (DateOf(a) == DateOf(b) && KeyOf(a) < KeyOf(b))
  }

  predicate Ordered(s: seq<NoteData>) {
    forall i, j :: 0 <= i < j < |s| ==> Before(s[i], s[j])
  }

  /** `r` is what getAllNotes(userId) resolves with on the state `st`:
      exactly the listed notes, in listing order. */
  ghost predicate IsListing(st: DbState, userId: int, r: seq<NoteData>) {
    (forall n :: n in r <==> n in ListedNotes(st, userId)) && Ordered(r)
  }

  /** Inserts a note into an ordered listing at its place. */
  function InsertOrdered(s: seq<NoteData>, n: NoteData): (r: seq<NoteData>)
    requires Ordered(s)
    requires forall m :: m in s ==> KeyOf(m) != KeyOf(n)
    ensures Ordered(r)
    ensures forall m :: m in r <==> m == n || m in s
    ensures |r| == |s| + 1
  {
    if s == [] || Before(n, s[0]) then
      assert forall j :: 0 < j < |s| ==> Before(s[0], s[j]);
      [n] + s
    else
      var rest := InsertOrdered(s[1..], n);
      forall m | m in rest ensures Before(s[0], m) {
        if m != n {
          var j :| 0 <= j < |s[1..]| && s[1..][j] == m;
          assert s[j + 1] == m;
        }
      }
      [s[0]] + rest
  }

  /** A listing holds only the user's own time-stamped notes, newest first. */
  lemma ListingIsolated(st: DbState, userId: int, r: seq<NoteData>)
    requires IsListing(st, userId, r)
    ensures forall n :: n in r ==> n.userId == userId && Truthy(n.createdAt)
    ensures forall i, j :: 0 <= i < j < |r| ==> DateOf(r[i]) >= DateOf(r[j])
  {
    forall n | n in r ensures n.userId == userId && Truthy(n.createdAt) {
      assert n in ListedNotes(st, userId);
      var k :| k in st.notes && Listed(st.notes[k], userId) && st.notes[k].note == n;
    }
    forall i, j | 0 <= i < j < |r| ensures DateOf(r[i]) >= DateOf(r[j]) {
      assert Before(r[i], r[j]);
    }
  }

  /** In an ordered sequence the head comes before every other element. */
  lemma HeadIsFirst(s: seq<NoteData>, x: NoteData)
    requires Ordered(s) && x in s
    ensures x == s[0] || Before(s[0], x)
  {
    var i :| 0 <= i < |s| && s[i] == x;
    assert i == 0 || Before(s[0], s[i]);
  }

  /** Two ordered sequences with the same elements are equal. */
  lemma {:induction false} OrderedUnique(a: seq<NoteData>, b: seq<NoteData>)
    requires Ordered(a) && Ordered(b)
    requires forall n :: n in a <==> n in b
    ensures a == b
    decreases |a|
  {
    assert a != [] ==> a[0] in b;
    assert b != [] ==> b[0] in a;
    if a != [] && b != [] {
      HeadIsFirst(a, b[0]);
      HeadIsFirst(b, a[0]);
      forall n ensures n in a[1..] <==> n in b[1..] {
        if n in a[1..] {
          var i :| 1 <= i < |a| && a[i] == n;
          assert Before(a[0], a[i]);
          assert n in b;
          var j :| 0 <= j < |b| && b[j] == n;
          assert j != 0;
        }
        if n in b[1..] {
          var j :| 1 <= j < |b| && b[j] == n;
          assert Before(b[0], b[j]);
          assert n in a;
          var i :| 0 <= i < |a| && a[i] == n;
          assert i != 0;
        }
      }
      OrderedUnique(a[1..], b[1..]);
      assert a == [a[0]] + a[1..];
      assert b == [b[0]] + b[1..];
    }
  }

  /** getAllNotes is determined by the state: there is one listing per user. */
  lemma ListingUnique(st: DbState, userId: int, r1: seq<NoteData>, r2: seq<NoteData>)
    requires IsListing(st, userId, r1) && IsListing(st, userId, r2)
    ensures r1 == r2
  {
    OrderedUnique(r1, r2);
  }

  /** A delete takes from the owner's listed notes exactly the one whose id
      is deleted. */
  lemma DeleteUnlists(st: DbState, id: int, userId: int)
    requires Valid(st) && DeleteNote(st, id, userId).1.Ok?
    ensures forall n :: n in ListedNotes(DeleteNote(st, id, userId).0, userId) <==>
      n in ListedNotes(st, userId) && n.id != Some(id)
  {
    var st' := DeleteNote(st, id, userId).0;
    forall n ensures n in ListedNotes(st', userId) <==> n in ListedNotes(st, userId) && n.id != Some(id) {
      if n in ListedNotes(st', userId) {
        var k :| k in st'.notes && Listed(st'.notes[k], userId) && st'.notes[k].note == n;
        assert k in st.notes && st.notes[k] == st'.notes[k] && k != id;
      }
      if n in ListedNotes(st, userId) && n.id != Some(id) {
        var k :| k in st.notes && Listed(st.notes[k], userId) && st.notes[k].note == n;
        assert k in st'.notes;
      }
    }
  }

  /** The listing depends on the notes store alone. */
  lemma ListingFollowsNotes(st: DbState, st': DbState, userId: int, r: seq<NoteData>)
    requires st'.notes == st.notes && IsListing(st, userId, r)
    ensures IsListing(st', userId, r)
  {
    assert ListedNotes(st', userId) == ListedNotes(st, userId);
  }

  /** A note saved under one user never appears in another user's listing,
      and cannot be fetched by another user. */
  lemma OwnershipIsolation(st: DbState, note: NoteData, blob: Blob, now: int, other: int, r: seq<NoteData>)
    requires other != note.userId
    requires SaveNote(st, note, blob, now).1.Ok?
    requires IsListing(SaveNote(st, note, blob, now).0, other, r)
    ensures SaveNote(st, note, blob, now).1.value !in r
    ensures GetNoteWithAudio(SaveNote(st, note, blob, now).0, SaveNote(st, note, blob, now).1.value.id.value, other) == Err(NotFoundOrDenied)
  {
    ListingIsolated(SaveNote(st, note, blob, now).0, other, r);
  }

  // ---------------------------------------------------------------------
  // Two scenarios

  /** Creating the same username twice fails the second time and leaves the
      first user in place. */
  lemma DuplicateUsernameRejected(name: string)
    ensures var (st1, r1) := AddUser(Empty, name, None);
      && r1 == Ok(User(1, name, Free, None))
      && AddUser(st1, name, None) == (st1, Err(ConstraintError))
      && st1.users == map[1 := r1.value]
  {
    var (st1, r1) := AddUser(Empty, name, None);
    assert st1.users[1].username == name;
    assert UsernameTaken(st1.users, name);
  }

  /** alice saves one note; her listing is exactly that note, time-stamped. */
  lemma AliceSavesOneNote(title: string, audio: Blob, now: int, r: seq<NoteData>)
    requires now != 0
    requires var (st1, alice) := AddUser(Empty, "alice", None);
      var note := NoteData(None, alice.value.id, title, "s", [KeyTopic("t", ["p1"])], "...", None);
      IsListing(SaveNote(st1, note, audio, now).0, alice.value.id, r)
    ensures |r| == 1 && r[0].title == title && r[0].createdAt == Some(now) && r[0].id == Some(1)
  {
    var (st1, alice) := AddUser(Empty, "alice", None);
    var note := NoteData(None, alice.value.id, title, "s", [KeyTopic("t", ["p1"])], "...", None);
    var (st2, saved) := SaveNote(st1, note, audio, now);
    var n := saved.value;
    assert st2.notes == map[1 := NoteRow(n, audio)];
    assert 1 in st2.notes && Listed(st2.notes[1], alice.value.id);
    assert n in ListedNotes(st2, alice.value.id);
    assert ListedNotes(st2, alice.value.id) == {n};
    assert [n] == [n] && IsListing(st2, alice.value.id, [n]);
    ListingUnique(st2, alice.value.id, r, [n]);
  }
}
