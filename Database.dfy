/** `services/dbService.ts` as an object: the module's database handle, the
    schema the browser records, and the two object stores with their key
    generators, all updated in place. Each call is one atomic transaction;
    each method is proved against the function of module `Store` that gives
    the service's meaning. */
module Db {
  import opened Types
  import opened Store

  class Database {
    /** The schema version the browser has recorded for the database. */
    var version: nat
    /** Whether the module handle `db` has been assigned by a successful open. */
    var open: bool
    var schema: Schema
    var notes: map<int, NoteRow>
    var users: map<int, User>
    var nextNoteId: int
    var nextUserId: int

    /** The contents of both object stores. */
    ghost function Model(): DbState
      reads this
    {
      DbState(notes, users, nextNoteId, nextUserId)
    }

    /** The handle and the schema, which only `InitDB` changes. */
    ghost function Handle(): (nat, bool, Schema)
      reads this
    {
      (version, open, schema)
    }

    ghost predicate Valid()
      reads this
    {
      && Store.Valid(Model())
      && (version == DB_VERSION ==> IsCurrent(schema))
      && (open ==> version == DB_VERSION)
      && (schema.notesIndexes.None? ==> notes == map[] && nextNoteId == 1)
      && (schema.usersIndexes.None? ==> users == map[] && nextUserId == 1)
    }

    /** The database as the browser holds it before the page opens it. */
    constructor (storedVersion: nat, storedSchema: Schema, rows: DbState)
      requires Store.Valid(rows)
      requires storedVersion == DB_VERSION ==> IsCurrent(storedSchema)
      requires storedSchema.notesIndexes.None? ==> rows.notes == map[] && rows.nextNoteId == 1
      requires storedSchema.usersIndexes.None? ==> rows.users == map[] && rows.nextUserId == 1
      ensures Valid() && !open && version == storedVersion && schema == storedSchema && Model() == rows
    {
      version := storedVersion;
      open := false;
      schema := storedSchema;
      notes := rows.notes;
      users := rows.users;
      nextNoteId := rows.nextNoteId;
      nextUserId := rows.nextUserId;
    }

    /** initDB: a no-op once the handle is assigned; otherwise opens at
        version 5, running the upgrade when the recorded version is older and
        failing when it is newer. No row changes. */
    method InitDB() returns (ok: bool)
      requires Valid()
      modifies this
      ensures Valid() && Model() == old(Model()) && ok == open
      ensures old(open) ==> ok && Handle() == old(Handle())
      ensures !old(open) && old(version) > DB_VERSION ==> !ok && Handle() == old(Handle())
      ensures !old(open) && old(version) <= DB_VERSION ==>
        && ok && version == DB_VERSION
        && schema == (if old(version) < DB_VERSION then UpgradeSchema(old(schema)) else old(schema))
    {
      if open {
        return true;
      }
      if version > DB_VERSION {
        return false;
      }
      if version < DB_VERSION {
        Upgrade();
        version := DB_VERSION;
      }
      open := true;
      ok := true;
    }

    /** The upgrade handler, one store and one index at a time. */
    method Upgrade()
      requires Valid()
      modifies this`schema
      ensures schema == UpgradeSchema(old(schema))
    {
      var notesIndexes := if schema.notesIndexes.None? then {} else schema.notesIndexes.value;
      if "userId" !in notesIndexes {
        notesIndexes := notesIndexes + {"userId"};
      }
      var usersIndexes := if schema.usersIndexes.None? then {} else schema.usersIndexes.value;
      if "username" !in usersIndexes {
        usersIndexes := usersIndexes + {"username"};
      }
      if "googleId" !in usersIndexes {
        usersIndexes := usersIndexes + {"googleId"};
      }
      if "appleId" in usersIndexes {
        usersIndexes := usersIndexes - {"appleId"};
      }
      assert usersIndexes == IndexesOf(old(schema).usersIndexes) + {"username", "googleId"} - {"appleId"};
      assert notesIndexes == IndexesOf(old(schema).notesIndexes) + {"userId"};
      schema := Schema(Some(notesIndexes), Some(usersIndexes));
    }

    method AddUser(username: string, googleId: Option<string>) returns (r: Result<User, DbError>)
      requires Valid()
      modifies this
      ensures Valid() && Handle() == old(Handle())
      ensures old(open) ==> (Model(), r) == Store.AddUser(old(Model()), username, googleId)
      ensures !old(open) ==> r == Err(NotOpen) && Model() == old(Model())
    {
      if !open {
        return Err(NotOpen);
      }
      var user := User(nextUserId, username, Free, None);
      if Given(googleId) {
        user := user.(googleId := googleId);
      }
      if UsernameTaken(users, username) || (Given(googleId) && GoogleIdTaken(users, googleId.value)) {
        return Err(ConstraintError);
      }
      Store.AddUserPreservesValid(Model(), username, googleId);
      users := users[user.id := user];
      nextUserId := nextUserId + 1;
      r := Ok(user);
    }

    method GetUserByGoogleId(g: string) returns (r: Result<Option<User>, DbError>)
      requires Valid()
      ensures open ==> r == Ok(FindUserByGoogleId(Model(), g))
      ensures !open ==> r == Err(NotOpen)
    {
      if !open {
        return Err(NotOpen);
      }
      if GoogleIdTaken(users, g) {
        var k :| k in users && users[k].googleId == Some(g);
        FindUserByGoogleIdUnique(Model(), g, k);
        r := Ok(Some(users[k]));
      } else {
        r := Ok(None);
      }
    }

    method GetUserById(id: int) returns (r: Result<Option<User>, DbError>)
      requires Valid()
      ensures open ==> r == Ok(FindUserById(Model(), id))
      ensures !open ==> r == Err(NotOpen)
    {
      if !open {
        return Err(NotOpen);
      }
      r := Ok(if id in users then Some(users[id]) else None);
    }

    method UpdateUser(user: User) returns (r: Result<User, DbError>)
      requires Valid()
      modifies this
      ensures Valid() && Handle() == old(Handle())
      ensures old(open) ==> (Model(), r) == Store.UpdateUser(old(Model()), user)
      ensures !old(open) ==> r == Err(NotOpen) && Model() == old(Model())
    {
      if !open {
        return Err(NotOpen);
      }
      if Conflicts(users, user) {
        return Err(ConstraintError);
      }
      Store.UpdateUserPreservesValid(Model(), user);
      users := users[user.id := user];
      if user.id >= nextUserId {
        nextUserId := user.id + 1;
      }
      r := Ok(user);
    }

    /** saveNote: the owner check comes first, before the handle is used. */
    method SaveNote(note: NoteData, blob: Blob, now: int) returns (r: Result<NoteData, DbError>)
      requires Valid()
      modifies this
      ensures Valid() && Handle() == old(Handle())
      ensures note.userId == 0 ==> r == Err(ValidationError) && Model() == old(Model())
      ensures note.userId != 0 && old(open) ==> (Model(), r) == Store.SaveNote(old(Model()), note, blob, now)
      ensures note.userId != 0 && !old(open) ==> r == Err(NotOpen) && Model() == old(Model())
    {
      if note.userId == 0 {
        return Err(ValidationError);
      }
      if !open {
        return Err(NotOpen);
      }
      var createdAt := if Truthy(note.createdAt) then note.createdAt else Some(now);
      var key: int;
      if Truthy(note.id) {
        // put: overwrite (or create) the row under the note's own key
        key := note.id.value;
        if key >= nextNoteId {
          nextNoteId := key + 1;
        }
      } else if note.id.Some? {
        // add with the explicit key 0
        key := 0;
        if key in notes {
          return Err(ConstraintError);
        }
      } else {
        // add: the key generator supplies the key
        key := nextNoteId;
        nextNoteId := nextNoteId + 1;
      }
      var saved := note.(id := Some(key), createdAt := createdAt);
      notes := notes[key := NoteRow(saved, blob)];
      r := Ok(saved);
      Store.SaveNotePreservesValid(old(Model()), note, blob, now);
    }

    /** getAllNotes: the rows owned by `userId`, those without a timestamp
        dropped, newest first. */
    method GetAllNotes(userId: int) returns (r: Result<seq<NoteData>, DbError>)
      requires Valid()
      ensures open ==> r.Ok? && IsListing(Model(), userId, r.value)
      ensures !open ==> r == Err(NotOpen)
    {
      if !open {
        return Err(NotOpen);
      }
      var pending := notes.Keys;
      var listing: seq<NoteData> := [];
      while exists k :: k in pending
        invariant pending <= notes.Keys
        invariant Ordered(listing)
        invariant forall n :: n in listing ==> KeyOf(n) in notes && KeyOf(n) !in pending && notes[KeyOf(n)].note == n
        invariant forall k :: k in notes && k !in pending && Listed(notes[k], userId) ==> notes[k].note in listing
        invariant forall n :: n in listing ==> Listed(notes[KeyOf(n)], userId)
        decreases pending
      {
        var k :| k in pending;
        var row := notes[k];
        if Listed(row, userId) {
          listing := InsertOrdered(listing, row.note);
        }
        pending := pending - {k};
      }
      forall n ensures n in listing <==> n in ListedNotes(Model(), userId) {
        if n in listing {
          assert KeyOf(n) in notes && notes[KeyOf(n)].note == n;
        }
      }
      r := Ok(listing);
    }

    method GetNoteWithAudio(id: int, userId: int) returns (r: Result<(NoteData, Blob), DbError>)
      requires Valid()
      ensures open ==> r == Store.GetNoteWithAudio(Model(), id, userId)
      ensures !open ==> r == Err(NotOpen)
    {
      if !open {
        return Err(NotOpen);
      }
      if id in notes && notes[id].note.userId == userId {
        var row := notes[id];
        r := Ok((row.note, row.audioBlob));
      } else {
        r := Err(NotFoundOrDenied);
      }
    }

    /** deleteNote: the ownership check and the delete run in one transaction. */
    method DeleteNote(id: int, userId: int) returns (r: Result<(), DbError>)
      requires Valid()
      modifies this
      ensures Valid() && Handle() == old(Handle())
      ensures old(open) ==> (Model(), r) == Store.DeleteNote(old(Model()), id, userId)
      ensures !old(open) ==> r == Err(NotOpen) && Model() == old(Model())
    {
      if !open {
        return Err(NotOpen);
      }
      if id in notes && notes[id].note.userId == userId {
        notes := notes - {id};
        r := Ok(());
      } else {
        r := Err(NotFoundOrDenied);
      }
    }
  }
}
