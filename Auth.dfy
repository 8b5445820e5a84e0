/** `services/authService.ts`: find-or-create sign-in by Google subject id,
    the read-modify-write plan upgrade, and the per-tab session slot that
    remembers the signed-in user. The meaning of each service call is a
    function of the store state (`SignIn`, `UpgradePlan`); the methods run
    the same steps against a `Db.Database` and are proved against them. */
module Auth {
  import opened Types
  import opened Store
  import opened Db

  /** The claims of a decoded Google identity token that the service reads. */
  datatype GoogleJwtPayload = GoogleJwtPayload(sub: string, email: string, name: string)

  /** Why a plan upgrade failed: no such user, or the store refused. */
  datatype AuthError = UserNotFound | StoreFailed(cause: DbError)

  // ---------------------------------------------------------------------
  // Sign-in

  /** handleGoogleSignIn: the user whose googleId is the token's subject,
      if one exists (and nothing is written); otherwise a new user named by
      the token's email and linked to its subject. */
  ghost function SignIn(st: DbState, p: GoogleJwtPayload): (r: (DbState, Result<User, DbError>))
    ensures GoogleIdTaken(st.users, p.sub) ==>
      && r.0 == st && r.1.Ok?
      && r.1.value in st.users.Values && r.1.value.googleId == Some(p.sub)
    ensures !GoogleIdTaken(st.users, p.sub) ==> r == AddUser(st, p.email, Some(p.sub))
  {
    var existing := FindUserByGoogleId(st, p.sub);
    if existing.Some? then (st, Ok(existing.value))
    else AddUser(st, p.email, Some(p.sub))
  }

  /** A first sign-in creates exactly one free-plan user, named by the email
      and carrying the subject, unless the email is already a username. */
  lemma SignInCreates(st: DbState, p: GoogleJwtPayload)
    requires Valid(st)
    requires !GoogleIdTaken(st.users, p.sub) && p.sub != ""
    ensures var (st', r) := SignIn(st, p);
      && (r.Ok? <==> !UsernameTaken(st.users, p.email))
      && (r.Ok? ==>
        && r.value.username == p.email && r.value.googleId == Some(p.sub) && r.value.plan == Free
        && r.value.id !in st.users
        && st'.users.Keys == st.users.Keys + {r.value.id}
        && (forall k :: k in st.users ==> st'.users[k] == st.users[k])
        && st'.notes == st.notes)
  {
    var (st', r) := SignIn(st, p);
    if r.Ok? {
      assert st.nextUserId !in st.users;
      assert st'.users.Keys == st.users.Keys + {st.nextUserId};
    }
  }

  /** Signing in a second time with the same subject returns the same user
      and writes nothing. */
  lemma SignInTwice(st: DbState, p: GoogleJwtPayload)
    requires Valid(st)
    requires p.sub != ""
    requires SignIn(st, p).1.Ok?
    ensures var (st1, r1) := SignIn(st, p);
      SignIn(st1, p) == (st1, r1)
  {
    var (st1, r1) := SignIn(st, p);
    if GoogleIdTaken(st.users, p.sub) {
      var k :| k in st.users && st.users[k].googleId == Some(p.sub);
      FindUserByGoogleIdUnique(st, p.sub, k);
      FindUserByGoogleIdUnique(st1, p.sub, k);
    } else {
      AddUserPreservesValid(st, p.email, Some(p.sub));
      var k := r1.value.id;
      assert k in st1.users && st1.users[k].googleId == Some(p.sub);
      FindUserByGoogleIdUnique(st1, p.sub, k);
    }
  }

  /** With an empty subject the token links nothing: the first sign-in
      creates a user without a googleId, and the second fails because the
      email is already a username. */
  lemma EmptySubjectSignsInOnce(email: string, name: string)
    ensures var p := GoogleJwtPayload("", email, name);
      var (st1, r1) := SignIn(Store.Empty, p);
      && r1 == Ok(User(1, email, Free, None))
      && SignIn(st1, p) == (st1, Err(ConstraintError))
  {
    var p := GoogleJwtPayload("", email, name);
    assert !GoogleIdTaken(Store.Empty.users, "");
    var (st1, r1) := SignIn(Store.Empty, p);
    assert st1.users == map[1 := User(1, email, Free, None)];
    assert !GoogleIdTaken(st1.users, "");
    assert UsernameTaken(st1.users, email) by {
      assert st1.users[1].username == email;
    }
  }

  // ---------------------------------------------------------------------
  // Plan upgrade

  /** updateUserPlan: reads the user by id, fails when there is none, and
      writes back the same record with only the plan replaced by Pro. */
  function UpgradePlan(st: DbState, userId: int): (r: (DbState, Result<User, AuthError>))
    ensures userId !in st.users ==> r == (st, Err(UserNotFound))
    ensures r.1.Err? ==> r.0 == st
    ensures r.1.Ok? ==>
      && userId in st.users
      && r.1.value == st.users[userId].(plan := Pro)
      && r.0.users == st.users[userId := r.1.value]
      && r.0.notes == st.notes
  {
    match FindUserById(st, userId)
    case None => (st, Err(UserNotFound))
    case Some(rec) =>
      var (st', w) := UpdateUser(st, rec.(plan := Pro));
      if w.Ok? then (st', Ok(w.value)) else (st', Err(StoreFailed(w.error)))
  }

  /** On a consistent store the upgrade of an existing user always succeeds:
      the record keeps its own username and googleId, which no other row
      holds. Every field but the plan is unchanged, and so is every other user. */
  lemma UpgradePlanSucceeds(st: DbState, userId: int)
    requires Valid(st) && userId in st.users
    ensures var (st', r) := UpgradePlan(st, userId);
      && r.Ok?
      && r.value.plan == Pro
      && r.value.id == userId
      && r.value.username == st.users[userId].username
      && r.value.googleId == st.users[userId].googleId
      && (forall k :: k in st.users && k != userId ==> st'.users[k] == st.users[k])
      && st'.users.Keys == st.users.Keys
      && Valid(st')
  {
    var rec := st.users[userId];
    assert !Conflicts(st.users, rec.(plan := Pro)) by {
      assert forall k :: k in st.users && k != userId ==> st.users[k].username != rec.username;
      assert rec.googleId.Some? ==> forall k :: k in st.users && k != userId ==> st.users[k].googleId != rec.googleId;
    }
    UpdateUserPreservesValid(st, rec.(plan := Pro));
  }

  // ---------------------------------------------------------------------
  // Session slot

  /** What the session storage entry holds: a serialised user, or text that
      does not parse (including the empty string). */
  datatype SlotValue = Serialized(user: User) | Malformed

  /** getCurrentUserSession on a given slot: the stored user, or nothing
      when the entry is missing or does not parse. */
  function Decode(slot: Option<SlotValue>): (r: Option<User>)
    ensures r.Some? <==> slot.Some? && slot.value.Serialized?
    ensures r.Some? ==> slot == Some(Serialized(r.value))
  {
    match slot
    case None => None
    case Some(Malformed) => None
    case Some(Serialized(u)) => Some(u)
  }

  /** The one session-storage entry under the service's key. */
  class SessionSlot {
    var slot: Option<SlotValue>

    constructor ()
      ensures slot == None
    {
      slot := None;
    }

    /** setCurrentUserSession */
    method Set(user: User)
      modifies this
      ensures slot == Some(Serialized(user))
    {
      slot := Some(Serialized(user));
    }

    /** getCurrentUserSession */
    method Get() returns (r: Option<User>)
      ensures r == Decode(slot)
      ensures r.Some? <==> slot.Some? && slot.value.Serialized?
    {
      if slot.None? {
        return None;
      }
      match slot.value
      case Malformed => r := None;
      case Serialized(u) => r := Some(u);
    }

    /** clearCurrentUserSession */
    method Clear()
      modifies this
      ensures slot == None
    {
      slot := None;
    }
  }

  /** A set followed by a get returns the user set; a clear followed by a
      get returns nothing. */
  lemma SessionRoundTrip(u: User)
    ensures Decode(Some(Serialized(u))) == Some(u)
    ensures Decode(None) == None
    ensures Decode(Some(Malformed)) == None
  {
  }

  // ---------------------------------------------------------------------
  // The service calls

  /** handleGoogleSignIn against the database. */
  method HandleGoogleSignIn(db: Database, p: GoogleJwtPayload) returns (r: Result<User, DbError>)
    requires db.Valid()
    modifies db
    ensures db.Valid() && db.Handle() == old(db.Handle())
    ensures old(db.open) ==> (db.Model(), r) == SignIn(old(db.Model()), p)
    ensures !old(db.open) ==> r == Err(NotOpen) && db.Model() == old(db.Model())
  {
    var existing := db.GetUserByGoogleId(p.sub);
    if existing.Err? {
      return Err(existing.error);
    }
    if existing.value.Some? {
      return Ok(existing.value.value);
    }
    r := db.AddUser(p.email, Some(p.sub));
  }

  /** updateUserPlan against the database; a successful upgrade is also
      written to the session slot. */
  method UpdateUserPlan(db: Database, session: SessionSlot, userId: int) returns (r: Result<User, AuthError>)
    requires db.Valid()
    modifies db, session
    ensures db.Valid() && db.Handle() == old(db.Handle())
    ensures old(db.open) ==> (db.Model(), r) == UpgradePlan(old(db.Model()), userId)
    ensures !old(db.open) ==> r == Err(StoreFailed(NotOpen)) && db.Model() == old(db.Model())
    ensures r.Ok? ==> r.value.id == userId && r.value.plan == Pro && session.slot == Some(Serialized(r.value))
    ensures r.Err? ==> session.slot == old(session.slot)
  {
    var found := db.GetUserById(userId);
    if found.Err? {
      return Err(StoreFailed(found.error));
    }
    if found.value.None? {
      return Err(UserNotFound);
    }
    var rec := found.value.value;
    var written := db.UpdateUser(rec.(plan := Pro));
    if written.Err? {
      return Err(StoreFailed(written.error));
    }
    session.Set(written.value);
    r := Ok(written.value);
  }
}
