/** The records shared by the store, the identity service and the session
    state machine: users, notes, the status enum and the tagged application
    state, plus the Option and Result wrappers used for absent values and
    failed calls. */
module Types {

  datatype Option<T> = None | Some(value: T)

  datatype Result<T, E> = Ok(value: T) | Err(error: E)

  /** JavaScript truthiness of an optional number: absent and 0 are falsy. */
  predicate Truthy(x: Option<int>) {
    x.Some? && x.value != 0
  }

  /** JavaScript truthiness of an optional string: absent and "" are falsy. */
  predicate Given(x: Option<string>) {
    x.Some? && x.value != ""
  }

  datatype Plan = Free | Pro

  /** A user record; `id` is the primary key assigned by the users table. */
  datatype User = User(id: int, username: string, plan: Plan, googleId: Option<string>)

  datatype KeyTopic = KeyTopic(topic: string, points: seq<string>)

  /** A note; `id` and `createdAt` are absent until the note is first saved. */
  datatype NoteData = NoteData(
    id: Option<int>,
    userId: int,
    title: string,
    summary: string,
    keyTopics: seq<KeyTopic>,
    transcription: string,
    createdAt: Option<int>)

  /** Binary audio: its bytes and its MIME type. */
  datatype Blob = Blob(bytes: seq<bv8>, mimeType: string)

  /** The members of the `Status` enum, spelled as the enum spells them. */
  datatype Status =
    | LOADING | IDLE | RECORDING | GENERATING | SUCCESS
    | ERROR | HISTORY | AUTH | PRICING | CHECKOUT

  /** The tagged application state: only `Success` carries a note. */
  datatype AppState =
    | Loading | Idle | Recording | Generating | Success(note: NoteData)
    | History | Error | Auth | Pricing | Checkout
  {
    function StatusOf(): (s: Status)
      ensures s == LOADING <==> Loading?
      ensures s == IDLE <==> Idle?
      ensures s == RECORDING <==> Recording?
      ensures s == GENERATING <==> Generating?
      ensures s == SUCCESS <==> Success?
      ensures s == HISTORY <==> History?
      ensures s == ERROR <==> Error?
      ensures s == AUTH <==> Auth?
      ensures s == PRICING <==> Pricing?
      ensures s == CHECKOUT <==> Checkout?
    {
      match this
      case Loading => LOADING
      case Idle => IDLE
      case Recording => RECORDING
      case Generating => GENERATING
      case Success(_) => SUCCESS
      case History => HISTORY
      case Error => ERROR
      case Auth => AUTH
      case Pricing => PRICING
      case Checkout => CHECKOUT
    }
  }
}
