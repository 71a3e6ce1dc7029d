/**
 * The user document of backend/src/models/User.ts: name, email and password required, email
 * unique across the collection, the two reset fields defaulting to null, and the `createdAt` /
 * `updatedAt` timestamps the schema adds.
 */
module UserModel {
  import opened Wrappers
  import opened Text
  import opened Seqs

  /** A stored user; `id` is the database's `_id`, `None` in the reset fields is `null`. */
  datatype User = User(
    id: string,
    name: string,
    email: string,
    password: string,
    resetToken: Option<string>,
    resetExpires: Option<int>,
    createdAt: int,
    updatedAt: int)

  /** A user document as it reaches the schema, before validation and defaults. */
  datatype RawUser = RawUser(
    name: Option<string>,
    email: Option<string>,
    password: Option<string>,
    resetToken: Option<string>,
    resetExpires: Option<int>)

  /** The schema on a new document saved at `now`: the three required paths must be present and
      non-empty; the reset fields keep what was given, `null` when nothing was; both timestamps are
      `now`. */
  function ValidateUser(raw: RawUser, id: string, now: int): (r: Option<User>)
    ensures r.Some? <==> Present(raw.name) && Present(raw.email) && Present(raw.password)
    ensures r.Some? ==>
      && r.value.id == id && r.value.name == raw.name.value && r.value.email == raw.email.value
      && r.value.password == raw.password.value
      && r.value.resetToken == raw.resetToken && r.value.resetExpires == raw.resetExpires
      && r.value.createdAt == now && r.value.updatedAt == now
  {
    if Present(raw.name) && Present(raw.email) && Present(raw.password) then
      Some(User(id, raw.name.value, raw.email.value, raw.password.value, raw.resetToken, raw.resetExpires, now, now))
    else None
  }

  /** `new User({ name, email, password })`: nothing given for the reset fields. */
  function NewUserDoc(name: string, email: string, password: string): RawUser {
    RawUser(Some(name), Some(email), Some(password), None, None)
  }

  function ToRawUser(u: User): RawUser {
    RawUser(Some(u.name), Some(u.email), Some(u.password), u.resetToken, u.resetExpires)
  }

  /** The typed invariant the schema enforces on one user. */
  predicate ValidUser(u: User) {
    u.id != "" && u.name != "" && u.email != "" && u.password != ""
  }

  /** The `unique` index on `email`. */
  ghost predicate UniqueEmails(users: seq<User>) {
    forall i, j :: 0 <= i < j < |users| ==> users[i].email != users[j].email
  }

  /** `_id` is unique in every collection. */
  ghost predicate UniqueIds(users: seq<User>) {
    forall i, j :: 0 <= i < j < |users| ==> users[i].id != users[j].id
  }

  /** A new user built from present fields has both reset fields null and both timestamps `now`. */
  lemma NewUserDefaults(id: string, name: string, email: string, password: string, now: int)
    requires name != "" && email != "" && password != ""
    ensures var r := ValidateUser(NewUserDoc(name, email, password), id, now);
      && r.Some?
      && r.value == User(id, name, email, password, None, None, now, now)
  {
  }

  /** A user the typed invariant admits passes the schema with its fields unchanged (the save
      stamps the time), and every user the schema accepts with a non-empty id is valid. */
  lemma UserSchemaRoundTrip(u: User, now: int)
    ensures ValidUser(u) ==> ValidateUser(ToRawUser(u), u.id, now) == Some(u.(createdAt := now, updatedAt := now))
    ensures forall raw: RawUser :: ValidateUser(raw, u.id, now).Some? && u.id != "" ==>
      ValidUser(ValidateUser(raw, u.id, now).value)
  {
  }

  /** `User.findOne({ email })`. */
  function UserWithEmail(users: seq<User>, email: string): (r: Option<nat>)
    ensures r.Some? ==> r.value < |users| && users[r.value].email == email
    ensures r.Some? ==> forall j :: 0 <= j < r.value ==> users[j].email != email
    ensures r.None? <==> forall j :: 0 <= j < |users| ==> users[j].email != email
  {
    FindFirst(users, (u: User) => u.email == email)
  }

  /** `User.findById(id)`. */
  function UserWithId(users: seq<User>, id: string): (r: Option<nat>)
    ensures r.Some? ==> r.value < |users| && users[r.value].id == id
    ensures r.Some? ==> forall j :: 0 <= j < r.value ==> users[j].id != id
    ensures r.None? <==> forall j :: 0 <= j < |users| ==> users[j].id != id
  {
    FindFirst(users, (u: User) => u.id == id)
  }

  /** With unique emails, the user found by email is the only one holding it. */
  lemma UserWithEmailUnique(users: seq<User>, i: nat)
    requires UniqueEmails(users) && i < |users|
    ensures UserWithEmail(users, users[i].email) == Some(i)
  {
  }

  lemma UserWithIdUnique(users: seq<User>, i: nat)
    requires UniqueIds(users) && i < |users|
    ensures UserWithId(users, users[i].id) == Some(i)
  {
  }
}
