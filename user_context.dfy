/**
 * The signed-in user: an optional record that can be replaced outright or
 * updated by merging in a partial record.
 */
module UserContext {
  import opened Wrappers

  datatype User = User(fullName: string, email: string, phone: string, role: string, avatar: Option<string>)

  /**
   * A partial user: `None` leaves a field out. The avatar is optional in the
   * user itself, so an update may supply it as absent (`Some(None)`).
   */
  datatype UserUpdate = UserUpdate(
    fullName: Option<string>,
    email: Option<string>,
    phone: Option<string>,
    role: Option<string>,
    avatar: Option<Option<string>>)

  /** The update that supplies no field. */
  const NoFields: UserUpdate := UserUpdate(None, None, None, None, None)

  const InitialUser: User := User(
    "Ramesh Kamenani",
    "ramesh@goodseva.com",
    "+91 98765 43210",
    "Lorry Supplier",
    Some("https://i.pravatar.cc/150?img=12"))

  /** The supplied value if there is one, else the current one. */
  function Pick<T>(supplied: Option<T>, current: T): (r: T)
    ensures supplied.Some? ==> r == supplied.value
    ensures supplied.None? ==> r == current
  {
    if supplied.Some? then supplied.value else current
  }

  /** The spread `{ ...user, ...updates }`: later fields win. */
  function Merge(user: User, updates: UserUpdate): (r: User)
    ensures updates.fullName.Some? ==> r.fullName == updates.fullName.value
    ensures updates.fullName.None? ==> r.fullName == user.fullName
    ensures updates.email.Some? ==> r.email == updates.email.value
    ensures updates.email.None? ==> r.email == user.email
    ensures updates.phone.Some? ==> r.phone == updates.phone.value
    ensures updates.phone.None? ==> r.phone == user.phone
    ensures updates.role.Some? ==> r.role == updates.role.value
    ensures updates.role.None? ==> r.role == user.role
    ensures updates.avatar.Some? ==> r.avatar == updates.avatar.value
    ensures updates.avatar.None? ==> r.avatar == user.avatar
  {
    User(
      Pick(updates.fullName, user.fullName),
      Pick(updates.email, user.email),
      Pick(updates.phone, user.phone),
      Pick(updates.role, user.role),
      Pick(updates.avatar, user.avatar))
  }

  /** Spreading two partial records: `{ ...first, ...second }`. */
  function Combine(first: UserUpdate, second: UserUpdate): UserUpdate {
    UserUpdate(
      if second.fullName.Some? then second.fullName else first.fullName,
      if second.email.Some? then second.email else first.email,
      if second.phone.Some? then second.phone else first.phone,
      if second.role.Some? then second.role else first.role,
      if second.avatar.Some? then second.avatar else first.avatar)
  }

  /** An update that supplies no field changes nothing. */
  lemma MergeNoFields(user: User)
    ensures Merge(user, NoFields) == user
  {
  }

  /** Applying the same update twice is the same as applying it once. */
  lemma MergeIdempotent(user: User, updates: UserUpdate)
    ensures Merge(Merge(user, updates), updates) == Merge(user, updates)
  {
  }

  /** Two updates in a row equal one update with both, the second winning. */
  lemma MergeSequence(user: User, first: UserUpdate, second: UserUpdate)
    ensures Merge(Merge(user, first), second) == Merge(user, Combine(first, second))
  {
  }

  /** An update that supplies every field replaces the whole user. */
  lemma MergeAllFields(user: User, other: User)
    ensures Merge(user, UserUpdate(Some(other.fullName), Some(other.email), Some(other.phone),
                                   Some(other.role), Some(other.avatar))) == other
  {
  }

  class UserProvider {
    var user: Option<User>

    constructor ()
      ensures user == Some(InitialUser)
    {
      user := Some(InitialUser);
    }

    /** `setUser`: replaces the user, possibly with none. */
    method SetUser(u: Option<User>)
      modifies this
      ensures user == u
    {
      user := u;
    }

    /** `updateUser`: merges the update into a present user; with no user it does nothing. */
    method UpdateUser(updates: UserUpdate)
      modifies this
      ensures old(user).None? ==> user == None
      ensures old(user).Some? ==> user == Some(Merge(old(user).value, updates))
    {
      if user.Some? {
        user := Some(Merge(user.value, updates));
      }
    }
  }

  /** Signing out and then updating leaves no user. */
  method UpdateAfterSignOut(updates: UserUpdate) returns (u: Option<User>)
    ensures u == None
  {
    var p := new UserProvider();
    p.SetUser(None);
    p.UpdateUser(updates);
    u := p.user;
  }
}
