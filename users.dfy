/** The account record the auth and user slices hold (`User` in
    `src/types/microfrontend.ts`, with the `phone` and `bio` fields the profile
    screens read), a partial update of it, and the object spread `{...user, ...patch}`
    that applies one. */
module Users {
  import opened Wrappers

  datatype User = User(id: string, email: string, name: string, avatar: Option<string>,
                       phone: Option<string>, bio: Option<string>, role: string, permissions: seq<string>)

  /** A `Partial<User>`: each field present (`Some`) or not supplied (`None`). */
  datatype UserPatch = UserPatch(id: Option<string>, email: Option<string>, name: Option<string>,
                                 avatar: Option<string>, phone: Option<string>, bio: Option<string>,
                                 role: Option<string>, permissions: Option<seq<string>>)

  /** The patch that supplies nothing. */
  const EmptyPatch: UserPatch := UserPatch(None, None, None, None, None, None, None, None)

  /** A supplied value wins over the current one. */
  function Pick<T>(supplied: Option<T>, current: T): (r: T)
    ensures supplied.Some? ==> r == supplied.value
    ensures supplied.None? ==> r == current
  {
    if supplied.Some? then supplied.value else current
  }

  /** A supplied value wins over an optional current one. */
  function PickOptional<T>(supplied: Option<T>, current: Option<T>): (r: Option<T>)
    ensures supplied.Some? ==> r == supplied
    ensures supplied.None? ==> r == current
  {
    if supplied.Some? then supplied else current
  }

  /** `{...user, ...patch}`: every supplied field overwrites, every other field is kept. */
  function Merge(u: User, p: UserPatch): (r: User)
    ensures r.id == Pick(p.id, u.id) && r.email == Pick(p.email, u.email) && r.name == Pick(p.name, u.name)
    ensures r.avatar == PickOptional(p.avatar, u.avatar) && r.phone == PickOptional(p.phone, u.phone)
    ensures r.bio == PickOptional(p.bio, u.bio)
    ensures r.role == Pick(p.role, u.role) && r.permissions == Pick(p.permissions, u.permissions)
  {
    User(Pick(p.id, u.id), Pick(p.email, u.email), Pick(p.name, u.name), PickOptional(p.avatar, u.avatar),
         PickOptional(p.phone, u.phone), PickOptional(p.bio, u.bio), Pick(p.role, u.role),
         Pick(p.permissions, u.permissions))
  }

  /** Spreading a patch that supplies nothing gives the record back. */
  lemma MergeEmpty(u: User)
    ensures Merge(u, EmptyPatch) == u
  {
  }

  /** Applying the same patch twice is applying it once. */
  lemma MergeIdempotent(u: User, p: UserPatch)
    ensures Merge(Merge(u, p), p) == Merge(u, p)
  {
  }
}
