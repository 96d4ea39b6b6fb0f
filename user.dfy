/** The `user` slice (`src/store/slices/userSlice.ts`): the signed-in user's profile and
    preferences, a loading flag and an error, with five token-guarded thunks. */
module UserSlice {
  import opened Wrappers
  import opened Users
  import opened Thunks
  import ThemeSlice

  datatype NotificationPreferences = NotificationPreferences(push: bool, email: bool, sms: bool, marketing: bool)

  datatype UserPreferences = UserPreferences(theme: ThemeSlice.ThemeMode, language: string,
                                             notifications: NotificationPreferences)

  /** A `Partial<UserPreferences>`: a shallow patch, so a supplied `notifications`
      record replaces the whole nested record. */
  datatype PreferencesPatch = PreferencesPatch(theme: Option<ThemeSlice.ThemeMode>, language: Option<string>,
                                               notifications: Option<NotificationPreferences>)

  /** `{...preferences, ...patch}`. */
  function MergePreferences(p: UserPreferences, patch: PreferencesPatch): (r: UserPreferences)
    ensures r.theme == Pick(patch.theme, p.theme) && r.language == Pick(patch.language, p.language)
    ensures r.notifications == Pick(patch.notifications, p.notifications)
  {
    UserPreferences(Pick(patch.theme, p.theme), Pick(patch.language, p.language),
                    Pick(patch.notifications, p.notifications))
  }

  /** The data `updateUserProfile` sends. */
  datatype UpdateProfileData = UpdateProfileData(name: Option<string>, email: Option<string>,
                                                 avatar: Option<string>, phone: Option<string>)

  datatype UserFields = UserFields(profile: Option<User>, preferences: Option<UserPreferences>,
                                   isLoading: bool, error: Option<string>)

  const Initial: UserFields := UserFields(None, None, false, None)

  /** The five thunks; their `pending` and `rejected` cases are alike. */
  datatype UserThunk = FetchProfile | UpdateProfile | UploadAvatar | UpdatePreferences | DeleteAccount

  datatype UserAction =
    | ClearError
    | SetLoading(flag: bool)
    | UpdateLocalProfile(patch: UserPatch)
    | UpdateLocalPreferences(prefsPatch: PreferencesPatch)
    | ClearUserData
    | Pending(thunk: UserThunk)
    | ProfileFulfilled(user: User)
    | ProfileUpdated(updated: User)
    | AvatarUploaded(url: string)
    | PreferencesUpdated(preferences: UserPreferences)
    | AccountDeleted
    | Failed(failed: UserThunk, message: string)

  /** The reducer. Only the clearing cases and the two preference updates touch the
      preferences; a rejection keeps profile and preferences. */
  function Reduce(s: UserFields, a: UserAction): (r: UserFields)
    ensures r.preferences != s.preferences ==>
      a.UpdateLocalPreferences? || a.PreferencesUpdated? || a.ClearUserData? || a.AccountDeleted?
    ensures a.Failed? ==> r.profile == s.profile && r.preferences == s.preferences
  {
    match a
    case ClearError => s.(error := None)
    case SetLoading(b) => s.(isLoading := b)
    case UpdateLocalProfile(p) => if s.profile.Some? then s.(profile := Some(Merge(s.profile.value, p))) else s
    case UpdateLocalPreferences(p) =>
      if s.preferences.Some? then s.(preferences := Some(MergePreferences(s.preferences.value, p))) else s
    case ClearUserData => s.(profile := None, preferences := None, error := None)
    case Pending(_) => s.(isLoading := true, error := None)
    case ProfileFulfilled(u) => s.(isLoading := false, profile := Some(u), error := None)
    case ProfileUpdated(u) => s.(isLoading := false, profile := Some(u), error := None)
    case AvatarUploaded(url) =>
      s.(isLoading := false, error := None,
         profile := if s.profile.Some? then Some(s.profile.value.(avatar := Some(url))) else None)
    case PreferencesUpdated(p) => s.(isLoading := false, preferences := Some(p), error := None)
    case AccountDeleted => s.(isLoading := false, profile := None, preferences := None, error := None)
    case Failed(_, m) => s.(isLoading := false, error := Some(m))
  }

  /** The local updates do nothing without a target, and otherwise merge the supplied
      fields only. */
  lemma LocalUpdates(s: UserFields, p: UserPatch, q: PreferencesPatch)
    ensures s.profile.None? ==> Reduce(s, UpdateLocalProfile(p)) == s
    ensures s.profile.Some? ==> Reduce(s, UpdateLocalProfile(p)) == s.(profile := Some(Merge(s.profile.value, p)))
    ensures s.preferences.None? ==> Reduce(s, UpdateLocalPreferences(q)) == s
    ensures s.preferences.Some? ==>
      Reduce(s, UpdateLocalPreferences(q)) == s.(preferences := Some(MergePreferences(s.preferences.value, q)))
  {
  }

  /** `clearUserData` leaves the loading flag alone. */
  lemma ClearKeepsLoading(s: UserFields)
    ensures Reduce(s, ClearUserData) == UserFields(None, None, s.isLoading, None)
  {
  }

  /** Whether an action is the settling (`fulfilled` or `rejected`) case of a thunk. */
  predicate Settles(a: UserAction) {
    a.ProfileFulfilled? || a.ProfileUpdated? || a.AvatarUploaded? || a.PreferencesUpdated?
    || a.AccountDeleted? || a.Failed?
  }

  /** Pending cases raise the loading flag and clear the error; settling cases lower it;
      only the rejections leave an error. */
  lemma LoadingLifecycle(s: UserFields, a: UserAction)
    ensures a.Pending? ==> Reduce(s, a).isLoading && Reduce(s, a).error.None?
    ensures Settles(a) ==> !Reduce(s, a).isLoading
    ensures Settles(a) ==> (Reduce(s, a).error.Some? <==> a.Failed?)
  {
  }

  /** An uploaded avatar lands only on an existing profile, touching nothing else of it. */
  lemma AvatarOnlyWithProfile(s: UserFields, url: string)
    ensures s.profile.None? ==> Reduce(s, AvatarUploaded(url)).profile.None?
    ensures s.profile.Some? ==> Reduce(s, AvatarUploaded(url)).profile == Some(s.profile.value.(avatar := Some(url)))
  {
  }

  /** Fulfilled preferences replace the record: fields the old record had are not kept. */
  lemma PreferencesReplaced(s: UserFields, p: UserPreferences)
    ensures Reduce(s, PreferencesUpdated(p)).preferences == Some(p)
    ensures Reduce(s, AccountDeleted).profile.None? && Reduce(s, AccountDeleted).preferences.None?
  {
  }

  /** The action a thunk's result dispatches. */
  function SettleAction<T>(thunk: UserThunk, r: Settled<T>, onFulfilled: T -> UserAction): (a: UserAction)
    ensures r.Rejected? ==> a == Failed(thunk, r.message)
    ensures r.Fulfilled? ==> a == onFulfilled(r.payload)
  {
    match r
    case Fulfilled(v) => onFulfilled(v)
    case Rejected(m) => Failed(thunk, m)
  }

  /** `fetchUserProfile`. */
  function FetchUserProfile(token: Option<string>, answer: Settled<User>): (r: (Settled<User>, bool))
    ensures !Truthy(token) ==> r == (Rejected(NoTokenMessage), false)
    ensures Truthy(token) ==> r.1 && (answer.Fulfilled? ==> r.0 == answer)
    ensures Truthy(token) && answer.Rejected? ==> r.0 == Rejected(OrDefault(answer.message, "Failed to fetch profile"))
  {
    Guarded(token, answer, "Failed to fetch profile")
  }

  /** `updateUserProfile`, given the profile data it sends. */
  function UpdateUserProfile(token: Option<string>, data: UpdateProfileData, answer: Settled<User>)
    : (r: (Settled<User>, bool))
    ensures !Truthy(token) ==> r == (Rejected(NoTokenMessage), false)
    ensures Truthy(token) ==> r.1 && (answer.Fulfilled? ==> r.0 == answer)
    ensures Truthy(token) && answer.Rejected? ==> r.0 == Rejected(OrDefault(answer.message, "Failed to update profile"))
  {
    Guarded(token, answer, "Failed to update profile")
  }

  /** `uploadAvatar`: resolves to the new avatar URL. */
  function UploadAvatarThunk(token: Option<string>, imageUri: string, answer: Settled<string>)
    : (r: (Settled<string>, bool))
    ensures !Truthy(token) ==> r == (Rejected(NoTokenMessage), false)
    ensures Truthy(token) ==> r.1 && (answer.Fulfilled? ==> r.0 == answer)
    ensures Truthy(token) && answer.Rejected? ==> r.0 == Rejected(OrDefault(answer.message, "Failed to upload avatar"))
  {
    Guarded(token, answer, "Failed to upload avatar")
  }

  /** `updateUserPreferences`: resolves to the record the service answers with. */
  function UpdateUserPreferences(token: Option<string>, patch: PreferencesPatch, answer: Settled<UserPreferences>)
    : (r: (Settled<UserPreferences>, bool))
    ensures !Truthy(token) ==> r == (Rejected(NoTokenMessage), false)
    ensures Truthy(token) ==> r.1 && (answer.Fulfilled? ==> r.0 == answer)
    ensures Truthy(token) && answer.Rejected? ==> r.0 == Rejected(OrDefault(answer.message, "Failed to update preferences"))
  {
    Guarded(token, answer, "Failed to update preferences")
  }

  /** `deleteUserAccount`: resolves to `true` once the service call returns. */
  function DeleteUserAccount(token: Option<string>, password: string, answer: Outcome): (r: (Settled<bool>, bool))
    ensures !Truthy(token) ==> r == (Rejected(NoTokenMessage), false)
    ensures Truthy(token) && answer.Ok? ==> r == (Fulfilled(true), true)
    ensures Truthy(token) && answer.Thrown? ==> r == (Rejected(OrDefault(answer.message, "Failed to delete account")), true)
  {
    Guarded(token, Returning(answer, true), "Failed to delete account")
  }

  /** Without a token, a dispatched thunk leaves the profile and preferences as they
      were and records the missing-token message. */
  lemma NoTokenLeavesData(s: UserFields, token: Option<string>, thunk: UserThunk, answer: Settled<User>)
    requires !Truthy(token)
    ensures var a := SettleAction(thunk, FetchUserProfile(token, answer).0, u => ProfileFulfilled(u));
            Reduce(Reduce(s, Pending(thunk)), a) == s.(isLoading := false, error := Some(NoTokenMessage))
  {
  }

  class UserState {
    var profile: Option<User>
    var preferences: Option<UserPreferences>
    var isLoading: bool
    var error: Option<string>

    function Fields(): UserFields
      reads this
    {
      UserFields(profile, preferences, isLoading, error)
    }

    constructor ()
      ensures Fields() == Initial
    {
      profile, preferences, isLoading, error := None, None, false, None;
    }

    method Apply(a: UserAction)
      modifies this
      ensures Fields() == Reduce(old(Fields()), a)
    {
      match a
      case ClearError => error := None;
      case SetLoading(b) => isLoading := b;
      case UpdateLocalProfile(p) =>
        if profile.Some? {
          profile := Some(Merge(profile.value, p));
        }
      case UpdateLocalPreferences(p) =>
        if preferences.Some? {
          preferences := Some(MergePreferences(preferences.value, p));
        }
      case ClearUserData => profile, preferences, error := None, None, None;
      case Pending(_) => isLoading, error := true, None;
      case ProfileFulfilled(u) => isLoading, profile, error := false, Some(u), None;
      case ProfileUpdated(u) => isLoading, profile, error := false, Some(u), None;
      case AvatarUploaded(url) =>
        isLoading := false;
        if profile.Some? {
          profile := Some(profile.value.(avatar := Some(url)));
        }
        error := None;
      case PreferencesUpdated(p) => isLoading, preferences, error := false, Some(p), None;
      case AccountDeleted => isLoading, profile, preferences, error := false, None, None, None;
      case Failed(_, m) => isLoading, error := false, Some(m);
    }
  }
}
