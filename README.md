# Session, store and form logic of a React Native client, in Dafny

This project models the parts of a React Native client that make decisions:

- the Redux store's `auth` slice, with its async thunks and reducer cases;
- the HTTP client's request pipeline: bearer attachment, the 401 refresh-and-resubmit loop, error classification and envelope wrapping;
- the authentication service's envelope unwrapping;
- the storage service over a general store and a keychain;
- the notification, theme, language, app and user slices;
- the app-version bookkeeping run at start-up;
- the micro-frontend module registry;
- the validators and submit handlers of the login, signup, change-password and edit-profile screens;
- the avatar initials of the profile screen and the drawer;
- the `useApi` and `useForm` hooks.

Each module models one source file or a family of alike files: `Forms` the four screens, `Hooks` `useApi` and `useForm`, `Initials` the profile screen and the drawer, and `AuthSlice` also `useAuth`. Five small modules (`Wrappers`, `Text`, `Patterns`, `Users`, `Thunks`) are shared helpers. State that the source updates in place becomes a class: the slice states, the storage service, the HTTP client, the registry and the `useApi` hook. Each such class's methods are specified against pure functions (`Reduce`, `Pipeline`, `Load`, `Finished`, `MergeScreens`, ...). Lemmas then state the properties the source promises about those functions.

Network, keychain and device calls are inputs:

- A service call is replaced by the answer it would give (`Settled`: fulfilled with a payload or rejected with a message; `Outcome` for calls that return nothing).
- The HTTP transport is a script of replies.
- Which storage keys fail is a set each store carries, fixed for the whole run: a key in it fails every read and every write, so its reads and writes fail together.
- Timestamps are passed in as their decimal text.

A thunk returns the service calls it made, so "no call was made" can be stated.

Some behaviours of the code are easy to miss, and the model states them as the code has them:

- **Unbounded retries.** The response interceptor has no retry marker, so every 401 of a resubmitted request starts another refresh. `Api.RoundsAreUnbounded` proves that n consecutive 401s give n refreshes and 2n+1 requests.
- **The thunks keep stored tokens on failure.** Neither `checkAuthStatus` nor `refreshToken` removes anything from storage when it fails: the thunks themselves remove nothing. The response interceptor does write tokens when it refreshes after a 401 (listed under Left out), but that happens inside the service call, which these thunks take as an input.
- **Logout can fail locally.** A failing removal rejects the `logout` thunk, and `logout.rejected` keeps the session.
- **Login stores one value under both keys.** The `login` thunk writes the one `data.accessToken` value under both `accessToken` and `refreshToken`, and only when that value is present. `AuthSlice.Login` states exactly that.
- **The stored flag and the hook disagree.** No reducer keeps `isAuthenticated == (user != null && token != null)`. Only the `useAuth` hook recomputes that conjunction (`AuthSlice.FlagNotPreserved`, `AuthSlice.HookDisagreesWithFlag`).

## Model

| member | source | states |
|---|---|---|
| Wrappers.OrDefault | src/store/slices/authSlice.ts:65 | `m \|\| d` for a message: the message when it is non-empty, else the fallback |
| Wrappers.TruthyOr | src/services/AuthService.ts:34 | `response.message \|\| d` for an optional message: a present non-empty message, else the fallback |
| Text.UpperChar | src/microfrontends/profile/screens/ProfileScreen.tsx:110 | lower-case ASCII letters map to their upper-case form (code minus 32); every other character is unchanged |
| Text.ToUpper | src/microfrontends/profile/screens/ProfileScreen.tsx:110 | `toUpperCase` keeps the length and maps every character with `UpperChar` |
| Text.TrimStart | src/microfrontends/auth/screens/SignupScreen.tsx:43 | the result is a suffix; the characters dropped are white space and the first kept one is not |
| Text.TrimEnd | src/microfrontends/auth/screens/SignupScreen.tsx:43 | the result is a prefix; the characters dropped are white space and the last kept one is not |
| Text.Trim | src/microfrontends/auth/screens/SignupScreen.tsx:43-45 | `trim()` gives a slice of the input that neither starts nor ends with white space |
| Text.TrimEmptyIffAllSpace | src/microfrontends/auth/screens/SignupScreen.tsx:43 | `!s.trim()` holds exactly when every character is white space |
| Text.Split | src/utils/AppInitializer.ts:181-182 | `split(sep)` gives at least one piece, and no piece contains the separator |
| Text.SplitJoin | src/utils/AppInitializer.ts:181 | joining the pieces of `split(sep)` with `sep` gives back the input |
| Text.SplitConcat | src/utils/AppInitializer.ts:181 | splitting `s + sep + t` gives the pieces of `s` followed by the pieces of `t` |
| Patterns.EmailTestCorrect | src/microfrontends/auth/screens/LoginScreen.tsx:43 | the executable test agrees with the reading of `/\S+@\S+\.\S+/.test(s)`, in both directions |
| Patterns.LooksLikeEmail | src/microfrontends/auth/screens/LoginScreen.tsx:43 | the reading of `/\S+@\S+\.\S+/`: some non-space run, `@`, a non-space run, `.` and a non-space run occur in the string |
| Patterns.EmailHasAt | src/microfrontends/auth/screens/LoginScreen.tsx:43 | a string the pattern accepts contains `@` and `.` and has at least five characters |
| Patterns.StrongOnOneLine | src/microfrontends/auth/screens/SignupScreen.tsx:59 | on a string with no line terminator, the look-ahead pattern holds iff the string contains a lower-case letter, an upper-case letter and a digit |
| Patterns.StrongPassword | src/microfrontends/auth/screens/SignupScreen.tsx:59 | the reading of the look-ahead pattern: from some position, a lower-case letter, an upper-case letter and a digit each occur before the next line break |
| Patterns.StrongImpliesClasses | src/microfrontends/auth/screens/SignupScreen.tsx:59 | a string the look-ahead pattern accepts contains all three character classes |
| Patterns.StrengthIsPerLine | src/microfrontends/auth/screens/SignupScreen.tsx:59 | since `.` stops at a line break, `"a\nA1"` holds all three classes yet is rejected |
| Users.Pick | src/store/slices/authSlice.ts:219 | one field of `{...user, ...patch}`: the supplied value, else the current one |
| Users.PickOptional | src/store/slices/authSlice.ts:219 | the same for an optional field |
| Users.Merge | src/store/slices/authSlice.ts:219 | the spread takes every supplied field from the patch and keeps every other field |
| Users.MergeEmpty | src/store/slices/authSlice.ts:219 | an empty patch changes nothing |
| Users.MergeIdempotent | src/store/slices/authSlice.ts:219 | applying the same patch twice is applying it once |
| Thunks.Guarded | src/store/slices/userSlice.ts:31-45 | without a truthy token: rejects with `'No authentication token'` and calls no service; otherwise passes a fulfilment through and rejects with the message or the fallback |
| Thunks.Unguarded | src/store/slices/notificationSlice.ts:48-70 | an unguarded thunk: passes a fulfilment through; rejects with the message or the fallback |
| Thunks.Returning | src/store/slices/notificationSlice.ts:91-108 | a call that returns nothing fulfils with the given value, and a throw rejects with its message |
| Thunks.NoTokenIgnoresService | src/store/slices/userSlice.ts:36-38 | without a token the outcome does not depend on the service's answer or the fallback |
| Storage.ImportPairs | src/services/StorageService.ts:264-276 | `importData`'s pairs: one per entry, in order; strings verbatim and other values as their JSON text |
| Storage.WriteAll | src/services/StorageService.ts:60-67 | `multiSet` adds exactly the written keys |
| Storage.WriteAllLookup | src/services/StorageService.ts:60-67 | after `multiSet` a key holds the last value written to it; a key not written keeps its value |
| Storage.WriteAllUnwritten | src/services/StorageService.ts:60-67 | a key that no written pair names keeps its value |
| Storage.WriteAllLast | src/services/StorageService.ts:60-67 | a key holds the value of the last written pair that names it |
| Storage.StoreSizeRemove | src/services/StorageService.ts:222-239 | the size of a key set splits into one key's `key.length + value.length` (0 for an empty value) plus the rest |
| Storage.Lookups | src/services/StorageService.ts:51-58 | `multiGet` gives one `[key, value-or-null]` pair per key, in order |
| Storage.EntriesSizeIsStoreSize | src/services/StorageService.ts:222-239 | summing over the `multiGet` of all keys gives the size of the whole store |
| Storage.SecureLookup | src/services/StorageService.ts:109-120 | `getSecureItem` gives a value exactly when the key is stored, its read does not fail, and its password is non-empty |
| Storage.SecureWrite | src/services/StorageService.ts:100-107 | `setSecureItem` rethrows a failure and leaves the keychain unchanged; otherwise it writes the key |
| Storage.StorageService.constructor | src/services/StorageService.ts:1-5 | the two stores and the failure inputs are as given |
| Storage.StorageService.ItemOf | src/services/StorageService.ts:15-22 | the value a general read sees: present iff the key is stored and its read does not fail |
| Storage.StorageService.SecureOf | src/services/StorageService.ts:109-120 | the value a keychain read sees, as `SecureLookup` |
| Storage.StorageService.SetItem | src/services/StorageService.ts:6-13 | a failing key throws and changes nothing; otherwise only the general store changes, by writing the key |
| Storage.StorageService.GetItem | src/services/StorageService.ts:15-22 | gives `ItemOf(key)`; a failing read becomes null |
| Storage.StorageService.RemoveItem | src/services/StorageService.ts:24-31 | a failing key throws and changes nothing; otherwise the key is removed from the general store only |
| Storage.StorageService.GetAllKeys | src/services/StorageService.ts:42-49 | a failing listing gives `[]`; otherwise exactly the general keys, without duplicates |
| Storage.StorageService.MultiGet | src/services/StorageService.ts:51-58 | any failing key gives `[]`; otherwise `Lookups(items, keys)` |
| Storage.StorageService.MultiSet | src/services/StorageService.ts:60-67 | any failing key throws and writes nothing; otherwise `WriteAll(old items, pairs)` |
| Storage.StorageService.MultiRemove | src/services/StorageService.ts:69-76 | any failing key throws and removes nothing; otherwise removes exactly the listed keys |
| Storage.StorageService.SetSecureItem | src/services/StorageService.ts:100-107 | a failing key throws; otherwise only the keychain changes, by writing the key |
| Storage.StorageService.GetSecureItem | src/services/StorageService.ts:109-120 | gives `SecureOf(key)`; an entry stored as `""` reads as null |
| Storage.StorageService.RemoveSecureItem | src/services/StorageService.ts:122-129 | a failing key throws; otherwise only the keychain changes, by removing the key |
| Storage.StorageService.HasSecureItem | src/services/StorageService.ts:131-139 | true iff the key is stored and its read does not fail, so an entry stored as `""` is present while `getSecureItem` gives null |
| Storage.StorageService.GetStorageSize | src/services/StorageService.ts:222-239 | the sum of `key.length + value.length` over entries with a non-empty value; 0 when the listing or any read fails |
| Storage.StorageService.ImportData | src/services/StorageService.ts:264-276 | one `multiSet` of `ImportPairs(data)`: all written or, when any key fails, a throw and nothing written |
| Api.HandleError | src/services/ApiClient.ts:90-102 | with a response: its `data.message` or else its `statusText`; a request without a response: the network-error text; otherwise `message` or `'An unexpected error occurred'` |
| Api.Authorize | src/services/ApiClient.ts:29-32 | sets `Authorization: Bearer <token>` iff the secure `accessToken` read gives a value; otherwise the request is untouched |
| Api.TemplateText | src/services/ApiClient.ts:74 | a template literal renders a missing value as `undefined` |
| Api.RefreshStep | src/services/ApiClient.ts:104-124 | the private refresh succeeds iff the server answered and both secure writes succeeded; it then writes `data.token` and `data.refreshToken`; a thrown call leaves the keychain as it was |
| Api.Round | src/services/ApiClient.ts:26-87 | one pass through the interceptors: its first network call is the authorized request; a resubmission needs a server reply and a refresh reply |
| Api.Pipeline | src/services/ApiClient.ts:26-87 | a whole intercepted request, its first call being the authorized original |
| Api.Wrap | src/services/ApiClient.ts:127-205 | the HTTP wrappers never throw: success gives `{success:true, data}` and a failure gives `{success:false, message:m, errors:[m]}` |
| Api.OtherFailureRejects | src/services/ApiClient.ts:66-85 | a failure other than 401 is rejected with `handleError` after a single call and no refresh |
| Api.UnauthorizedWithoutRefreshToken | src/services/ApiClient.ts:66-85 | a 401 with no stored refresh token makes no refresh call and rejects with `handleError` |
| Api.RefreshThenResubmit | src/services/ApiClient.ts:66-112 | a 401 with a refresh token posts it to `baseURL/auth/refresh`, writes the new tokens, and resubmits the original with `Bearer <data.token>` through the interceptors again |
| Api.RefreshFailureRejectsOriginal | src/services/ApiClient.ts:70-123 | a failed refresh rejects with the original error after exactly one refresh call |
| Api.RoundsAreUnbounded | src/services/ApiClient.ts:75 | with no retry marker, n successive 401s give n refreshes and 2n+1 requests before the final answer |
| Api.ApiClient.constructor | src/services/ApiClient.ts:9-22 | the base URL is as given, and the default headers are JSON `Content-Type` and `Accept` |
| Api.ApiClient.SetBaseURL | src/services/ApiClient.ts:265-268 | the base URL becomes the given one |
| Api.ApiClient.GetBaseURL | src/services/ApiClient.ts:271-273 | gives the current base URL |
| Api.ApiClient.SetDefaultHeader | src/services/ApiClient.ts:276-278 | the default headers get the key set to the value, and nothing else changes |
| Api.ApiClient.RemoveDefaultHeader | src/services/ApiClient.ts:281-283 | the key is removed from the default headers, and nothing else changes |
| Api.ApiClient.OneRound | src/services/ApiClient.ts:26-87 | one interceptor pass against live storage gives what `Round` says |
| Api.ApiClient.Dispatch | src/services/ApiClient.ts:26-87 | the loop of interceptor passes gives what `Pipeline` says: the exchange, the calls and the new keychain |
| Api.ApiClient.RefreshTokens | src/services/ApiClient.ts:104-124 | the private refresh against live storage gives what `RefreshStep` says |
| Api.ApiClient.Send | src/services/ApiClient.ts:127-205 | a wrapper call merges the default headers, runs the pipeline and wraps its outcome |
| Api.ApiClient.Get | src/services/ApiClient.ts:127-141 | `get` is `Send` with the GET verb |
| Api.ApiClient.Post | src/services/ApiClient.ts:143-157 | `post` is `Send` with the POST verb |
| Api.ApiClient.Put | src/services/ApiClient.ts:159-173 | `put` is `Send` with the PUT verb |
| Api.ApiClient.Patch | src/services/ApiClient.ts:175-189 | `patch` is `Send` with the PATCH verb |
| Api.ApiClient.Delete | src/services/ApiClient.ts:191-205 | `delete` is `Send` with the DELETE verb |
| AuthService.LoginCall | src/services/AuthService.ts:31-32 | `login` POSTs the credentials object unchanged to `/common/login`, with no bearer |
| AuthService.SignupCall | src/services/AuthService.ts:40-41 | `signup` POSTs the credentials to `/auth/signup`, with no bearer |
| AuthService.LogoutCall | src/services/AuthService.ts:50-55 | `logout` POSTs the empty object `{}` to `/auth/logout` with `Bearer <token>` |
| AuthService.RefreshCall | src/services/AuthService.ts:63-66 | `refreshToken` POSTs `{refreshToken}` to `/auth/refresh`, with no bearer |
| AuthService.CurrentUserCall | src/services/AuthService.ts:75-80 | `getCurrentUser` sends a GET with no body to `/auth/me` with `Bearer <token>` |
| AuthService.ChangePasswordCall | src/services/AuthService.ts:89-94 | `changePassword` POSTs the data to `/auth/change-password` with `Bearer <token>` |
| AuthService.ForgotPasswordCall | src/services/AuthService.ts:101-104 | `forgotPassword` POSTs `{email}` to `/auth/forgot-password`, with no bearer |
| AuthService.ResetPasswordCall | src/services/AuthService.ts:111-115 | `resetPassword` POSTs `{token, password}` to `/auth/reset-password`, with no bearer |
| AuthService.Unwrap | src/services/AuthService.ts:33-37 | returns `data` iff `success`; otherwise throws the message or the fallback, which is non-empty when the fallback is |
| AuthService.Check | src/services/AuthService.ts:96-98 | returns nothing iff `success`; otherwise throws the message or the fallback |
| AuthService.LoginResult | src/services/AuthService.ts:31-38 | `data` iff `success`; otherwise a throw of the message or `'Login failed'` |
| AuthService.SignupResult | src/services/AuthService.ts:40-48 | `data` iff `success`; otherwise a throw of the message or `'Signup failed'` |
| AuthService.LogoutResult | src/services/AuthService.ts:57-60 | `logout` never throws, whatever the envelope |
| AuthService.RefreshResult | src/services/AuthService.ts:63-73 | `data` iff `success`; otherwise a throw of the message or `'Token refresh failed'` |
| AuthService.CurrentUserResult | src/services/AuthService.ts:75-87 | `data` iff `success`; otherwise a throw of the message or `'Failed to get user info'` |
| AuthService.ChangePasswordResult | src/services/AuthService.ts:89-99 | nothing iff `success`; otherwise a throw of the message or `'Password change failed'` |
| AuthService.ForgotPasswordResult | src/services/AuthService.ts:101-109 | nothing iff `success`; otherwise a throw of the message or `'Password reset request failed'` |
| AuthService.ResetPasswordResult | src/services/AuthService.ts:111-120 | nothing iff `success`; otherwise a throw of the message or `'Password reset failed'` |
| AuthService.LoginOverClient | src/services/AuthService.ts:31-38 | over the client's wrapping, a resolved login gives its data and a failed one throws the client's message or `'Login failed'` |
| AuthSlice.Reduce | src/store/slices/authSlice.ts:207-363 | the reducer: only `setBiometricEnabled` changes the biometric flag; only fulfilled logins, signups, refreshes and checks and the session-ending cases change the token; only a fulfilled login, signup or check raises `isAuthenticated` |
| AuthSlice.RejectedKeepsSession | src/store/slices/authSlice.ts:239-263 | `login.rejected` and `signup.rejected` clear the flag, lower loading and record the message, but keep `user`, `token` and `refreshToken` |
| AuthSlice.FlagNotPreserved | src/store/slices/authSlice.ts:230-258 | from a signed-in state, `login.rejected` breaks `isAuthenticated == (user && token)`, and so does a fulfilled login or signup whose payload has no token |
| AuthSlice.HookDisagreesWithFlag | src/hooks/useAuth.ts:18 | the hook's `!!user && !!token` and the stored flag disagree in both directions |
| AuthSlice.FulfilledTakesPayload | src/store/slices/authSlice.ts:230-258 | both fulfilled cases set the flag unconditionally and take the session from the payload; login sets `rememberMe` to `payload.rememberMe \|\| false`, and signup keeps the old value |
| AuthSlice.LogoutCases | src/store/slices/authSlice.ts:270-282 | `logout.fulfilled` nulls the session, lowers the flags and clears the error, keeping only `biometricEnabled`; `logout.rejected` changes only `isLoading` and `error` |
| AuthSlice.RefreshCases | src/store/slices/authSlice.ts:286-296 | the refresh thunk has no pending case; fulfilled sets only the tokens and the user; rejected clears the session and the flag; none touches `isLoading` |
| AuthSlice.CheckCases | src/store/slices/authSlice.ts:348-362 | fulfilled signs in with the stored tokens and `rememberMe`; rejected clears the session fields |
| AuthSlice.LoadingLifecycle | src/store/slices/authSlice.ts:226-362 | for the seven loading thunks, pending raises `isLoading` and either settling case lowers it again |
| AuthSlice.UpdateUserCases | src/store/slices/authSlice.ts:217-221 | `updateUser` merges into a present user and does nothing without one |
| AuthSlice.AuthState.constructor | src/store/slices/authSlice.ts:38-47 | the state starts as the initial state |
| AuthSlice.AuthState.Apply | src/store/slices/authSlice.ts:207-362 | dispatching an action assigns the fields exactly as `Reduce` says |
| AuthSlice.AuthState.ApplyReducer | src/store/slices/authSlice.ts:209-222 | `clearError`, `setLoading`, `setBiometricEnabled` and `updateUser` assign the fields as `Reduce` says |
| AuthSlice.AuthState.ApplySignIn | src/store/slices/authSlice.ts:225-263 | the `login` and `signup` cases assign the fields as `Reduce` says |
| AuthSlice.AuthState.ApplySessionEnd | src/store/slices/authSlice.ts:266-296 | the `logout` and `refreshToken` cases assign the fields as `Reduce` says |
| AuthSlice.AuthState.ApplyRequest | src/store/slices/authSlice.ts:299-341 | the three password requests' cases assign the fields as `Reduce` says |
| AuthSlice.AuthState.ApplyCheck | src/store/slices/authSlice.ts:344-362 | the `checkAuthStatus` cases assign the fields as `Reduce` says |
| AuthSlice.AuthState.DispatchLogin | src/store/slices/authSlice.ts:50-68 | pending, then the thunk, then the fulfilled or rejected case for its outcome; one login call; the outcome and the storage writes are those of `AuthSlice.Login`, so a rejected answer applies the rejected case |
| AuthSlice.AuthState.DispatchLogout | src/store/slices/authSlice.ts:87-107 | pending, the thunk, then the settling case; the server is called iff the token was truthy; the removals of `accessToken`, `refreshToken` and `rememberMe` and the outcome are those of `AuthSlice.Logout` |
| AuthSlice.AuthState.DispatchRefresh | src/store/slices/authSlice.ts:109-130 | the thunk, then the settling case, with no pending case; `isLoading` is unchanged; no call without a truthy refresh token, else one refresh call; the outcome and the keychain are those of `AuthSlice.Refresh` |
| AuthSlice.AuthState.DispatchCheck | src/store/slices/authSlice.ts:177-201 | pending, the thunk, then the settling case; loading ends lowered; the outcome is the one `AuthSlice.CheckAuthStatus` computes from the stored tokens, `rememberMe` and the answer |
| AuthSlice.Login | src/store/slices/authSlice.ts:50-68 | one login call; only with a truthy `data.accessToken` is that value written under both secure keys, then `rememberMe='true'` when asked; the first failing write rejects with its message or `'Login failed'` |
| AuthSlice.Signup | src/store/slices/authSlice.ts:70-85 | one signup call; on success `token` then `refreshToken` are written; a failure rejects with its message or `'Signup failed'` |
| AuthSlice.StoreTokens | src/store/slices/authSlice.ts:77-123 | the two secure writes in order; the first failure stops and rejects |
| AuthSlice.Logout | src/store/slices/authSlice.ts:87-107 | calls the server only with a truthy token, then removes secure `accessToken`, secure `refreshToken` and general `rememberMe` in that order; the first failing removal rejects |
| AuthSlice.Refresh | src/store/slices/authSlice.ts:109-130 | without a truthy refresh token, rejects with `'No refresh token available'` and makes no call; otherwise one refresh call, then the tokens are stored; on a rejected answer the thunk writes and removes nothing |
| AuthSlice.ChangePassword | src/store/slices/authSlice.ts:132-148 | rejects with `'Not authenticated'` and no call without a token; otherwise fulfils iff the service returns |
| AuthSlice.ForgotPassword | src/store/slices/authSlice.ts:150-160 | one call; fulfils iff it returns; otherwise rejects with the message or the fallback |
| AuthSlice.ResetPassword | src/store/slices/authSlice.ts:162-175 | one call; fulfils iff it returns; otherwise rejects with the message or the fallback |
| AuthSlice.CheckAuthStatus | src/store/slices/authSlice.ts:177-201 | no stored accessToken: rejects with `'No token found'` and makes no call; otherwise asks for the user and fulfils with the stored tokens and `rememberMe == 'true'`; the thunk itself writes and removes nothing |
| NotificationSlice.MergeSettings | src/store/slices/notificationSlice.ts:211-213 | the settings spread overwrites only the supplied keys |
| NotificationSlice.UnreadIn | src/store/slices/notificationSlice.ts:244-248 | the unread filter's length is at most the list's length |
| NotificationSlice.UnreadAppend | src/store/slices/notificationSlice.ts:175-180 | the unread count of a concatenation is the sum of the counts |
| NotificationSlice.UnreadZeroIffAllRead | src/store/slices/notificationSlice.ts:195-200 | the unread count is zero iff every item is read |
| NotificationSlice.FirstWithId | src/store/slices/notificationSlice.ts:189 | `find` gives the first index with the id, or none when no item has it |
| NotificationSlice.WithoutId | src/store/slices/notificationSlice.ts:185 | the filter keeps exactly the items with another id |
| NotificationSlice.WithoutIdAppend | src/store/slices/notificationSlice.ts:185 | the filter keeps the original order: it distributes over concatenation |
| NotificationSlice.UnreadWithId | src/store/slices/notificationSlice.ts:181-187 | the unread items carrying one id are at most all unread items |
| NotificationSlice.UnreadWithoutId | src/store/slices/notificationSlice.ts:181-187 | removing by id takes every unread item with that id off the count |
| NotificationSlice.UniqueUnreadWithId | src/store/slices/notificationSlice.ts:181-187 | with unique ids, at most one unread item has the id: the first match, if it is unread |
| NotificationSlice.NoIdNoUnread | src/store/slices/notificationSlice.ts:181-187 | an id no item has contributes no unread item |
| NotificationSlice.DuplicateIdsBreakCount | src/store/slices/notificationSlice.ts:181-187 | two unread copies of one id: removal decrements once but drops both, so the counter goes wrong |
| NotificationSlice.MarkAt | src/store/slices/notificationSlice.ts:190-193 | marking the item at an index keeps the length and makes that item read |
| NotificationSlice.UnreadMarkAt | src/store/slices/notificationSlice.ts:190-193 | marking an unread item takes one off the count |
| NotificationSlice.MarkFirstRead | src/store/slices/notificationSlice.ts:188-194 | marking by id keeps the length |
| NotificationSlice.MarkFirstReadIdempotent | src/store/slices/notificationSlice.ts:188-194 | marking the same id twice is marking it once |
| NotificationSlice.AllRead | src/store/slices/notificationSlice.ts:195-200 | every item is marked read, with length and order kept |
| NotificationSlice.NotificationStore.constructor | src/store/slices/notificationSlice.ts:32-46 | the initial state: empty list, zero count, not determined, all settings on; the counter invariant holds |
| NotificationSlice.NotificationStore.Find | src/store/slices/notificationSlice.ts:189 | the search loop finds what `FirstWithId` says |
| NotificationSlice.NotificationStore.AddNotification | src/store/slices/notificationSlice.ts:175-180 | prepends the item, increments the count iff it is unread, and keeps the counter invariant |
| NotificationSlice.NotificationStore.RemoveNotification | src/store/slices/notificationSlice.ts:181-187 | keeps exactly the items with another id and decrements once if the first match is unread; the invariant is kept when ids are unique |
| NotificationSlice.NotificationStore.MarkAsReadLocal | src/store/slices/notificationSlice.ts:188-194 | marks the first match read and decrements iff it was unread; keeps the invariant |
| NotificationSlice.NotificationStore.MarkAllAsReadLocal | src/store/slices/notificationSlice.ts:195-200 | every item read, the count 0 and the invariant restored |
| NotificationSlice.NotificationStore.ClearAllNotifications | src/store/slices/notificationSlice.ts:201-204 | an empty list and a zero count |
| NotificationSlice.NotificationStore.SetPushToken | src/store/slices/notificationSlice.ts:205-207 | the push token is set |
| NotificationSlice.NotificationStore.SetPermissionStatus | src/store/slices/notificationSlice.ts:208-210 | the permission status is set |
| NotificationSlice.NotificationStore.UpdateLocalSettings | src/store/slices/notificationSlice.ts:211-213 | the settings become `MergeSettings(old, patch)` |
| NotificationSlice.NotificationStore.ClearError | src/store/slices/notificationSlice.ts:214-216 | the error is cleared |
| NotificationSlice.NotificationStore.PermissionRejected | src/store/slices/notificationSlice.ts:224-227 | records the message and forces the status to denied |
| NotificationSlice.NotificationStore.Rejected | src/store/slices/notificationSlice.ts:234-266 | the other rejected cases record the message |
| NotificationSlice.NotificationStore.FetchPending | src/store/slices/notificationSlice.ts:240-243 | raises loading and clears the error |
| NotificationSlice.NotificationStore.FetchFulfilled | src/store/slices/notificationSlice.ts:244-249 | replaces the list, recomputes the count from it, lowers loading |
| NotificationSlice.NotificationStore.FetchRejected | src/store/slices/notificationSlice.ts:250-253 | lowers loading and records the message |
| NotificationSlice.FetchNotifications | src/store/slices/notificationSlice.ts:72-89 | the guarded thunk: without a token, a rejection with `'No authentication token'` and no service call; with one, the service's list, or its message or `'Failed to fetch notifications'` |
| NotificationSlice.MarkNotificationAsRead | src/store/slices/notificationSlice.ts:91-108 | guarded; resolves to the id when the service returns, else rejects with the service's message or `'Failed to mark notification as read'` |
| NotificationSlice.MarkAllNotificationsAsRead | src/store/slices/notificationSlice.ts:110-127 | guarded; resolves to `true` when the service returns, else rejects with the service's message or `'Failed to mark all notifications as read'` |
| NotificationSlice.DeleteNotification | src/store/slices/notificationSlice.ts:129-146 | guarded; resolves to the id when the service returns, else rejects with the service's message or `'Failed to delete notification'` |
| NotificationSlice.UpdateNotificationSettings | src/store/slices/notificationSlice.ts:148-168 | guarded; with a token it calls the service and resolves to the settings it returns, else rejects with its message or `'Failed to update notification settings'` |
| NotificationSlice.RequestPermission | src/store/slices/notificationSlice.ts:48-58 | unguarded; rejects with the message or `'Permission request failed'` |
| NotificationSlice.RegisterForPush | src/store/slices/notificationSlice.ts:60-70 | unguarded; rejects with the message or `'Token registration failed'` |
| ThemeSlice.ShouldUseDark | src/store/slices/themeSlice.ts:22-33 | dark gives true, light gives false, and auto follows `systemTheme == 'dark'` |
| ThemeSlice.Initial | src/store/slices/themeSlice.ts:14-19 | mode auto, the reported scheme (light when none), and a consistent `isDark` |
| ThemeSlice.Reduce | src/store/slices/themeSlice.ts:39-61 | every reducer leaves `isDark == shouldUseDarkTheme(mode, systemTheme)`, whatever state it starts from; only `setSystemTheme` changes the system scheme |
| ThemeSlice.ToggleFlips | src/store/slices/themeSlice.ts:48-57 | toggling never produces auto and always flips `isDark` |
| ThemeSlice.ToggleTwice | src/store/slices/themeSlice.ts:52-55 | toggling twice from a manual mode gives back the state |
| ThemeSlice.ToggleTwiceFromAuto | src/store/slices/themeSlice.ts:48-57 | toggling twice from auto leaves a manual mode showing the same scheme |
| ThemeSlice.SystemChangeKeepsManual | src/store/slices/themeSlice.ts:44-47 | `setSystemTheme` never changes the mode, and in a manual mode changes only `systemTheme` |
| ThemeSlice.ResetFollowsSystem | src/store/slices/themeSlice.ts:58-61 | `resetTheme` gives mode auto and `isDark == (systemTheme == 'dark')` |
| ThemeSlice.ThemeState.constructor | src/store/slices/themeSlice.ts:14-19 | the state starts as `Initial` |
| ThemeSlice.ThemeState.Apply | src/store/slices/themeSlice.ts:40-61 | a reducer assigns the fields as `Reduce` says; the state stays consistent |
| LanguageSlice.IsRTLLanguage | src/store/slices/languageSlice.ts:96-122 | `isRTLLanguage`: the code is one of `ar`, `he`, `fa` and `ur` |
| LanguageSlice.SystemLanguage | src/store/slices/languageSlice.ts:99-108 | the first locale's code if it is offered, else `'en'`; `'en'` with no locales |
| LanguageSlice.WithoutCode | src/store/slices/languageSlice.ts:148-150 | the filter keeps exactly the languages with another code |
| LanguageSlice.WithoutCodeUnique | src/store/slices/languageSlice.ts:148-150 | filtering keeps codes unique |
| LanguageSlice.WithoutCodeKeeps | src/store/slices/languageSlice.ts:148-150 | filtering one code keeps every other offered code |
| LanguageSlice.AvailableUnique | src/store/slices/languageSlice.ts:20-93 | the built-in list has unique codes |
| LanguageSlice.LanguageState.constructor | src/store/slices/languageSlice.ts:111-117 | current and system language are the system language and the built-in list is offered; `isRTL` agrees with the current language |
| LanguageSlice.LanguageState.SetLanguage | src/store/slices/languageSlice.ts:129-137 | an offered code becomes current with its RTL flag; an unoffered one is a no-op |
| LanguageSlice.LanguageState.AddLanguage | src/store/slices/languageSlice.ts:138-143 | appends only when the code is absent, so codes stay unique |
| LanguageSlice.LanguageState.RemoveLanguage | src/store/slices/languageSlice.ts:144-152 | never removes `'en'` or the current language; otherwise removes every entry with the code |
| LanguageSlice.LanguageState.ResetToSystemLanguage | src/store/slices/languageSlice.ts:153-156 | the current language becomes the system language, and `isRTL` follows |
| LanguageSlice.LanguageState.UpdateSystemLanguage | src/store/slices/languageSlice.ts:157-159 | only the system language changes |
| LanguageSlice.ResetToUnofferedLanguage | src/store/slices/languageSlice.ts:153-159 | after `updateSystemLanguage('he')` and a reset, the current language is one the list does not offer (with `isRTL` set) |
| AppSlice.IsTabletSize | src/store/slices/appSlice.ts:136 | a tablet iff `min(width, height) >= 768` |
| AppSlice.OrientationOf | src/store/slices/appSlice.ts:137 | landscape iff `width > height`, so a square counts as portrait |
| AppSlice.Initial | src/store/slices/appSlice.ts:38-66 | geometry consistent with the window, not initialized, online, first launch, no toast, version `1.0.0` build `1` |
| AppSlice.MergeDevice | src/store/slices/appSlice.ts:89-91 | `setDeviceInfo` overwrites only the supplied fields |
| AppSlice.NewToast | src/store/slices/appSlice.ts:115-129 | a visible toast with the message; type defaults to info, and duration to 3000, including when 0 is supplied |
| AppSlice.Reduce | src/store/slices/appSlice.ts:72-151 | the reducer: only `setAppVersion` changes version and build (`resetApp` keeps them); only `setDeviceInfo` and `updateDimensions` change the device record |
| AppSlice.ResetFields | src/store/slices/appSlice.ts:139-150 | `resetApp`'s state: device record, version and build kept, first launch off, and the online flag, toast and orientation of the initial state |
| AppSlice.OnlineStatusCases | src/store/slices/appSlice.ts:76-81 | `setOnlineStatus(true)` clears the network error; `false` changes only the flag |
| AppSlice.DimensionsConsistent | src/store/slices/appSlice.ts:133-138 | `updateDimensions` leaves tablet and orientation consistent with the new size, and keeps the platform |
| AppSlice.ResetKeeps | src/store/slices/appSlice.ts:139-150 | `resetApp` is the initial state except for the kept device record, version and build, and `isFirstLaunch` false |
| AppSlice.ResetAfterRotation | src/store/slices/appSlice.ts:139-150 | after a rotation, `resetApp` pairs the kept device size with the initial orientation, which then disagree |
| AppSlice.ResetIdempotent | src/store/slices/appSlice.ts:139-150 | resetting twice is resetting once |
| AppSlice.AppState.constructor | src/store/slices/appSlice.ts:38-66 | the state starts as `Initial` of the first window size |
| AppSlice.AppState.Apply | src/store/slices/appSlice.ts:73-150 | a reducer assigns the fields as `Reduce` says |
| AppSlice.AppState.ApplyStatus | src/store/slices/appSlice.ts:73-88 | the start-up, online and version reducers assign the fields as `Reduce` says |
| AppSlice.AppState.ApplyDevice | src/store/slices/appSlice.ts:89-97 | the device, orientation, keyboard and dimension reducers assign the fields as `Reduce` says |
| AppSlice.AppState.ApplyErrors | src/store/slices/appSlice.ts:105-114 | the error reducers assign the fields as `Reduce` says |
| AppSlice.AppState.ApplyOverlay | src/store/slices/appSlice.ts:98-132 | the modal, loading and toast reducers assign the fields as `Reduce` says |
| AppSlice.AppState.Reset | src/store/slices/appSlice.ts:139-150 | `resetApp` leaves `ResetFields` of the old state: the initial state, keeping device, version and build, with first launch off |
| UserSlice.MergePreferences | src/store/slices/userSlice.ts:140-144 | the preferences spread overwrites only the supplied fields |
| UserSlice.Reduce | src/store/slices/userSlice.ts:128-234 | the reducer: only the preference updates, `clearUserData` and a deleted account change the preferences; a rejection keeps profile and preferences |
| UserSlice.LocalUpdates | src/store/slices/userSlice.ts:135-144 | the local updates are no-ops on a null target, and otherwise merge only the supplied fields |
| UserSlice.ClearKeepsLoading | src/store/slices/userSlice.ts:145-149 | `clearUserData` nulls profile, preferences and error and keeps `isLoading` |
| UserSlice.LoadingLifecycle | src/store/slices/userSlice.ts:153-233 | pending raises loading and clears the error; a settling case lowers loading and holds an error iff it is a rejection |
| UserSlice.AvatarOnlyWithProfile | src/store/slices/userSlice.ts:190-196 | `uploadAvatar.fulfilled` sets the avatar only when a profile exists |
| UserSlice.PreferencesReplaced | src/store/slices/userSlice.ts:208-229 | preferences are replaced, not merged; deleting the account nulls profile and preferences |
| UserSlice.SettleAction | src/store/slices/userSlice.ts:153-233 | a rejection becomes the thunk's rejected case with its message, a fulfilment its fulfilled case |
| UserSlice.FetchUserProfile | src/store/slices/userSlice.ts:29-46 | guarded: no token gives `'No authentication token'` and no call; otherwise the answer, or the message or `'Failed to fetch profile'` |
| UserSlice.UpdateUserProfile | src/store/slices/userSlice.ts:48-65 | guarded, with fallback `'Failed to update profile'` |
| UserSlice.UploadAvatarThunk | src/store/slices/userSlice.ts:67-84 | guarded, with fallback `'Failed to upload avatar'` |
| UserSlice.UpdateUserPreferences | src/store/slices/userSlice.ts:86-103 | guarded, with fallback `'Failed to update preferences'` |
| UserSlice.DeleteUserAccount | src/store/slices/userSlice.ts:105-122 | guarded; fulfils with true iff the service returns; fallback `'Failed to delete account'` |
| UserSlice.NoTokenLeavesData | src/store/slices/userSlice.ts:36-38 | without a token, dispatching a thunk leaves the data alone and records `'No authentication token'` |
| UserSlice.UserState.constructor | src/store/slices/userSlice.ts:21-26 | the state starts empty |
| UserSlice.UserState.Apply | src/store/slices/userSlice.ts:127-233 | a reducer assigns the fields as `Reduce` says |
| AppInit.SegmentValue | src/utils/AppInitializer.ts:181-185 | `Number(x) \|\| 0` on a segment: a digit-only segment has its decimal value |
| AppInit.SegmentValueCases | src/utils/AppInitializer.ts:181-185 | on the trimmed segment: a digit run has its decimal value, with a leading `-` its negation and with a leading `+` its value; any other segment (`NaN`) counts as 0 |
| AppInit.Parts | src/utils/AppInitializer.ts:181-182 | one value per dot-separated segment |
| AppInit.GreaterFromIsLexicographic | src/utils/AppInitializer.ts:184-192 | the loop's answer is lexicographic: some segment is greater and all earlier ones are equal, with missing segments taken as 0 |
| AppInit.SamePartsNotGreater | src/utils/AppInitializer.ts:184-192 | equal segments throughout give false |
| AppInit.Irreflexive | src/utils/AppInitializer.ts:180-193 | no version is greater than itself |
| AppInit.Asymmetric | src/utils/AppInitializer.ts:180-193 | if v1 is greater than v2, v2 is not greater than v1 |
| AppInit.Transitive | src/utils/AppInitializer.ts:180-193 | greater-than is transitive |
| AppInit.PartsWithZero | src/utils/AppInitializer.ts:181 | appending `.0` to a version appends one zero segment |
| AppInit.TrailingZeroIsEqual | src/utils/AppInitializer.ts:184-192 | for every version `v`, neither `v` nor `v + ".0"` is greater than the other |
| AppInit.LeadingDigits | src/utils/AppInitializer.ts:196-197 | the digits `parseInt` reads: the longest digit prefix |
| AppInit.ParseInt | src/utils/AppInitializer.ts:196-197 | `parseInt` of a non-empty digit string is its exact value (the source rounds above 2^53, see "## Left out") |
| AppInit.IsMajorUpdate | src/utils/AppInitializer.ts:195-200 | false when either leading segment has no leading integer (a comparison with `NaN`); for plain digit segments, true iff the new number exceeds the old |
| AppInit.MajorIsGreater | src/utils/AppInitializer.ts:195-200 | with digit-only leading segments, a major update is a greater version |
| AppInit.MinorIsNotMajor | src/utils/AppInitializer.ts:195-200 | `1.9` to `2.0` is major; `1.1` to `1.9` is not |
| AppInit.IsVersionGreater | src/utils/AppInitializer.ts:180-193 | the loop computes `VersionGreater(v1, v2)` |
| AppInit.VersionGreater | src/utils/AppInitializer.ts:180-193 | `isVersionGreater`: the first segment where the versions differ decides, a missing segment counting as 0 |
| AppInit.ReadItem | src/utils/AppInitializer.ts:51 | a general read gives the stored value unless it fails |
| AppInit.FirstLaunch | src/utils/AppInitializer.ts:49-63 | first launch iff `hasLaunchedBefore` is falsy and its write succeeds; then `'true'` is stored |
| AppInit.LaunchOnce | src/utils/AppInitializer.ts:49-63 | an immediate second check returns false |
| AppInit.CheckFirstLaunch | src/utils/AppInitializer.ts:49-63 | against storage, gives what `FirstLaunch` says |
| AppInit.CacheKeys | src/utils/AppInitializer.ts:205-215 | the keys to remove are exactly the listed keys outside the six-key keep list |
| AppInit.CacheCleared | src/utils/AppInitializer.ts:202-224 | only stored keys remain, kept keys are untouched, and when nothing fails only kept keys remain |
| AppInit.ClearAppCache | src/utils/AppInitializer.ts:202-224 | against storage, gives what `CacheCleared` says |
| AppInit.MigrateSettings | src/utils/AppInitializer.ts:226-250 | writes back iff there are settings, `1.1.0` is greater than the old version, and `newFeature` is absent; the written settings have it |
| AppInit.MigrateOnce | src/utils/AppInitializer.ts:235-243 | migrating migrated settings writes nothing |
| AppInit.PlanUpdate | src/utils/AppInitializer.ts:153-178 | no old version: nothing; migration iff the new version is greater; cache clearing only on a major update that is also greater |
| AppInit.NoUpgradeNoWork | src/utils/AppInitializer.ts:164 | no upgrade, and in particular the same version, does no work |
| AppInit.HandleAppUpdate | src/utils/AppInitializer.ts:153-178 | against storage, clears the cache as `PlanUpdate` says, and returns the settings object the migration writes back |
| AppInit.RecordVersion | src/utils/AppInitializer.ts:139-141 | writes version, build and timestamp in order; every other key is kept; a failing write stops there |
| AppInit.VersionChanged | src/utils/AppInitializer.ts:133-137 | `storedVersion !== currentVersion \|\| storedBuild !== currentBuild`, a failed read counting as null |
| AppInit.UpdateAppVersion | src/utils/AppInitializer.ts:132-151 | nothing happens unless the stored version or build differs; then the record is written and, if all three writes succeed, the update is handled |
| AppInit.RecordedVersionIsCurrent | src/utils/AppInitializer.ts:137-141 | after a full record, the version check sees no change |
| AppInit.DateOf | src/utils/AppInitializer.ts:274-275 | a falsy timestamp gives null; a valid date carries `parseInt(ts, 10)` |
| AppInit.AppInfoOf | src/utils/AppInitializer.ts:264-276 | version `\|\| '1.0.0'` and build `\|\| '1'`, never empty |
| AppInit.GetAppInfo | src/utils/AppInitializer.ts:252-286 | against storage, gives what `AppInfoOf` says |
| Registry.MissingDeps | src/microfrontends/MicrofrontendRegistry.ts:79-84 | the missing dependencies are the declared ones that are not registered |
| Registry.MissingDepsEmpty | src/microfrontends/MicrofrontendRegistry.ts:79-86 | nothing is missing iff every declared dependency is registered |
| Registry.MissingDepsAppend | src/microfrontends/MicrofrontendRegistry.ts:79-84 | the missing list follows declaration order: it distributes over concatenation |
| Registry.Load | src/microfrontends/MicrofrontendRegistry.ts:69-94 | unregistered: rejects with the not-found message; otherwise resolves to the module iff every dependency is registered, and else rejects listing the missing ones |
| Registry.LoadAll | src/microfrontends/MicrofrontendRegistry.ts:96-99 | `Promise.all`: fulfils iff every load does, with the modules in order; a rejection carries the message of the first failing load in list order |
| Registry.WithPermission | src/microfrontends/MicrofrontendRegistry.ts:108-112 | the result holds exactly the listed modules whose permissions contain the permission |
| Registry.GrantingOnly | src/microfrontends/MicrofrontendRegistry.ts:109-111 | `values.filter(m => m.permissions?.includes(p))`: at most as many modules, and exactly the granting ones |
| Registry.WithPermissionIsFilter | src/microfrontends/MicrofrontendRegistry.ts:108-112 | looking the names up in order and keeping the granting modules is filtering the looked-up list, so order is kept |
| Registry.ValidModule | src/microfrontends/MicrofrontendRegistry.ts:101-106 | `validateModule`: a non-empty name, a truthy version and a component |
| Registry.MergeScreens | src/microfrontends/MicrofrontendRegistry.ts:121-129 | the screens table: every module's screen entries written one after another, in registry order |
| Registry.WriteAllAppend | src/microfrontends/MicrofrontendRegistry.ts:121-129 | merging a concatenation is merging one part, then the other |
| Registry.LaterModuleWins | src/microfrontends/MicrofrontendRegistry.ts:121-129 | on a screen-name collision in the merge, the last module (and its last entry) wins |
| Registry.OnlyAuthValidates | src/microfrontends/MicrofrontendRegistry.ts:101-106 | of the five built-in modules only `auth` validates (the others have no `component`) |
| Registry.DefaultsLoad | src/microfrontends/MicrofrontendRegistry.ts:26-94 | every built-in module loads (none declares dependencies) |
| Registry.RegistryManager.constructor | src/microfrontends/MicrofrontendRegistry.ts:26-33 | the five built-in modules are registered in their order |
| Registry.RegistryManager.Register | src/microfrontends/MicrofrontendRegistry.ts:35-42 | the name maps to the module and other entries are unchanged; an existing entry is overwritten in place |
| Registry.RegistryManager.Unregister | src/microfrontends/MicrofrontendRegistry.ts:44-51 | removes only the name, from the entries and from the registry order (`Without`), so the other names keep their order; a no-op when the name is absent |
| Registry.RegistryManager.Get | src/microfrontends/MicrofrontendRegistry.ts:53-55 | the registered module, or none |
| Registry.RegistryManager.HasModule | src/microfrontends/MicrofrontendRegistry.ts:65-67 | `!!registry[name]`: true exactly for a registered name |
| Registry.RegistryManager.LoadModule | src/microfrontends/MicrofrontendRegistry.ts:69-94 | `Load` on the current entries; a resolved load means the module is registered |
| Registry.RegistryManager.ModulesByPermission | src/microfrontends/MicrofrontendRegistry.ts:108-112 | `Object.values(registry).filter(...)`: the modules granting the permission, in registry order, and exactly those |
| Registry.RegistryManager.Screens | src/microfrontends/MicrofrontendRegistry.ts:121-129 | the nested loop builds `MergeScreens` of the modules in registry order |
| Registry.RegistryManager.Values | src/microfrontends/MicrofrontendRegistry.ts:57-59 | `getAll`: the modules in registry order |
| Registry.Without | src/microfrontends/MicrofrontendRegistry.ts:44-51 | the registry order without the name keeps exactly the other names |
| Registry.WithoutDistinct | src/microfrontends/MicrofrontendRegistry.ts:44-51 | removing a name keeps the order free of duplicates |
| Registry.WithoutAbsent | src/microfrontends/MicrofrontendRegistry.ts:44-51 | removing an absent name leaves the order as it is |
| Hooks.KeptData | src/hooks/useApi.ts:37 | `response.data \|\| null`: the datum iff it is present and not falsy |
| Hooks.FailureMessage | src/hooks/useApi.ts:40-45 | the envelope's message or `'An error occurred'`; the thrown message or `'An unexpected error occurred'`; never empty |
| Hooks.Started | src/hooks/useApi.ts:31-32 | `loading` raised, `error` cleared, data kept |
| Hooks.Finished | src/hooks/useApi.ts:33-50 | loading lowered; success sets the kept datum and leaves the error; a failure records the message and keeps the datum |
| Hooks.NoticeOf | src/hooks/useApi.ts:38-46 | `onSuccess` with the raw datum iff the envelope succeeded; otherwise `onError` with the failure message |
| Hooks.WholeCall | src/hooks/useApi.ts:28-53 | a call on its own ends not loading, with no error on success and the old datum on failure |
| Hooks.FalsyDatumDropped | src/hooks/useApi.ts:36-38 | a falsy datum is recorded as null, though `onSuccess` receives it |
| Hooks.OverlappingCalls | src/hooks/useApi.ts:28-53 | with overlapping calls, the first to settle lowers `loading` while the second is pending, and its error outlives the second's success |
| Hooks.ApiHook.constructor | src/hooks/useApi.ts:22-26 | the hook starts with no data, not loading, no error |
| Hooks.ApiHook.Start | src/hooks/useApi.ts:31-32 | the state becomes `Started` |
| Hooks.ApiHook.Finish | src/hooks/useApi.ts:33-50 | the state becomes `Finished` and the callback is `NoticeOf` |
| Hooks.ApiHook.Execute | src/hooks/useApi.ts:28-53 | a non-overlapping `execute`: `Finished(Started(old))` and its callback |
| Hooks.ApiHook.Reset | src/hooks/useApi.ts:55-59 | data null, not loading, error null |
| Hooks.HandleChange | src/hooks/useForm.ts:13-18 | the field is set to the value; every other field is unchanged; no other key appears |
| Hooks.ApplyChanges | src/hooks/useForm.ts:13-18 | a run of changes adds exactly the written keys |
| Hooks.UnwrittenKept | src/hooks/useForm.ts:13-18 | a field that no change in the run names keeps its presence and its value |
| Hooks.LastWriteWins | src/hooks/useForm.ts:13-18 | a field holds the value of the last change in the run that names it |
| Hooks.ChangesLookup | src/hooks/useForm.ts:13-18 | after a run of changes, a field holds the last value written to it; an unwritten field keeps its value |
| Hooks.ChangeToSameValue | src/hooks/useForm.ts:13-18 | writing back a field's own value changes nothing |
| Hooks.ResetForm | src/hooks/useForm.ts:20-22 | `resetForm` gives exactly the initial record, whatever the current one |
| Hooks.ResetAfterChanges | src/hooks/useForm.ts:13-22 | any run of changes followed by `resetForm` gives the initial record |
| Forms.Put | src/microfrontends/auth/screens/LoginScreen.tsx:39-54 | assigning `newErrors[field]` sets that entry and leaves every other entry |
| Forms.EmailError | src/microfrontends/auth/screens/LoginScreen.tsx:41-45 | `emailRequired` iff empty; `emailInvalid` iff non-empty with no match of the pattern; none otherwise |
| Forms.LoginPasswordError | src/microfrontends/auth/screens/LoginScreen.tsx:47-51 | `passwordRequired` iff empty; `passwordTooShort` iff shorter than 6; none otherwise |
| Forms.StrongPasswordError | src/microfrontends/auth/screens/SignupScreen.tsx:55-61 | the required key iff empty; too short iff under 8; `passwordWeak` iff 8 or more without the three classes; none otherwise |
| Forms.ConfirmError | src/microfrontends/auth/screens/SignupScreen.tsx:63-67 | `confirmPasswordRequired` iff empty; `passwordMismatch` iff it differs; none otherwise |
| Forms.NameError | src/microfrontends/auth/screens/SignupScreen.tsx:43-47 | `nameRequired` iff all white space; `nameTooShort` iff its trimmed length is 1; none otherwise |
| Forms.StrongPasswordContents | src/microfrontends/auth/screens/SignupScreen.tsx:55-61 | a password the signup accepts has all three classes and would pass the login check |
| Forms.ValidateLogin | src/microfrontends/auth/screens/LoginScreen.tsx:38-55 | at most one error per field, field by field as its rule says; valid iff no errors, iff the email matches and the password has 6 or more characters |
| Forms.HandleLogin | src/microfrontends/auth/screens/LoginScreen.tsx:57-73 | dispatches nothing when invalid; otherwise exactly `{password, key: email, role:'F', deviceType:'IOS', type:'EMAIL'}`, without `rememberMe` |
| Forms.ValidateSignup | src/microfrontends/auth/screens/SignupScreen.tsx:40-75 | at most one error per field, as each rule says, terms included; valid iff none |
| Forms.HandleSignup | src/microfrontends/auth/screens/SignupScreen.tsx:77-90 | dispatches iff valid, with the trimmed name and the other fields as typed |
| Forms.ValidatePasswordChange | src/microfrontends/profile/screens/ChangePasswordScreen.tsx:29-52 | current password required; the new one checked as at signup; the confirmation must match; valid iff no errors |
| Forms.HandleChangePassword | src/microfrontends/profile/screens/ChangePasswordScreen.tsx:54-64 | dispatches the whole form iff it is valid |
| Forms.InitialProfileForm | src/microfrontends/profile/screens/EditProfileScreen.tsx:19-24 | the user's name and email, and phone and bio or `''`; all empty without a user |
| Forms.ProfileEmailError | src/microfrontends/profile/screens/EditProfileScreen.tsx:32-36 | `required` iff the trimmed email is empty; `email` iff it does not match; none otherwise |
| Forms.ValidateProfile | src/microfrontends/profile/screens/EditProfileScreen.tsx:27-39 | name required after trimming; email as `ProfileEmailError`; valid iff no errors |
| Forms.HandleSaveProfile | src/microfrontends/profile/screens/EditProfileScreen.tsx:41-51 | dispatches the form unchanged iff it is valid |
| Forms.PaddedEmailAccepted | src/microfrontends/profile/screens/EditProfileScreen.tsx:32-36 | the unanchored test accepts `" a@b.c "`, spaces and all |
| Initials.FirstChar | src/microfrontends/profile/screens/ProfileScreen.tsx:108 | `charAt(0)`: the first character, or `''` |
| Initials.Heads | src/microfrontends/profile/screens/ProfileScreen.tsx:108-109 | the joined first characters are at most one per word |
| Initials.Prefix | src/microfrontends/profile/screens/ProfileScreen.tsx:111 | `slice(0, n)` is a prefix of length `min(n, len)` |
| Initials.WordStarts | src/microfrontends/profile/screens/ProfileScreen.tsx:105-112 | the reference reading: every non-space character after a space or at the start |
| Initials.HeadsAreWordStarts | src/microfrontends/profile/screens/ProfileScreen.tsx:107-109 | the split-map-join chain gives exactly the word starts |
| Initials.InitialsAreFirstLetters | src/microfrontends/profile/screens/ProfileScreen.tsx:105-112 | the initials are the upper-cased word starts, at most two |
| Initials.GetInitials | src/microfrontends/profile/screens/ProfileScreen.tsx:105-112 | `getInitials`: at most two characters |
| Initials.SpacesHaveNoWordStarts | src/microfrontends/profile/screens/ProfileScreen.tsx:107-109 | a run of spaces has no word starts |
| Initials.AllSpacesNoInitials | src/microfrontends/profile/screens/ProfileScreen.tsx:105-112 | a name of spaces has no initials |
| Initials.ExtraSpacesIgnored | src/components/CustomDrawerContent.tsx:143-150 | leading and repeated spaces add nothing, and only two words count: `" a  b c"` gives `"AB"` |
| Initials.TabDoesNotSeparate | src/components/CustomDrawerContent.tsx:143-150 | only the space separates words: `"jo\tdo"` gives `"J"` |
| Initials.AvatarOf | src/microfrontends/profile/screens/ProfileScreen.tsx:122-128 | a truthy avatar shows the picture; otherwise a non-empty name shows its initials; otherwise `'U'`; letters are at most two |
| Initials.HeaderWith | src/components/CustomDrawerContent.tsx:157-171 | the avatar, and the name and email or their fallbacks |
| Initials.ProfileHeader | src/microfrontends/profile/screens/ProfileScreen.tsx:122-131 | fallbacks `'Guest User'` and `'guest@example.com'`; no user shows `'U'` |
| Initials.DrawerHeader | src/components/CustomDrawerContent.tsx:157-171 | fallbacks `'User Name'` and `'user@example.com'`; no user shows `'U'` |
| Initials.SameAvatarEverywhere | src/components/CustomDrawerContent.tsx:143-163 | the profile screen and the drawer show the same avatar, and the same present name |
| Initials.BlankNameShowsNothing | src/microfrontends/profile/screens/ProfileScreen.tsx:126 | a name of spaces is truthy, so the circle shows no letters rather than `'U'` |

## Left out

- Transport internals are not modelled: axios itself, timeouts, the request timestamps and the console logging of the interceptors. A request carries its verb, URL and headers; bodies are not inspected by the client.
- `upload`, `download` and the `ApiClient.ts` request helpers beyond the five verbs are not part of this model. They use the same wrapping as the five verbs.
- The remaining `AuthService.ts` methods (`verifyEmail`, `resendVerificationEmail`, the two-factor calls) are not modelled. They use the same envelope unwrapping as `Check`/`Unwrap`. Note that `success: false` is the only failure signal these methods test: a client wrapper never throws.
- `StorageService.ts` operations outside the core are left out: `clear`, `setObject`/`getObject`, `clearSecureStorage`, the biometric calls and `exportData`. `migrateSettings` reads the settings object as a value rather than through `getObject`'s JSON parsing.
- The failing keys of each store are inputs, so failures are modelled rather than the platform errors that cause them.
- Concurrency is not modelled: every async step runs to completion in program order. The one interleaving modelled is two overlapping `useApi` calls (`Hooks.OverlappingCalls`). Store persistence and rehydration are not modelled.
- Clocks are inputs: `Date.now()` is an input string. `new Date(...)` is modelled only as "valid with this millisecond value or invalid".
- Translation is left out. Validator errors are the translation keys the screens pass to `t()`.
- Strings are ASCII: `trim`, `toUpperCase`, `\s` and `\S` cover only ASCII white space and letters.
- AppInit.SegmentValue: its own contract states the digit-only case; the trimmed, signed and non-numeric cases are stated by `AppInit.SegmentValueCases`. It reads hexadecimal, exponent and other non-decimal forms that `Number` accepts as 0. Its values are exact integers, while `Number` rounds to the nearest double above 2^53, so `isVersionGreater('9007199254740993', '9007199254740992')` is false in the source and true here (`AppInit.VersionGreater` and `AppInit.IsVersionGreater` inherit this).
- AppInit.ParseInt: its values are exact integers, while `parseInt` returns a double that rounds above 2^53, so `isMajorUpdate('9007199254740992.0', '9007199254740993.0')` is false in the source (both leading integers round to 9007199254740992) and true here. `AppInit.IsMajorUpdate` and `AppInit.PlanUpdate` (and so `AppInit.HandleAppUpdate`) inherit this: above 2^53 the model can plan a cache clear the source does not make.
- AppInit.IsMajorUpdate: inherits the exact-integer reading of `AppInit.ParseInt` above 2^53.
- AppInit.PlanUpdate: inherits the exact-integer readings of `AppInit.ParseInt` and `AppInit.SegmentValue` above 2^53, for both the migration and the cache-clear decision.
- AppInit.LaunchOnce: relies on a key's reads and writes failing together. A store whose read of `hasLaunchedBefore` fails (read as `null`) while its write succeeds makes `checkFirstLaunch` return true on every call; that mix is not modelled.
- `Users.Merge`: a patch can replace a field but cannot set an optional field to `undefined`. User preferences inside the user record are omitted.
- Api.Pipeline: when the reply script runs out, the exchange is `Unanswered`. This stands for a request that never completes. It is not a state the source can report.
- Messages are strings. A thrown non-`Error` value, or one whose message is not a string, is not modelled.
- Selectors, `initializeApp`, `getDeviceInfo` and the `catch` of `getAppInfo` are left out. They are reads or device calls with no decisions.
- `initializeFirstLaunchSettings` is left out. It writes the default settings object through `setObject` (a JSON text) and the first-launch timestamp, and swallows any failure; JSON serialization is not modelled.
- The `MicrofrontendComponents`, `MicrofrontendHooks` and `MicrofrontendServices` merges are not modelled. They have the same shape as the screens merge, which `Registry.RegistryManager.Screens` models.
- Registry names that are also members of `Object.prototype` (`toString`, `constructor`, ...) or that look like array indices are outside the model. The registry is a plain object literal: `hasModule('toString')` is true there and `loadModule('constructor')` resolves, and `Object.values` lists index-like names first. The model treats every name as an ordinary key kept in insertion order.
- AuthSlice.Login: the service answer is an input, taken without the response interceptor's token writes. In the source, a 401 inside the service call makes the interceptor refresh and write `accessToken` and `refreshToken` to the keychain before the answer arrives. `Api.Pipeline` models those writes for one request; the thunk's keychain clauses describe only what the thunk itself writes and removes.
- AuthSlice.Signup: takes the service answer without the interceptor's token writes, as `AuthSlice.Login` does; "the keychain is unchanged" on a rejected answer means the thunk writes nothing.
- AuthSlice.ChangePassword: takes the service answer without the interceptor's token writes, as `AuthSlice.Login` does.
- AuthSlice.ForgotPassword: takes the service answer without the interceptor's token writes, as `AuthSlice.Login` does.
- AuthSlice.ResetPassword: takes the service answer without the interceptor's token writes, as `AuthSlice.Login` does.
- AuthSlice.Refresh: takes the service answer without the interceptor's token writes, as `AuthSlice.Login` does; "the keychain is unchanged" on a rejected answer means the thunk writes nothing.
- AuthSlice.CheckAuthStatus: takes the service answer without the interceptor's token writes, as `AuthSlice.Login` does; it reads storage and writes nothing itself.
- AuthSlice.AuthState.DispatchLogin, AuthSlice.AuthState.DispatchRefresh and AuthSlice.AuthState.DispatchCheck: inherit the same from the thunks they run.
- AppInit.HandleAppUpdate: the migration's write of `appSettings` is returned as `migrated` rather than written into `storage.items`. The source writes it through `setObject` as a JSON text and swallows a failing write; JSON serialization is not modelled. The settings object it reads is an input too.
- AppInit.UpdateAppVersion: inherits that from `AppInit.HandleAppUpdate`. Its `storage.items` clause leaves out the `appSettings` write of the migration, which it returns as `migrated`.
- Api.ApiClient.SetDefaultHeader: edits the same header map that holds the constructor's `Content-Type` and `Accept`. In the source those two are instance headers, which `defaults.headers.common` neither overrides nor removes; the model does not keep the two maps apart.
- Api.ApiClient.RemoveDefaultHeader: the same; removing `Content-Type` or `Accept` here drops the header, which in the source stays.
- AppSlice: window sizes are integers, while the source's are JavaScript numbers that may be fractional. The tablet and orientation tests compare them the same way.
- Hooks: a `useApi` `onSuccess` or `onError` callback that throws is not modelled. In the source the throw is caught and recorded as the hook's error.
- Screen components, routes and modules' React components are modelled by name only.
- The `immediate` effect of `useApi` is not modelled. It is one `execute` on mount.
- `useForm`'s exposed `setFormData` is not modelled.
- Which data values JavaScript treats as falsy is a parameter of the `useApi` hook (`falsy`), since the datum's type is generic.
- The signup and refresh thunks write `response.token` and `response.refreshToken` even when they are undefined. Such a value is modelled as the stored text of a missing value (`Api.StoredText`), which a later `getSecureItem` reads as null.
