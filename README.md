# Newsbite app core, modelled in Dafny

This project models the stateful core of the Newsbite news-reader app and proves properties of it:

- the **app-lock controller**: biometric unlocking, locking when the app goes to the background,
  the persisted on/off preference and the rooted-device check;
- the **encrypted storage service**: a device key is fetched or created, values are
  JSON-encoded and encrypted, and reads fall back to legacy plain JSON;
- the **user-activity lists**: bookmarks, reading history capped at 50, and the profile;
- the **session** (token and user), the **onboarding** flag and the **light/dark theme**;
- the **category tab keys** derived from category names;
- the **sign-up and login form** validation and submission.

Each React context or service becomes a Dafny `class` whose fields are the context's state.
Each handler becomes a `method`. The method's `ensures` ties the new state to a pure
function of the old state, and the handler's properties are lemmas about that function.

Collaborators outside the core are parameters, not code:

- the AES cipher and the JSON codec are pairs of function values, with a round-trip law as a precondition;
- the random key generator, the secure store, the key-value store's success or failure, the
  biometric platform calls, the rooted-device probe and the remote authentication and
  category services are pre-decided answers (`Io`, `Probe`, `AuthAnswer`, `Outcome`, `Fetched`).

Each `await` is one atomic step.

`authenticate` has two parts:

- `BeginAuthenticate` runs up to its first `await` and sets the re-entrancy guard;
- `FinishAuthenticate` runs once the platform has answered.

This split lets the model state the in-flight guard precisely. The `Event`/`Step`/`Run` trace
model strings the handlers together.

Modules:

- `Wrappers`: `Option` and `Probe`.
- `Codecs`: the JSON value, truthiness and the codec law.
- `KeyValue`: the shared key-value store.
- `Storage`: the encrypted store.
- `Security`: the app lock.
- `Activity`: the user-activity lists and profile.
- `Auth`: the session.
- `Onboarding`: the onboarding flag.
- `Themes`: the light/dark theme.
- `Categories`: the category tab keys.
- `Forms`, `Signup` and `Login`: the two form screens.

## Model

| member | source | states |
|---|---|---|
| Storage.KeyLookup | services/storage.service.ts:9-21 | On web the key is always the fixed fallback key and the slot is untouched. On a device, a stored key that is non-empty is returned. A missing or empty slot gets the generated key, which is written to the slot. It fails exactly when the secure-store read fails, or when a new key is needed and its write fails. |
| Storage.KeyLookupStable | services/storage.service.ts:14-20 | Get-or-create: once a lookup has returned a key, the next lookup returns the same key and writes nothing. |
| Storage.DecryptedValue | services/storage.service.ts:44-52 | The inner try of getItem. A value comes only from a decryption that yields non-empty text which then parses. A decryption that yields the empty text never gives a value. |
| Storage.Decoded | services/storage.service.ts:43-63 | The two-tier read. A successfully decrypted value wins. Any other non-null result is what parsing the raw text gave, so null is the only value the read makes up. |
| Storage.Sealed | services/storage.service.ts:26-29 | What setItem writes is never the empty text that getItem treats as missing. It decrypts with the same key to the JSON text of the value. |
| Storage.SaltIrrelevant | services/storage.service.ts:24-63 | Every encryption draws its own salt, and whatever salt a write drew, the text it stored reads back as the same value. |
| Storage.DecodeSealed | services/storage.service.ts:24-48 | For a value JSON carries over unchanged, decrypting and parsing what setItem wrote with the same key gives the original value, whatever salt the encryption drew. |
| Storage.LegacyFallback | services/storage.service.ts:49-63 | If decryption throws, yields "" or yields non-JSON, the raw text is parsed as JSON. If that also fails, the value is null. |
| Storage.LegacyPlaintextRead | services/storage.service.ts:54-59 | A value stored as plain JSON before encryption existed reads back unchanged. |
| Storage.AfterSet | services/storage.service.ts:24-34 | The write succeeds exactly when a key is found and the key-value write succeeds. It stores the encrypted JSON under `k` only. On failure the entries are unchanged and the error is rethrown. |
| Storage.AfterGet | services/storage.service.ts:36-68 | A read never changes entries. A missing or empty entry, a failed read, or a failed key lookup gives null. Otherwise the key slot is the lookup's, and the value is the two-tier decoding (`Decoded`) of the stored text under the key found. |
| Storage.GetAfterSet | services/storage.service.ts:24-68 | Round trip: a read right after a successful write returns the value written, for every value JSON carries over unchanged. |
| Storage.GetOtherAfterSet | services/storage.service.ts:24-68 | Once the device key exists, writing one key does not change what any other key reads. |
| Storage.AfterRemove | services/storage.service.ts:70-72 | Removal deletes exactly `k` when the store succeeds. Otherwise it rejects and nothing changes. The key slot is untouched. |
| Storage.RemoveIdempotent | services/storage.service.ts:70-72 | Removing a key twice is the same as removing it once. |
| Storage.GetAfterRemove | services/storage.service.ts:36-72 | After a removal the key reads as null. |
| Storage.AfterClear | services/storage.service.ts:74-76 | Clear empties every entry but keeps the device key. |
| Storage.GetAfterClear | services/storage.service.ts:36-76 | After clear every key reads as null. |
| Storage.EncryptedStore.GetEncryptionKey | services/storage.service.ts:9-21 | The key returned and the new slot are those of `KeyLookup`. |
| Storage.EncryptedStore.SetItem | services/storage.service.ts:24-34 | The new store state and the result are those of `AfterSet`. |
| Storage.EncryptedStore.GetItem | services/storage.service.ts:36-68 | The value and the new state are those of `AfterGet`. |
| Storage.EncryptedStore.RemoveItem | services/storage.service.ts:70-72 | The new state is that of `AfterRemove`. |
| Storage.EncryptedStore.Clear | services/storage.service.ts:74-76 | The new state is that of `AfterClear`. |
| Storage.SetThenGet | services/storage.service.ts:24-68 | A caller that writes and then reads a key gets back what it wrote. |
| Codecs.Truthy | context/OnboardingContext.tsx:26 | `!!value`: the falsy parsed values are exactly null, false, 0 and the empty string. |
| Security.MatchesActive | context/SecurityContext.tsx:70 | `appState.match(/active/)`, a search in the status text, holds exactly for 'active' and 'inactive'. |
| Security.MatchesAway | context/SecurityContext.tsx:71 | The test for 'inactive' or 'background', a search in the status text, holds exactly for 'inactive' and 'background'. |
| Security.ActiveWord | context/SecurityContext.tsx:70 | 'active' occurs in the texts 'active' and 'inactive' and in no other status text. |
| Security.AwayWords | context/SecurityContext.tsx:71 | 'inactive' or 'background' occurs exactly in the texts 'inactive' and 'background'. |
| Security.BeginAuthenticate | context/SecurityContext.tsx:101-114 | The checks run in order: web, then disabled-and-not-forced, then the guard. The first two unlock and resolve true. The guard resolves false and changes nothing. Otherwise the guard is set and the prompt is pending. |
| Security.FinishAuthenticate | context/SecurityContext.tsx:116-146 | Every exit clears the guard. The result is true exactly when the reference policy `Unlocks` holds: the device cannot authenticate, or the prompt succeeds. Only a true result unlocks. |
| Security.FailOpen | context/SecurityContext.tsx:120-124 | A device without hardware or without enrolment unlocks and resolves true. |
| Security.FailedPromptKeepsLock | context/SecurityContext.tsx:133-146 | A failed, cancelled or throwing prompt on a capable device leaves the lock as it was and resolves false. |
| Security.AfterAppStateChange | context/SecurityContext.tsx:63-94 | If the feature is off, only the status is recorded. Going from active or inactive to inactive or background locks and blocks screen capture, on a device. Going from inactive or background to exactly 'active' starts a forced prompt only when locked and nothing is in flight. A rejected capture block stops the listener before it records the new status. The capture request it makes is PreventCapture exactly when it blocks. On the web, the forced prompt's immediate success unlocks. |
| Security.AfterLoadSettings | context/SecurityContext.tsx:46-59 | The feature flag becomes the truthiness of the stored preference. When it is on, the app locks and a forced authentication starts. Loading then finishes. |
| Security.AfterToggleAppLock | context/SecurityContext.tsx:149-158 | The flag is set first and then persisted. Only when the write resolves does the app lock (on, with a forced prompt) or unlock (off). |
| Security.AfterCheckRoot | context/SecurityContext.tsx:28-43 | Only `isRooted` can change. A warning is raised exactly on a device reported rooted. |
| Security.Step | context/SecurityContext.tsx:46-158 | Only loading the settings and toggling touch the store. Only the root check changes `isRooted`. A settlement with nothing in flight changes nothing. |
| Security.ScreenPrivacy | context/SecurityContext.tsx:160-167 | After the request of setScreenPrivacy(enable), capture is blocked on a device exactly when `enable`; on the web the setting is left as it was. |
| Security.LastPrivacyWins | context/SecurityContext.tsx:160-167 | Of two setScreenPrivacy calls only the second decides whether capture is blocked. |
| Security.ListenerMatchesPrivacy | context/SecurityContext.tsx:70-79 | After the listener's own request, capture is blocked exactly when the listener blocked it or it was blocked before. Whenever the listener locks a device, capture is blocked, just as setScreenPrivacy(true) leaves it, and setScreenPrivacy(false) lifts that block again. |
| Security.StepKeepsLock | context/SecurityContext.tsx:46-158 | On a device, with the feature on, a locked app stays locked under every event except a successful prompt, a disabling toggle or a settings reload. |
| Security.StaysLocked | context/SecurityContext.tsx:46-158 | The same holds through any sequence of such events: failure never unlocks. |
| Security.GuardNeverWedged | context/SecurityContext.tsx:113-146 | The settlement of a pending prompt always clears the guard, so the next call reaches the platform again. |
| Security.RapidAuthenticate | context/SecurityContext.tsx:112-114 | A second authenticate while the first is pending returns false with no change. After the first settles, a third call proceeds. |
| Security.StartupLocks | context/SecurityContext.tsx:46-59 | On a device with the preference stored as truthy, startup is locked with a prompt in flight before any authentication completes. |
| Security.StartupUnlocked | context/SecurityContext.tsx:46-59 | Without a truthy stored preference, startup is unlocked, the feature is off and no prompt starts. |
| Security.NoEnrolmentScenario | context/SecurityContext.tsx:63-124 | With no enrolment: going to the background locks. Coming back prompts, and the settlement unlocks with result true. |
| Security.SuccessThenBackground | context/SecurityContext.tsx:70-136 | A successful prompt unlocks, and the next trip to the background locks again. |
| Security.PromptCycleDoesNotReprompt | context/SecurityContext.tsx:82-91 | The inactive-and-back cycle that the prompt itself causes does not start a second prompt while the first is still pending. |
| Security.DisablePersists | context/SecurityContext.tsx:46-158 | Disabling unlocks at once, and a fresh start on the same store reads the feature as off. |
| Security.EnablePersists | context/SecurityContext.tsx:46-158 | Enabling is persisted: a fresh start reads it back, locks and prompts. |
| Security.DisabledNeverStuck | context/SecurityContext.tsx:107-110 | With the feature off, the public authenticate always unlocks and resolves true without a prompt. |
| Security.SecurityController.constructor | context/SecurityContext.tsx:20-25 | The controller starts unlocked, with the feature off, not rooted, nothing in flight and not loaded. |
| Security.SecurityController.Begin | context/SecurityContext.tsx:101-114 | The state change and the early answer are those of `BeginAuthenticate`. |
| Security.SecurityController.Authenticate | context/SecurityContext.tsx:174 | The public entry is `Begin(false)`, which is the `Authenticate` event of the trace model. |
| Security.SecurityController.SettlePrompt | context/SecurityContext.tsx:116-146 | The state change and the result are those of `FinishAuthenticate`. |
| Security.SecurityController.LoadSettings | context/SecurityContext.tsx:46-59 | The controller and its store move as `AfterLoadSettings` says. |
| Security.SecurityController.OnAppStateChange | context/SecurityContext.tsx:63-94 | The controller moves as `AfterAppStateChange` says. |
| Security.SecurityController.ToggleAppLock | context/SecurityContext.tsx:149-158 | The controller and its store move as `AfterToggleAppLock` says. |
| Security.SecurityController.CheckRoot | context/SecurityContext.tsx:28-43 | The controller moves as `AfterCheckRoot` says. |
| Security.SecurityController.SetScreenPrivacy | context/SecurityContext.tsx:160-167 | The request made is `ScreenPrivacy`'s: none on web, otherwise prevent exactly when `enable`, so capture ends up blocked exactly when `enable`. |
| Activity.HasId | context/UserActivityContext.tsx:87-89 | True exactly when some entry has the id. |
| Activity.WithoutId | context/UserActivityContext.tsx:93 | The entries kept are exactly those whose id differs, and the list never grows. Counts are in `WithoutIdCounts`, order in `WithoutIdAppend`. |
| Activity.WithoutIdCounts | context/UserActivityContext.tsx:93 | Filtering drops every entry with the id and keeps every other entry exactly as often as it occurred. |
| Activity.WithoutIdAppend | context/UserActivityContext.tsx:93 | Filtering preserves order: it distributes over concatenation. |
| Activity.WithoutIdAbsent | context/UserActivityContext.tsx:93 | Filtering an id that is not there changes nothing. |
| Activity.Toggled | context/UserActivityContext.tsx:78-85 | The article's presence flips. When it was absent, it is put in front of the unchanged list. When it was present, the result is the filter of the list by its id, which is shorter. |
| Activity.ToggleRemovesOnly | context/UserActivityContext.tsx:78-85 | Removing a bookmark drops only the entries with its id; every other entry stays exactly as often as it was there. |
| Activity.ToggleTwice | context/UserActivityContext.tsx:78-85 | Toggling a new article twice restores the list. |
| Activity.ToggleKeepsOrder | context/UserActivityContext.tsx:78-85 | Removing a bookmark keeps the other bookmarks in their order. |
| Activity.Recorded | context/UserActivityContext.tsx:91-96 | The article comes first and no later entry shares its id. The rest is a prefix of the filtered old history. The length is min(1 + filtered, 50). |
| Activity.AddToHistoryIdempotent | context/UserActivityContext.tsx:91-96 | Reading the same article twice in a row changes nothing the second time. |
| Activity.WithoutIdDistinct | context/UserActivityContext.tsx:93 | Filtering keeps ids distinct. |
| Activity.AddToHistoryDistinct | context/UserActivityContext.tsx:91-96 | A history with distinct ids keeps distinct ids. |
| Activity.Merge | context/UserActivityContext.tsx:98-101 | Each field present in the update wins. The others keep the old value. |
| Activity.MergeLaws | context/UserActivityContext.tsx:98-101 | Applying an update twice is applying it once. Two updates compose into one. The empty update is the identity. |
| Activity.Loaded | context/UserActivityContext.tsx:51-57 | An absent or empty entry keeps the current value. A present one is parsed, and a parse failure is reported. |
| Activity.SavedBookmarksReload | context/UserActivityContext.tsx:55-66 | What saveBookmarks wrote is what the next load adopts. |
| Activity.UserActivity.constructor | context/UserActivityContext.tsx:36-42 | The lists start empty and the profile starts as Reader / News enthusiast / no avatar. |
| Activity.UserActivity.LoadData | context/UserActivityContext.tsx:49-61 | A rejected read changes nothing. Otherwise the fields are adopted in order, and the first that fails to parse aborts the rest. |
| Activity.UserActivity.SaveBookmarks | context/UserActivityContext.tsx:63-66 | The state is set first. The JSON is written only if the store succeeds. |
| Activity.UserActivity.SaveHistory | context/UserActivityContext.tsx:68-71 | The state is set first. The JSON is written only if the store succeeds. |
| Activity.UserActivity.SaveProfile | context/UserActivityContext.tsx:73-76 | The state is set first. The JSON is written only if the store succeeds. |
| Activity.UserActivity.ToggleBookmark | context/UserActivityContext.tsx:78-85 | The bookmarks become `Toggled(old, article)` and are saved. |
| Activity.UserActivity.IsBookmarked | context/UserActivityContext.tsx:87-89 | True exactly when some bookmark has the id. |
| Activity.UserActivity.AddToHistory | context/UserActivityContext.tsx:91-96 | The history becomes `Recorded(old, article)` and is saved. |
| Activity.UserActivity.UpdateProfile | context/UserActivityContext.tsx:98-101 | The profile becomes `Merge(old, update)` and is saved. |
| Activity.UserActivity.ClearHistory | context/UserActivityContext.tsx:103-105 | The history is emptied and saved. Bookmarks and profile are untouched. |
| Activity.UserActivity.ClearAllData | context/UserActivityContext.tsx:107-118 | The three keys are removed in turn, and a rejected removal stops there. Only on full success are the lists emptied and the profile reset to the default. |
| Auth.AfterLoadSession | context/AuthContext.tsx:32-46 | Token and user are restored only when both stored values are truthy, and otherwise kept. Loading ends either way. |
| Auth.AfterSignIn | context/AuthContext.tsx:48-78 | A remote failure leaves token, user and store unchanged and rejects. Success sets token and user from the response and then persists both in turn. A failed write rejects with the state already set. The store is the token write's state when that write fails, and the user write's state after it otherwise. Loading ends either way. |
| Auth.AfterLogout | context/AuthContext.tsx:80-91 | Success removes both keys and nulls token and user. A failed removal is swallowed and leaves the session as it was. The store is unchanged when the first removal fails, and has lost only the token when the second one fails. Loading ends either way. |
| Auth.SignInThenRestore | context/AuthContext.tsx:32-62 | A session persisted by a successful sign-in, with a non-empty token and a truthy user, is restored on the next start. |
| Auth.LogoutThenRestore | context/AuthContext.tsx:32-91 | After a successful logout, the next start finds no session. |
| Auth.AuthSession.constructor | context/AuthContext.tsx:24-26 | Token and user start null, with loading on. |
| Auth.AuthSession.LoadSession | context/AuthContext.tsx:32-46 | The session and the store move as `AfterLoadSession` says. |
| Auth.AuthSession.SignIn | context/AuthContext.tsx:49-61 | The session and the store move as `AfterSignIn` says. |
| Auth.AuthSession.Login | context/AuthContext.tsx:48-62 | The session and the store move as `AfterSignIn` says, for the login response. |
| Auth.AuthSession.Register | context/AuthContext.tsx:64-78 | The session and the store move as `AfterSignIn` says, for the register response. |
| Auth.AuthSession.Logout | context/AuthContext.tsx:80-91 | The session and the store move as `AfterLogout` says. |
| Onboarding.AfterCheck | context/OnboardingContext.tsx:23-33 | The flag becomes the truthiness of the stored value, and loading ends. |
| Onboarding.AfterComplete | context/OnboardingContext.tsx:35-42 | true is written, and the flag becomes true only when the write resolves. A failure is swallowed. |
| Onboarding.AfterReset | context/OnboardingContext.tsx:44-51 | The key is removed, and the flag becomes false only when the removal resolves. A failure is swallowed. |
| Onboarding.CompleteThenCheck | context/OnboardingContext.tsx:25-37 | After completing, a fresh check reads true. |
| Onboarding.ResetThenCheck | context/OnboardingContext.tsx:25-46 | After a reset, a fresh check reads false. |
| Onboarding.OnboardingState.constructor | context/OnboardingContext.tsx:16-17 | The flag starts null, with loading on. |
| Onboarding.OnboardingState.CheckStatus | context/OnboardingContext.tsx:23-33 | The state moves as `AfterCheck` says. |
| Onboarding.OnboardingState.CompleteOnboarding | context/OnboardingContext.tsx:35-42 | The state moves as `AfterComplete` says. |
| Onboarding.OnboardingState.ResetOnboarding | context/OnboardingContext.tsx:44-51 | The state moves as `AfterReset` says. |
| Themes.Chosen | context/ThemeContext.tsx:42-47 | The saved name is adopted exactly when it is 'light' or 'dark'. Otherwise the theme is dark exactly when the system scheme is dark. |
| Themes.Flipped | context/ThemeContext.tsx:64-66 | The toggle always changes the theme. |
| Themes.FlipTwice | context/ThemeContext.tsx:64-66 | Toggling twice is the identity. |
| Themes.SavedThemeReloaded | context/ThemeContext.tsx:42-58 | A saved theme name is adopted again whatever the system scheme. |
| Themes.UnknownNameIgnored | context/ThemeContext.tsx:43-47 | Any other saved text is treated like no saved value. |
| Themes.ColorsOf | constants/Colors.ts:1-29 | Each theme gets its palette, with the shared tint. |
| Themes.PalettesContrast | constants/Colors.ts:5-28 | In each palette the text colour differs from the background. The dark palette's text is the light palette's background colour. |
| Themes.ThemeController.constructor | context/ThemeContext.tsx:26-27 | The theme starts dark and not loaded. |
| Themes.ThemeController.LoadTheme | context/ThemeContext.tsx:40-53 | When the read succeeds, the theme becomes `Chosen` of the stored name, or of null when nothing is stored. On a failed read it is kept. Loading ends either way. |
| Themes.ThemeController.SetTheme | context/ThemeContext.tsx:55-62 | The theme changes first. The name is written only if the store succeeds, and a failed save does not revert the theme. |
| Themes.ThemeController.ToggleTheme | context/ThemeContext.tsx:64-66 | The theme becomes the other one and is saved. `isDark` flips and the palette changes. |
| Themes.ThemeController.IsDark | context/ThemeContext.tsx:72-73 | `isDark` holds exactly when the palette in use is the dark one, that is, when the background is the dark background. |
| Themes.ThemeController.Colors | context/ThemeContext.tsx:72 | The dark palette exactly when the theme is dark, else the light one. |
| Themes.SetThenReload | context/ThemeContext.tsx:40-62 | A theme set and saved is the one the next start loads. |
| Categories.Lower | components/CategoryTabs.tsx:78 | Lower-casing changes only letters A to Z, and never makes or removes whitespace. |
| Categories.LowerAll | components/CategoryTabs.tsx:78 | Each character is lower-cased in place, and the length is kept. |
| Categories.DropSpaces | components/CategoryTabs.tsx:78 | Skipping a whitespace run never lengthens the text and stops at a non-space or the end. |
| Categories.DropSpacesSuffix | components/CategoryTabs.tsx:78 | Exactly the leading whitespace run is skipped: what is left is a suffix of the text, and everything before it is whitespace. |
| Categories.Collapse | components/CategoryTabs.tsx:78 | `replace(/\s+/g, '-')` never lengthens the text, and gives the empty text only for the empty text. |
| Categories.Slug | components/CategoryTabs.tsx:78 | A route key is never longer than the name under the A to Z lower-casing of `Categories.Lower` (see "## Left out"), and is empty only for the empty name. |
| Categories.CollapseNoSpace | components/CategoryTabs.tsx:78 | Replacing each whitespace run with '-' leaves no whitespace. |
| Categories.SlugNoSpace | components/CategoryTabs.tsx:78 | No route key contains whitespace. |
| Categories.CollapseKeepsSpaceless | components/CategoryTabs.tsx:78 | Text without whitespace is left unchanged by the replacement. |
| Categories.SlugOfPlainName | components/CategoryTabs.tsx:78 | The key of a lower-case name without whitespace is the name itself. |
| Categories.SlugIgnoresCase | components/CategoryTabs.tsx:78 | Names that differ only in letter case get the same key. |
| Categories.CollapseWiden | components/CategoryTabs.tsx:78 | Lengthening any whitespace run by one character does not change the replacement. |
| Categories.SlugIgnoresRunLength | components/CategoryTabs.tsx:78 | Names that differ only in the length of a whitespace run get the same key. |
| Categories.CollapseJoin | components/CategoryTabs.tsx:78 | No whitespace run crosses a point after a non-space character: the text on each side of it is replaced on its own. |
| Categories.CollapseRun | components/CategoryTabs.tsx:78 | A maximal whitespace run becomes exactly one '-': the text before it and the text after it are replaced on their own and joined by '-'. |
| Categories.SlugRun | components/CategoryTabs.tsx:78 | The key of a name is the keys of the parts around a maximal whitespace run, joined by '-'. |
| Categories.RoutesOf | components/CategoryTabs.tsx:76-81 | Exactly one route per name, in order, with the name as title and its slug as key. |
| Categories.AfterFetch | components/CategoryTabs.tsx:69-84 | The routes are replaced only by a successful, non-null answer, and are otherwise kept. Loading ends either way. |
| Categories.FetchAtMount | components/CategoryTabs.tsx:65-84 | From the initial state, an error or null data leaves no tabs. No route key ever contains whitespace. |
| Forms.MessageOr | app/auth/login.tsx:32 | The error's message or the fallback: the error's own message wins when it has one, and the text shown is empty only when both are empty. |
| Forms.Utf16Length | app/auth/signup.tsx:35 | `length` counts UTF-16 code units. It lies between the character count and twice it, and equals the character count when every character is in the BMP. |
| Forms.Screen.Apply | app/auth/login.tsx:26-35 | Appends the submission's alert. Navigates to the tabs only when the submission says so. Leaves `isSubmitting` false. |
| Signup.SignupError | app/auth/signup.tsx:25-38 | The first failing check in the order: empty field, mismatch, length below 6. Each message is given exactly when its condition holds and the earlier checks pass. No error means every check passes. |
| Signup.MismatchBeforeLength | app/auth/signup.tsx:30-38 | A short mismatched pair reports the mismatch. |
| Signup.RejectionExplained | app/auth/signup.tsx:24-50 | Every alert the sign-up screen raises, for a failed check, a rejection or success, has a non-empty message. |
| Signup.HandleSignup | app/auth/signup.tsx:24-50 | register is called, with the fields unchanged, exactly when validation passes. Navigation happens exactly when register resolves. The error / success / failure alert carries the matching message, with the default text when the error has none. |
| Signup.SubmitSignup | app/auth/signup.tsx:24-50 | The screen navigates away only after a valid form was registered successfully. `isSubmitting` always ends false. |
| Login.HandleLogin | app/auth/login.tsx:20-36 | login is called, with the fields unchanged, exactly when both are non-empty. Navigation happens exactly when login resolves. The alerts carry the matching messages. |
| Login.NoLengthRule | app/auth/login.tsx:21-28 | Any non-empty pair is sent, however short. |
| Login.SignupAcceptedLogsIn | app/auth/login.tsx:21-28 | Every email and password that sign-up accepts is sent on by login. |
| Login.RejectionExplained | app/auth/login.tsx:31-32 | A rejected login always shows a non-empty reason. |
| Login.SubmitLogin | app/auth/login.tsx:20-36 | The screen navigates away only after login resolves. `isSubmitting` always ends false. |

## Left out

- Cipher and key generation: AES, the bit-level ciphertext, confidentiality and key entropy are not modelled. The cipher is a pair of functions with a decrypt-after-encrypt law. The random salt each encryption draws and the randomly generated key are parameters (`Io.salt`, `Io.generated`).
- JSON: numbers are integers, so floating-point values are not modelled. The JSON codec is a pair of functions with a parse-after-stringify law (`Codecs.LawfulJson`) that is assumed only for `Portable` values: integers within Number.MAX_SAFE_INTEGER, and objects with distinct keys none of which is a canonical decimal. What JSON.parse makes of other values (lost precision, the last duplicate key winning, index keys moved to the front) is not modelled, so the round-trip lemmas say nothing about them.
- Codecs.Portable: every canonical decimal key is excluded, although JavaScript moves only those below 2^32 - 1 to the front. The round trip is therefore claimed for fewer objects than it holds for.
- Activity.SavedBookmarksReload: the bookmark codec's law (`Codecs.Lawful`) is assumed for every list. News items hold only strings and optional strings under fixed, distinct, non-numeric keys, so no value is excluded there.
- Platform and network: LocalAuthentication, the rooted-device probe, ScreenCapture, SecureStore, AsyncStorage failures and the remote services (AuthService's fetch, the categories query) are parameters that give each call's answer.
- Alerts raised by the contexts: the rooted-device warning (modelled only as `warned`) and the context's own 'Login Failed' / 'Registration Failed' alert before it rethrows are not modelled. The form screens' alerts are.
- React runtime: state batching, stale closures, listener re-subscription and unawaited promises are not modelled. Each await is one atomic step, and `authenticate`'s in-flight guard is the one interleaving modelled. An unawaited save in the activity context is a write that succeeds or fails before the next event.
- Signup.SubmitSignup: `isSubmitting` is true only while the awaited call runs. Calls are atomic here, so only its final value, false, is stated. The same holds for Login.SubmitLogin.
- Categories.Lower: lower-casing covers only A to Z. Other letters that Unicode lower-cases are kept as they are.
- Categories.Slug: the length bound relies on that A to Z lower-casing. JavaScript's `toLowerCase` can lengthen text (U+0130 becomes two code units), so for such names the real key may be longer than the name.
- Forms.Utf16Length: lone surrogates, which a Dafny string cannot hold, are not modelled.
- Activity.Merge: an update field given explicitly as undefined is treated as absent, whereas the spread would copy the undefined.
- The theme effect at context/ThemeContext.tsx:33-38 never acts, because the theme is never falsy. The tab-press handler at components/CategoryTabs.tsx:112 is UI wiring. Neither is modelled.
- The catch in checkStatus (context/OnboardingContext.tsx:27-29) is unreachable, because getItem turns every error into null, so it is not modelled.
- Screens, animation, navigation beyond the tab route, notifications, news fetching and the scripts are not modelled.
