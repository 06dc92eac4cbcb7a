# JobPulse client: a Dafny model of its session and settings logic

JobPulse's browser client signs a user in through Google, shows the job applications found in
their mailbox, and offers settings screens for notifications, Discord integration and account
deletion. Most of the client is markup. This project models the logic behind that markup:

- **Auth** (`auth.dfy`): the authentication context. `AuthProvider` holds the profile, the
  `isLoading` and `isAuthenticated` flags, and the bearer token kept under the storage key `token`.
  Mount-time verification, Google login and logout change them. The invariant is that an
  authenticated session always has a stored token.
- **Notifications** (`notifications.dfy`): the notification settings screen. The profile keeps
  channels and contact values as two parallel comma-separated strings. `ParseFields` splits, trims
  and pairs them. `Serialize` joins them back and falls back to the stored field when a join is
  empty. `NotificationSettings` adds, removes and edits entries, and saves them. The central result
  is `SaveRoundTrip`: parsing what a save sends gives back the list.
- **Stepper** (`stepper.dfy`): the step wizard dialog. The current-step index stays in range under
  Next, Back and close; the Finish and Back buttons follow it.
- **Onboarding** (`onboarding.dfy`): the onboarding demo, which drives a five-step wizard. It
  persists `{onboarding, completed}` under the storage key `onboarding` and restores it on mount.
- **Discord** (`discord.dfy`): the webhook URL check, the save with its sequence of flags, the
  toggle of the expanded setup step, and the effect that syncs `webhookEnabled` with the profile.
- **JobBoard** (`jobboard.dfy`): delete-by-id filtering of the dashboard's cards, the status badge
  classes, and the banner and empty-state conditions.
- **AccountDeletion** (`account_deletion.dfy`): the typed-email guard before deletion, and what a
  successful or failed deletion does. A success logs out through the shared `AuthProvider`.
- **SettingsNav** (`settings_nav.dfy`): the sidebar items, the active-item rule and the redirect
  from `/settings`.
- **Text**, **Types**, **Wrappers**: JavaScript's `trim`, `split`, `join` and `startsWith` on
  `seq<char>`; the profile record and request outcomes; `Option` and `Outcome`.

Every network request is an input parameter describing how it ended:

- `FetchResult` for `fetch`: ok with a body, non-ok with the error body's message, or thrown.
- `AxiosResult` for axios: resolved with data, or rejected with the server's message and the
  error's own message.

A handler returns the request it would send (or `None` when it sends none) and the toasts it
raises. Each storage key is an `Option` field. Each component's state is a class whose methods
state its entire new state.

Several behaviours of the code become explicit in the contracts:

- `Discord.DiscordIntegration.HandleSave` clears `error` and sets `success` after a failed request
  too ( `DiscordWebhook.tsx:68-70` run after the `finally`), so a failure is followed by a
  "Webhook saved successfully!" toast.
- `Onboarding.OnboardingDemo` passes its step to the wizard in props the wizard does not declare.
  So the step it stores is always the one read on mount (`FinishThenRemount`).
- The backend's `"NULL"` webhook sentinel is a non-empty string. The Discord screen therefore
  reports a saved webhook while the dashboard shows its "no webhook" banner
  (`JobBoard.SentinelCountsAsWebhook`).
- Saving an emptied notification list sends the stored fields again, so the list cannot be cleared
  (`Notifications.EmptyListKeepsStored`).
- The delete response is read through the field name `revokeAcess`, and the model keeps that
  reading as `DeleteReply.revokeAccess`.

The client does not merge realtime updates, poll as a fallback, or keep a snapshot of the test
account: the realtime block in `Dashboard.tsx` is commented out. Verification removes the stored
token only on a non-ok response, not when the request throws. `googleLogin` sends only the
credential.

## Model

| member | source | states |
|---|---|---|
| `Text.Trim` | src/components/Settings/NotificationSettings.tsx:70-71 | the result has no space at either end and is the slice of the input between its leading and trailing runs of ECMA-262 whitespace, everything cut being whitespace |
| `Text.TrimIdempotent` | src/components/Settings/NotificationSettings.tsx:70-71 | trimming twice equals trimming once |
| `Text.Split` | src/components/Settings/NotificationSettings.tsx:70-71 | `split(',')` always yields at least one piece and no piece contains the separator |
| `Text.SplitCount` | src/components/Settings/NotificationSettings.tsx:70 | a split has exactly one more piece than the string has separators |
| `Text.JoinSplit` | src/components/Settings/NotificationSettings.tsx:70 | joining the pieces of a split gives back the original string |
| `Text.SplitJoin` | src/components/Settings/NotificationSettings.tsx:138-139 | splitting the join of separator-free pieces gives back the pieces |
| `Text.JoinEmpty` | src/components/Settings/NotificationSettings.tsx:142-143 | a join is empty iff the list is empty or is one empty piece, which is when the save falls back to the stored field |
| `Text.Join` | src/components/Settings/NotificationSettings.tsx:138-139 | `join(',')`: its emptiness is `JoinEmpty`, and `SplitJoin`/`JoinSplit` make it the inverse of `Split` |
| `Text.StartsWith` | src/components/Settings/DiscordWebhook.tsx:30 | `startsWith`: the string begins with the whole prefix |
| `Types.OrElse` | src/components/Settings/NotificationSettings.tsx:142-144 | JavaScript's or-fallback on optional strings: the first when present and non-empty, otherwise the second |
| `Types.Truthy` | src/components/Settings/NotificationSettings.tsx:67 | JavaScript truthiness of an optional string: present and non-empty |
| `Types.RejectionText` | src/components/Settings/NotificationSettings.tsx:169 | the shown error is the server's message when it has one, else the error's own message |
| `Auth.AuthProvider.constructor` | src/components/context/AuthContext.tsx:9-11 | the provider mounts with no user, loading, unauthenticated, over the stored token |
| `Auth.AuthProvider.CheckAuth` | src/components/context/AuthContext.tsx:15-38 | a falsy stored token means no request and nothing changes; with a token, ok sets the user and authenticates, non-ok removes the token and nothing else, a throw changes nothing; loading always ends false; the invariant holds from an unauthenticated start |
| `Auth.AuthProvider.GoogleLogin` | src/components/context/AuthContext.tsx:43-66 | the request body is the credential alone; success stores the returned token, sets the user and authenticates; non-ok or a throw fails with the server's or the thrown message and leaves token, user and authentication unchanged; loading ends false; the invariant is kept |
| `Auth.AuthProvider.Logout` | src/components/context/AuthContext.tsx:68-77 | the token is removed, the user cleared, the session unauthenticated and not loading |
| `Auth.AuthProvider.SetUser` | src/components/context/AuthContext.tsx:84 | replaces the profile and nothing else |
| `Auth.ReloadAfterLogout` | src/components/context/AuthContext.tsx:17-18 | after logout, a reload's check sends no request and ends unauthenticated and not loading |
| `Notifications.ParseFields` | src/components/Settings/NotificationSettings.tsx:67-77 | no entries when either field is missing or empty; otherwise one entry per channel piece, entry i pairing the trimmed i-th channel with the trimmed i-th value or `''`, surplus values dropped |
| `Notifications.Parse` | src/components/Settings/NotificationSettings.tsx:57 | `getNotifications(user)`: `ParseFields` on the profile's channel and value fields |
| `Notifications.HasBlankValue` | src/components/Settings/NotificationSettings.tsx:126 | true iff some entry's value trims to empty |
| `Notifications.SaveRejected` | src/components/Settings/NotificationSettings.tsx:126-128 | the save guard: a non-empty list with no trigger or some blank value; `SaveGuard` states both directions |
| `Notifications.SaveGuard` | src/components/Settings/NotificationSettings.tsx:126-132 | an empty list always passes; a non-empty list passes iff a trigger is chosen and every value is non-blank |
| `Notifications.Serialize` | src/components/Settings/NotificationSettings.tsx:138-145 | channels and values are sent as their `,`-joins, each falling back to the stored field when empty; the status falls back likewise |
| `Notifications.EmptyListKeepsStored` | src/components/Settings/NotificationSettings.tsx:138-145 | saving an empty list sends the stored channel and value fields unchanged |
| `Notifications.ParseJoins` | src/components/Settings/NotificationSettings.tsx:70-76 | parsing the joins of storable entries with non-empty values gives back the entries |
| `Notifications.SaveRoundTrip` | src/components/Settings/NotificationSettings.tsx:138-160 | a list that passes the guard, with no commas or edge whitespace, is sent as its own joins, and parsing what was sent yields the same list |
| `Notifications.SpliceStart` | src/components/Settings/NotificationSettings.tsx:85 | `splice`'s start: in-range indices as given, negative ones counted from the end and clamped at 0, indices past the end clamped to the length |
| `Notifications.Removed` | src/components/Settings/NotificationSettings.tsx:83-87 | exactly the entry at the start position is removed and the rest keep their order; a start past the end removes nothing |
| `Notifications.RemoveInRange` | src/components/Settings/NotificationSettings.tsx:85 | for an in-range index the result is the list without that entry |
| `Notifications.Changed` | src/components/Settings/NotificationSettings.tsx:89-93 | only the chosen field of the chosen entry changes; length and all other entries are unchanged |
| `Notifications.NotificationSettings.constructor` | src/components/Settings/NotificationSettings.tsx:47-51 | no entries, the ALL trigger, not saving, no success, no error |
| `Notifications.NotificationSettings.OnUserChanged` | src/components/Settings/NotificationSettings.tsx:55-65 | when a user is present the entries are reparsed from it and a truthy stored status replaces the trigger |
| `Notifications.NotificationSettings.HandleAdd` | src/components/Settings/NotificationSettings.tsx:79-81 | exactly one `{WHATSAPP, ''}` entry is appended after the unchanged earlier entries |
| `Notifications.NotificationSettings.HandleRemove` | src/components/Settings/NotificationSettings.tsx:83-87 | the list becomes `Removed` of the old list |
| `Notifications.NotificationSettings.HandleChange` | src/components/Settings/NotificationSettings.tsx:89-93 | the list becomes `Changed` of the old list |
| `Notifications.NotificationSettings.HandleStatusChange` | src/components/Settings/NotificationSettings.tsx:95-97 | the trigger becomes the chosen status |
| `Notifications.NotificationSettings.HandleSave` | src/components/Settings/NotificationSettings.tsx:125-175 | a rejected list sends nothing and only sets the error; otherwise the serialised patch is sent; success reloads the list from the response, replaces the user and sets success with a reset timer; failure shows the message; saving ends false |
| `Notifications.NotificationSettings.SettleSave` | src/components/Settings/NotificationSettings.tsx:160-171 | a returned profile reloads the list from it, replaces the context's user, sets success and schedules its reset; a failure leaves list and user alone and shows the server's message or the error's own |
| `Notifications.NotificationSettings.OnResetTimer` | src/components/Settings/NotificationSettings.tsx:167 | the success flag is cleared when the timer fires |
| `Stepper.SteppedModal.constructor` | src/components/Tutorials/SteppedModal.tsx:30-31 | the wizard starts at step 0 within bounds |
| `Stepper.SteppedModal.HandleNext` | src/components/Tutorials/SteppedModal.tsx:34-42 | before the last step the index grows by exactly one with no callback; on the last step it stays and `onComplete` (when given) then `onClose` run; bounds are kept |
| `Stepper.SteppedModal.HandleBack` | src/components/Tutorials/SteppedModal.tsx:44-48 | a no-op at step 0, otherwise the index drops by exactly one, so it moves exactly when Back is shown; bounds are kept |
| `Stepper.SteppedModal.HandleClose` | src/components/Tutorials/SteppedModal.tsx:50-54 | the index resets to 0 and `onClose` runs |
| `Stepper.SteppedModal.PrimaryLabel` | src/components/Tutorials/SteppedModal.tsx:107 | the button reads "Finish" iff the current step is the last, otherwise "Next" |
| `Stepper.SteppedModal.ShowsBack` | src/components/Tutorials/SteppedModal.tsx:93 | Back is rendered iff the step is positive; `HandleBack` moves exactly then |
| `Stepper.SteppedModal.ButtonsMatchHandlers` | src/components/Tutorials/SteppedModal.tsx:93-107 | Finish is shown exactly where Next completes instead of advancing |
| `Stepper.WalkThrough` | src/components/Tutorials/SteppedModal.tsx:34-42 | on a three-step wizard, the third Next completes and closes while the index stays on the last step |
| `Onboarding.OnboardingDemo.constructor` | src/components/Tutorials/OnboardingDemo.tsx:8-9 | the demo starts closed at step 0 with a fresh five-step wizard |
| `Onboarding.OnboardingDemo.Mount` | src/components/Tutorials/OnboardingDemo.tsx:13-28 | no record or an unparseable one changes nothing; a record with a step restores it; the dialog opens iff the record is not marked completed |
| `Onboarding.OnboardingDemo.HandleStoreValue` | src/components/Tutorials/OnboardingDemo.tsx:36-43 | storage always holds `{onboarding: currentStep, completed: true}` |
| `Onboarding.OnboardingDemo.HandleComplete` | src/components/Tutorials/OnboardingDemo.tsx:135-137 | completing stores the completed record |
| `Onboarding.OnboardingDemo.HandleDiscordIntegration` | src/components/Tutorials/OnboardingDemo.tsx:30-34 | stores the completed record and navigates to the Discord settings |
| `Onboarding.OnboardingDemo.StartOnboarding` | src/components/Tutorials/OnboardingDemo.tsx:141 | the button opens the dialog |
| `Onboarding.OnboardingDemo.PressNext` | src/components/Tutorials/OnboardingDemo.tsx:145-152 | Next advances the wizard, and on the last step it stores the completed record and closes the dialog |
| `Onboarding.OnboardingDemo.PressCancel` | src/components/Tutorials/OnboardingDemo.tsx:147 | Cancel resets the wizard to step 0 and closes the dialog |
| `Onboarding.FinishThenRemount` | src/components/Tutorials/OnboardingDemo.tsx:13-43 | after finishing, a later mount restores the same step and does not auto-open |
| `Discord.DiscordIntegration.constructor` | src/components/Settings/DiscordWebhook.tsx:12-21 | empty URL, no error, nothing expanded; `webhookEnabled` is whether the user has a webhook string |
| `Discord.DiscordIntegration.OnUserChanged` | src/components/Settings/DiscordWebhook.tsx:23-27 | when the user is present, `webhookEnabled` equals the truthiness of its webhook field |
| `Discord.DiscordIntegration.SetWebhookUrl` | src/components/Settings/DiscordWebhook.tsx:339 | the URL becomes the typed text |
| `Discord.DiscordIntegration.ClearInput` | src/components/Settings/DiscordWebhook.tsx:346-349 | URL and error are emptied |
| `Discord.DiscordIntegration.ToggleStep` | src/components/Settings/DiscordWebhook.tsx:199 | the expanded step becomes none if it was this step, otherwise this step |
| `Discord.DiscordIntegration.HandleSave` | src/components/Settings/DiscordWebhook.tsx:29-71 | a URL without the webhook prefix sets the error and clears success with no request; a valid one sends only `discord_webhook`; success replaces the user and enables the webhook, failure disables it; afterwards submitting is false, the error is cleared and success set on both outcomes |
| `Discord.SaveThenSync` | src/components/Settings/DiscordWebhook.tsx:23-57 | a successful save followed by the sync effect leaves the flag equal to whether the returned profile has a webhook |
| `Discord.HasWebhook` | src/components/Settings/DiscordWebhook.tsx:21-25 | the truthiness of `discord_webhook`, which `webhookEnabled` follows |
| `JobBoard.Without` | src/components/Dashboard.tsx:102 | no kept job has the deleted id and every kept job comes from the list |
| `JobBoard.WithoutAppend` | src/components/Dashboard.tsx:102 | filtering distributes over concatenation, so kept jobs keep their relative order |
| `JobBoard.WithoutSingle` | src/components/Dashboard.tsx:102 | a single job is kept iff its id differs |
| `JobBoard.WithoutKeepsOthers` | src/components/Dashboard.tsx:102 | every job with another id is kept as many times as it occurred |
| `JobBoard.WithoutAbsent` | src/components/Dashboard.tsx:102 | deleting an id that no job has leaves the list unchanged |
| `JobBoard.WithoutIdempotent` | src/components/Dashboard.tsx:102 | deleting the same id twice equals deleting it once |
| `JobBoard.DeleteEmptiesBoard` | src/components/Dashboard.tsx:101-138 | after a deletion the empty state shows iff every job had that id |
| `JobBoard.ShowsEmptyState` | src/components/Dashboard.tsx:138 | the empty state shows iff there are no applications |
| `JobBoard.StatusClass` | src/components/Dashboard.tsx:109-122 | the four listed statuses map to their classes in case order, and gray is returned iff the status is none of them |
| `JobBoard.ShowsNoWebhookBanner` | src/components/Dashboard.tsx:136 | the banner shows iff a user is present and its webhook is exactly `"NULL"` |
| `JobBoard.SentinelCountsAsWebhook` | src/components/Dashboard.tsx:136 | when the no-webhook banner shows, the Discord screen's truthiness test counts the webhook as saved |
| `JobBoard.Dashboard.constructor` | src/components/Dashboard.tsx:11-39 | three sample applications with ids 1, 2 and 3 |
| `JobBoard.Dashboard.HandleDelete` | src/components/Dashboard.tsx:101-103 | the list is replaced by its filter without the id |
| `AccountDeletion.FailureText` | src/components/Settings/DeleteAccount.tsx:75 | the server's message when present, else "Failed to delete account" |
| `AccountDeletion.Confirmed` | src/components/Settings/DeleteAccount.tsx:48 | the typed text equals the user's email; with no user nothing confirms |
| `AccountDeletion.DeleteAccount.constructor` | src/components/Settings/DeleteAccount.tsx:43-44 | not deleting, empty confirmation |
| `AccountDeletion.DeleteAccount.SetConfirmDelete` | src/components/Settings/DeleteAccount.tsx:165 | the confirmation becomes the typed text |
| `AccountDeletion.DeleteAccount.DeleteDisabled` | src/components/Settings/DeleteAccount.tsx:177 | the button is disabled iff the typed text is not the user's email; `HandleDeleteAccount` sends nothing exactly then |
| `AccountDeletion.DeleteAccount.HandleDeleteAccount` | src/components/Settings/DeleteAccount.tsx:47-60 | no request is made iff the button is disabled, meaning the typed text differs from the user's email, and then only a notice is raised; otherwise deletion is in flight and the request carries the user's id |
| `AccountDeletion.DeleteAccount.SettleDelete` | src/components/Settings/DeleteAccount.tsx:61-79 | success removes `testInfo`, logs out (no token, no user, unauthenticated, not loading) and goes home whatever the revoke flag is, and also schedules the permissions page when access was not revoked; failure shows the server's or the default message and does not log out; deleting ends false |
| `SettingsNav.FixedItems` | src/components/Settings/Settings.tsx:23-61 | six items, the first being Profile at `/settings/profile` |
| `SettingsNav.IsTestUser` | src/components/Settings/Settings.tsx:21 | `user?.isTestUser || false`: a present user flagged as a test user |
| `SettingsNav.NavigationItems` | src/components/Settings/Settings.tsx:21-70 | a non-test user gets exactly the six items; a test user gets them plus Test Account Settings last; the first item is Profile; all paths are distinct |
| `SettingsNav.IsActive` | src/components/Settings/Settings.tsx:86 | an item is active iff the path is exactly its path |
| `SettingsNav.AtMostOneActive` | src/components/Settings/Settings.tsx:86 | with distinct paths, two active items are the same item |
| `SettingsNav.Redirect` | src/components/Settings/Settings.tsx:72-76 | a redirect happens iff the path is `/settings`, and it goes to `/settings/profile` |
| `SettingsNav.RedirectSettles` | src/components/Settings/Settings.tsx:72-86 | after the redirect Profile is active and no further redirect follows |

## Left out

- HTTP details are left out: URLs, headers, the API key and environment variables. Each request is
  the outcome parameter of the handler that sends it.
- `localStorage` and `JSON.parse`/`JSON.stringify` are not modelled. Each storage key is an
  `Option` field, and the stored onboarding text is `StoredOnboarding`. A parse failure, and
  stored `null`, are `Unparseable`. The record's `completed` is kept only for its truthiness, and
  `onboarding` only as an integer.
- Timers are reduced to flags. `setTimeout` in `NotificationSettings.tsx:167` is `resetScheduled`
  plus `OnResetTimer`. The delayed redirect in `DeleteAccount.tsx:65-67` is
  `Effects.redirectScheduled`.
- Page navigation (`navigate`, `window.location.href`) is a returned path, not a change of page.
- The progress percentage of `SteppedModal.tsx:32,72` is left out because it is floating-point
  presentation.
- Rendering is left out: markup, icons, the bot/webhook tab switch, the `checkedAccess` toggle,
  and `handleRescanEmails`'s alert. The sample `Email` state of `Dashboard.tsx` is left out too; it
  is used only by commented-out code.
- The realtime socket block (`Dashboard.tsx:66-99`) is commented out in the source.
- The values of the `NotificationChannel` and `NotificationStatus` enumerations come from a module that
  is not part of this model. `Types.EnumValues` takes them as parameters.
- The thin wrappers are not part of this model: `OAuthCallback.tsx`, `LogOutOption.tsx`,
  `Profile.tsx`, `HelpAndOptions.tsx`'s support message, and `AuthModal.tsx`'s OAuth URL. Static
  pages are not part of it either.
- Concurrency is not modelled. Each handler runs as one step with its request's outcome given.
  Only deletion is split into a start and a settle step. The one interleaving the contracts admit is
  noted under `CheckAuth` below.
- Auth.AuthProvider.GoogleLogin: `isLoading` being true while the exchange is pending is not
  observable, because the handler is one step; the contract states only the final `false`.
- Auth.AuthProvider.CheckAuth: keeps the invariant only from an unauthenticated start. If a login
  completes while verification is pending and verification then fails, the token is removed while
  the session stays authenticated, exactly as the code does.
- Notifications.NotificationSettings.HandleSave: `isSaving` being true during the request is not
  observable (one step); only its final `false` is stated.
- Discord.DiscordIntegration.HandleSave: `isSubmitting` being true during the request is not
  observable (one step); only its final `false` is stated.
- Notifications.NotificationSettings.HandleChange: requires an index in range. The rendered list
  only passes its own indices; an index outside it would throw in the source.
