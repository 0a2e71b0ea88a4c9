# Moments app: decision rules and record transformations

A model of the logic inside a React Native app for shared "moments" (events,
trips, challenges). The app is mostly UI. Its logic is a handful of rules,
and this model covers them:

- **Create screen** (`CreateScreen`). The form is a class with one field per
  state hook. The create action rejects an empty title. It then gates on the
  biometric verdict when verification is required. Next it builds the moment
  record, with the creator first among the participants. A challenge also gets
  status `in-progress`, progress 0, the end date and four milestones. Finally
  it calls save exactly once. Each visible side effect is appended to an
  effect trace, in order: an alert, a loading change, the verification call or
  the save call. The participant and photo edits are pure list transforms.
- **Moment card** (`MomentCard`). These are pure mappings: type to colour,
  the participants summary, badge precedence (NFT before In Progress), and the
  time line. The time line is a countdown for in-progress moments. Otherwise it
  is relative below 14 days and absolute from then on. Days remaining is the
  exact integer ceiling of the milliseconds left divided by a day.
- **Home screen** (`HomeScreen`). Three filters give the active, completed and
  minted counts. When the moments are not loading, one card is rendered per
  moment, in list order.
- **A new moment on display** (`NewMomentDisplay`). These lemmas connect the
  create screen to the card and the home screen: how the record the create
  action saves is shown and counted.
- **Session holder** (`AuthContext`). This is a class over a key-value store
  class. It restores the session on start, logs in with the mock account and
  logs out.

Helper modules: `Records` holds the shared data model. `Decimal` holds the way
template literals print integers, plus a parser it is proved against. `Seqs`
holds `Array.prototype.filter` as `Filter`, with its subsequence, membership
and count lemmas.

Timestamps are integer milliseconds, and the current time `now` is a
parameter. Foreign calls become boolean parameters: the biometric sensor and
prompt, the storage read, write and remove, and the save operation. An absent
`status` is `None`. JavaScript's `!m.status` is `StatusFalsy`: absent or
`""`.

Two behaviours of the code to note:

- `login` does not always succeed. The user is set before the storage write,
  so a failed write returns false and leaves a signed-in user that is not
  stored.
- `logout` does not always clear the session. A failed removal leaves both
  the user and the store unchanged.

## Model

| member | source | states |
|---|---|---|
| `CreateScreen.DefaultEndDate` | createScreen.js:29 | the form's initial end date is exactly one week (604800000 ms) after the screen opens |
| `CreateScreen.NewFriend` | createScreen.js:92-96 | the placeholder's id is `temp-` followed by the time; its name is `Friend ` and its email `friend…@example.com` around the same printed number, count + 1 |
| `CreateScreen.ParticipantsAfterAdd` | createScreen.js:89-99 | adding appends exactly one participant and keeps the old list as an unchanged prefix; the new id is `temp-` followed by the time, the name `Friend n` and the email `friendn@example.com` for n = old length + 1 |
| `CreateScreen.NewFriendNumberedByPosition` | createScreen.js:92-96 | the added participant's name is `Friend ` followed by a decimal number and its email is `friend` + a decimal number + `@example.com`; both numbers read back as the new list length (old length + 1) |
| `CreateScreen.ParticipantsAfterRemove` | createScreen.js:101-103 | removing by id keeps exactly the participants with a different id, each as many times as before, as an order-preserving subsequence |
| `CreateScreen.RemoveParticipantIdempotent` | createScreen.js:101-103 | removing the same id twice gives the same list as removing it once |
| `CreateScreen.RemoveAbsentParticipant` | createScreen.js:101-103 | removing an id that no participant has leaves the list unchanged |
| `CreateScreen.RemoveUndoesAdd` | createScreen.js:89-103 | removing the just-added participant by its id gives the same list as removing that id from the list before the add |
| `CreateScreen.Uris` | createScreen.js:74 | the picker's assets map to their URIs, one for one and in order |
| `CreateScreen.PhotosAfterPick` | createScreen.js:66-76 | the library picker replaces the photos with the asset URIs, and an empty asset list clears them; a cancelled or asset-less result leaves the photos unchanged |
| `CreateScreen.PhotosAfterCamera` | createScreen.js:78-87 | the camera appends the asset URIs after the existing photos; a cancelled or asset-less result leaves the photos unchanged |
| `CreateScreen.PercentTexts` | createScreen.js:141-146 | the percentages 25, 50, 75 and 100 print as the digits used in the milestone titles |
| `CreateScreen.PercentTitles` | createScreen.js:141-146 | the milestone titles are the source's literal strings `25% Complete` … `100% Complete` |
| `CreateScreen.ChallengeMilestones` | createScreen.js:141-146 | a challenge has exactly four milestones, with ids 1 to 4, all not completed, and milestone k is titled with 25·k percent |
| `CreateScreen.NewMoment` | createScreen.js:121-147 | the saved record copies the form fields; the creator `{id, name, email}` comes first, followed by the added participants in order, so there are added + 1 participants; `verified` is the verification toggle; `createdBy` is the user id; a challenge has status `in-progress`, the end date, progress 0 and the four milestones, and a non-challenge has none of these fields |
| `CreateScreen.CreateScreenState.constructor` | createScreen.js:25-37 | the form opens with an empty title, type `event`, no participants or photos, challenge off, verification on, not loading, and an end date one week out |
| `CreateScreen.CreateScreenState.AddParticipant` | createScreen.js:89-99 | only the participants field changes, to the list after the add |
| `CreateScreen.CreateScreenState.RemoveParticipant` | createScreen.js:101-103 | only the participants field changes, to the list after removing the id |
| `CreateScreen.CreateScreenState.PickImage` | createScreen.js:66-76 | only the photos field changes, as the library pick prescribes |
| `CreateScreen.CreateScreenState.TakePhoto` | createScreen.js:78-87 | only the photos field changes, as the camera prescribes |
| `CreateScreen.CreateScreenState.AssembleMoment` | createScreen.js:121-147 | building the record and then adding the challenge fields one by one yields exactly the record `NewMoment` describes |
| `CreateScreen.CreateScreenState.HandleCreateMoment` | createScreen.js:105-160 | an empty title only shows an alert: no verification, no loading change, no save. A refused verification shows an alert and does not touch loading or save. Otherwise loading is set, the record is saved exactly once, loading is cleared and a success or failure alert follows. A missing user stops the action after loading is set, so loading stays true |
| `NewMomentDisplay.NewMomentParticipantsText` | createScreen.js:126-129 | because the creator is always first, a new moment's card reads `With <creator name>` when no one was added, and `With n Friends` for n = added + 1 otherwise |
| `NewMomentDisplay.NewChallengeCountsDownAWeek` | createScreen.js:137-147 | a challenge with the default end date reads `7 days remaining` at creation time, has the In Progress badge and counts as active |
| `NewMomentDisplay.NewMomentIsActive` | createScreen.js:121-147 | every new moment counts as active, and never as completed or minted |
| `MomentCard.TypeColor` | MomentCard.js:7-14 | wedding, trip and challenge each get their own colour; every other type, including `event` and `promise`, gets the primary colour, and only those other types do |
| `MomentCard.TypeColorDistinguishes` | MomentCard.js:7-14 | the colour of wedding, trip or challenge is shared by no other type |
| `MomentCard.DaysRemaining` | MomentCard.js:19 | the result d is the ceiling of the time left in days: (d − 1) days < endDate − now ≤ d days |
| `MomentCard.TimeTextOf` | MomentCard.js:16-30 | an in-progress moment always shows the countdown text, even when it has a date, and without an end date it shows `NaN days remaining`. Any other moment with a date is shown relative iff now − date < 14 days, else as an absolute date. With no date the text is empty |
| `MomentCard.CountdownText` | MomentCard.js:20 | the countdown text ends in ` days remaining`, and the number in front reads back as the day count it was printed from |
| `MomentCard.CountdownRoundTrip` | MomentCard.js:17-20 | the countdown text of an in-progress moment reads back as an integer d with (d − 1) days < endDate − now ≤ d days, and the number is printed in canonical form (no leading zero) |
| `MomentCard.CountdownIgnoresDate` | MomentCard.js:16-21 | the date field has no effect on an in-progress moment's time text |
| `MomentCard.ParticipantsText` | MomentCard.js:32-40 | the text is empty iff the list is missing or empty; it is `With <name>` for exactly one participant, and `With <n> Friends` for n ≥ 2, because the singular branch of the inner test cannot be reached |
| `MomentCard.ParticipantCountReadable` | MomentCard.js:37-39 | with two or more participants, the number in the text reads back as the participant count |
| `MomentCard.BadgeOf` | MomentCard.js:62-70 | the badge is NFT iff the moment is minted; it is In Progress iff the moment is not minted and its status is `in-progress`; otherwise there is none |
| `MomentCard.MintedBadgeIgnoresStatus` | MomentCard.js:62-70 | a minted moment shows the NFT badge whatever its status |
| `MomentCard.CardImage` | MomentCard.js:45-53 | an image is shown iff the photo list is present and non-empty, and it is the first photo |
| `MomentCard.CardOf` | MomentCard.js:42-73 | the card shows the moment's own title, the colour of its type, its first photo, the participants text, the time text and the badge, each by the rule stated for that part |
| `HomeScreen.IsActive` | homescreen.js:20 | a moment is active iff its status is `in-progress`, absent or empty, and an active moment is never completed |
| `HomeScreen.IsCompleted` | homescreen.js:21 | a completed moment has the status `completed` |
| `HomeScreen.IsMinted` | homescreen.js:22 | a moment is minted iff its `nftMinted` flag is set |
| `HomeScreen.ActiveMoments` | homescreen.js:20 | the active list holds exactly the active moments, in list order |
| `HomeScreen.CompletedMoments` | homescreen.js:21 | the completed list holds exactly the completed moments, in list order |
| `HomeScreen.MintedMoments` | homescreen.js:22 | the minted list holds exactly the minted moments, in list order |
| `HomeScreen.HomeViewOf` | homescreen.js:20-72 | while loading, only the loading view appears; otherwise there is exactly one card per moment, in list order, and the three counts are the lengths of the active, completed and minted lists, so active plus completed never exceeds the number of moments |
| `HomeScreen.SummaryListsAreOrderedSelections` | homescreen.js:20-22 | active means status `in-progress`, absent or empty; completed means status `completed`; minted means `nftMinted`; each list is an order-preserving subsequence of the moments |
| `HomeScreen.ActiveCompletedDisjoint` | homescreen.js:20-21 | no moment is both active and completed |
| `HomeScreen.OtherStatusCountedNowhere` | homescreen.js:20-21 | a moment with any other status string is neither active nor completed |
| `HomeScreen.StatusCountsBound` | homescreen.js:20-21 | the active, completed and remaining moments add up to all moments, so the two status counts sum to at most the number of moments |
| `HomeScreen.MintedMomentCanBeActive` | homescreen.js:20-22 | minted does not depend on status: one moment can be counted both as active and as minted |
| `HomeScreen.MintedIgnoresStatus` | homescreen.js:22 | changing a moment's status never changes whether it counts as minted |
| `Seqs.Filter` | homescreen.js:20-22 | filtering keeps exactly the elements that pass, each as many times as in the input, as an order-preserving subsequence no longer than the input |
| `Seqs.FilterAllPass` | createScreen.js:102 | filtering a list whose every element passes returns it unchanged |
| `Seqs.FilterIdempotent` | createScreen.js:102 | filtering twice by the same test is filtering once |
| `Seqs.FilterAppend` | createScreen.js:98-102 | filtering a concatenation gives the concatenation of the filtered parts |
| `Seqs.FilterPartitionCount` | homescreen.js:20-21 | when every element passes exactly one of three tests, the three filtered counts add up to the length |
| `Decimal.NatToString` | MomentCard.js:38 | `${n}` prints at least one decimal digit and has no leading zero |
| `Decimal.IntToString` | MomentCard.js:20 | `${i}` starts with a minus sign iff i is negative |
| `Decimal.NatToStringRoundTrip` | createScreen.js:94-95 | the printed digits of n have the value n |
| `Decimal.ParseNatString` | MomentCard.js:38 | parsing the printed form of a natural number gives it back |
| `Decimal.ParseNegativeString` | MomentCard.js:20 | parsing a minus sign followed by the digits of n gives −n |
| `Decimal.IntToStringRoundTrip` | MomentCard.js:20 | parsing the printed form of any integer gives it back |
| `AuthContext.MockLoginUser` | authcontext.js:34-41 | the mock call resolves with id `123`, name `John Doe`, the fixed avatar, and the email it was given |
| `AuthContext.StoredUser` | authcontext.js:15-18 | the store yields a session record iff the `user` key is present, and the record is the one stored there |
| `AuthContext.VerifyBiometrics` | authcontext.js:66-78 | the verdict is false when no sensor is available, and otherwise it is the prompt's success value |
| `AuthContext.AuthProvider.constructor` | authcontext.js:8-9 | the session starts with no user and loading on |
| `AuthContext.AuthProvider.CheckUserSession` | authcontext.js:13-24 | a successful read restores the stored user, if there is one; a failed read, or an empty slot, leaves the user unchanged; loading ends false either way; from the initial state a successful read makes the session agree with the store |
| `AuthContext.AuthProvider.Login` | authcontext.js:29-52 | the user becomes `{id '123', name 'John Doe', email, avatar}` whatever the password; the same record is stored under `user` iff the write succeeds; the result is the write's success; loading ends false; a failed write leaves session and store disagreeing unless the store already held that record |
| `AuthContext.AuthProvider.Logout` | authcontext.js:54-64 | a successful removal deletes the `user` key and then clears the user, so session and store agree; a failed removal leaves the user and the store unchanged; loading ends false |
| `AuthContext.LoginSurvivesRestart` | authcontext.js:29-52 | after a successful login, a provider restarted over the same store restores the logged-in user |
| `AuthContext.LogoutSurvivesRestart` | authcontext.js:54-64 | after a successful logout, a provider restarted over the same store finds no session |

## Left out

- JSX rendering, style sheets and layout numbers, the navigation shell (`app.js`) and the theme file. The four colours the card uses are inlined as constants.
- Geolocation (`getCurrentLocation`), the date pickers and the map. These are platform calls. Form fields they would set are plain class fields, and location coordinates are opaque integers, not floating point degrees.
- The image pickers themselves. Their result is a `PickerResult` value: the cancel flag and an optional asset list.
- `formatDistanceToNow` and `toLocaleDateString`. These are library formatting, so the card returns tagged values carrying the date they would format.
- `Date` objects and `toISOString`. Dates are integer milliseconds.
- `MomentCard.DaysRemaining`: the model takes the exact ceiling of the integer division. The source divides in double precision, which gives the same result unless the difference exceeds roughly 100 million days.
- `JSON.stringify` and `JSON.parse`. The store keeps user records, on the assumption that a serialized user parses back unchanged.
- The async timing: the one-second mock delay, the awaits, and the transient `loading = true` inside `login` and `logout`. For these two methods the model states only the final loading value.
- `AuthContext.AuthProvider.Login`: the mock login call cannot fail, so the only failure modelled is the storage write. A failed storage operation is assumed to leave the store unchanged.
- Errors thrown by the biometric sensor query. These are unhandled in the source, and the model's verdict is always a boolean.
- `MomentsContext`: its moment list, its loading flag and `saveMoment` are not part of this model. The home screen takes the list and the flag as parameters, and saving is a boolean result.
- The moment `id` used as the card key, and the navigation done on a card press or after the success alert.
- The form setters bound directly to inputs (title, description, type, toggles, dates). Each is a plain field assignment.
