# GradeBook core in Dafny

This project models the logic core of GradeBook, a React Native school diary app. The model is written in Dafny, and its properties are proved there. It covers:

- **the HTTP client** (`ApiClient`): the token store, the refresh exchange, authenticated requests that retry once after a refresh, public requests, login and logout;
- **the error types** (`ApiTypes`): the thrown errors and the text a screen shows for each;
- **the password field** (`PasswordInput`): it masks the password and works out the real value again after each edit;
- **the four stores** (`GradesModel`, `UserModel`, `SettingsModel`, `CalendarModel`): grades, session, settings and calendar;
- **the theme provider** (`Theme`);
- **the day-schedule feature** (`CalendarWeek`, `DaySchedule`, `DayScheduleView`);
- **the subject-detail feature** (`SubjectEntries`, `SubjectDetail`, `GradeCard`) and the shared grade helpers (`GradeUtils`).

Modules follow the source files, and most model a single file. `SubjectDetail` models two: the subject hook (useSubjectDetail.ts) and the subject screen (SubjectDetailContent.tsx). `GradeUtils` models the grade helpers together with their constants. A few lemmas relate two files, such as the calendar store and the week builder. Code that changes state becomes a class:

- the API client, the input field, the stores, the schedule hook and the subject screen;
- their fields are the source's fields;
- each method states its new state.

Where the behaviour is big enough, it is also given as a pure function of a state snapshot. The method is proved equal to that function, and the promised properties are proved about the function as lemmas. Pure code becomes functions with contracts. `Wrappers` (Option, Result) and `Dates` are shared helpers.

What the model takes as given:

- **Awaited calls.** A call into the backend or device storage is a parameter of the action that awaits it: the `Result` the call produced. The action returns the error it re-raises, if any.
- **The transport.** The HTTP client's transport is a script of outcomes, and a ghost log records every call it issues.
- **Dates.** A day is a count of days since 0001-01-01, a Monday. An instant is local milliseconds since then.
- **Date strings.** `format(…, 'yyyy-MM-dd')` and `'dd.MM.yyyy'` are built from a civil calendar date. That date is computed by stepping day by day, so each string is proved to name one day only.

## Model

| member | source | states |
|---|---|---|
| `ApiTypes.Join` | src/6_shared/lib/api/types.ts:291 | joining strings: an empty list gives "", one part gives itself, and the length is the parts plus one separator between each pair |
| `ApiTypes.RequestErrorMessage` | src/6_shared/lib/api/types.ts:289-292 | the message of an `ApiRequestError`: an explicit message wins; otherwise the payload's text, or its lines joined with ", "; a `null` message becomes "null" and a missing one "" |
| `ApiTypes.NewRequestError` | src/6_shared/lib/api/types.ts:283-295 | the error keeps the status and the payload, and carries that message |
| `ApiTypes.GetApiErrorMessage` | src/6_shared/lib/api/types.ts:298-306 | the text shown is always one of the fixed texts, the fallback, or the error's own non-empty message; anything but a network or request error shows the fallback |
| `ApiTypes.NetworkErrorMessage` | src/6_shared/lib/api/types.ts:299 | a network error shows its own message, or "Проблема с подключением" when that is empty |
| `ApiTypes.RequestErrorClassification` | src/6_shared/lib/api/types.ts:300-304 | 401 always gives "Неверный логин или пароль"; otherwise any status of 500 or more gives the server-error text; below that the error's message, or "Ошибка запроса" when it is empty |
| `ApiTypes.ErrorMessageNeverEmpty` | src/6_shared/lib/api/types.ts:298-306 | any other thrown value shows the fallback, "Неизвестная ошибка" by default; with a non-empty fallback, the default included, no error shows an empty text |
| `ApiTypes.Unauthorized401IgnoresMessage` | src/6_shared/lib/api/types.ts:301 | two 401 errors read the same whatever their messages |
| `ApiClient.Send` | src/6_shared/lib/api/client.ts:94-123 | one call is appended to the log and the tokens are untouched; the call's outcome is the next one of the script, which shrinks by one, or a network failure once it is empty |
| `ApiClient.RefreshSpec` | src/6_shared/lib/api/client.ts:69-92 | at most one call is added to the log; a returned token is the stored access token; without one the state is unchanged or both tokens are cleared |
| `ApiClient.AuthenticatedSpec` | src/6_shared/lib/api/client.ts:125-176 | the only errors are network errors and 401 request errors; a 401 answer is returned only after the retry, three calls in all |
| `ApiClient.ErrorDetailsOf` | src/6_shared/lib/api/client.ts:181-189 | the payload of a failed answer: the parsed error body, the one built from the status line when the body is not JSON, no fields for another JSON shape, and none at all for a `null` body |
| `ApiClient.ReadBody` | src/6_shared/lib/api/client.ts:181-192 | success exactly on a 2xx with a JSON body, which is returned; a non-2xx becomes a request error with its status, except with a `null` body, where the error's constructor throws reading `message` of `null` |
| `ApiClient.RequestSpec` | src/6_shared/lib/api/client.ts:178-193 | reading the body changes no state; an error of the authenticated request is re-thrown unchanged; a delivered answer is then read as its body |
| `ApiClient.PublicSpec` | src/6_shared/lib/api/client.ts:195-210 | the state after is that of one call without an Authorization header; a request error it raises carries a non-2xx status |
| `ApiClient.LoginSpec` | src/6_shared/lib/api/client.ts:213-222 | exactly one call to the login endpoint with the credentials; on success the returned pair is the stored one |
| `ApiClient.LogoutSpec` | src/6_shared/lib/api/client.ts:224-239 | no tokens afterwards, and at most one call added to the log |
| `ApiClient.Client.constructor` | src/6_shared/lib/api/client.ts:17-26 | the client starts idle, with the stored tokens and no calls made |
| `ApiClient.Client.GetStoredTokens` | src/6_shared/lib/api/client.ts:28-37 | returns both stored tokens |
| `ApiClient.Client.StoreTokens` | src/6_shared/lib/api/client.ts:39-44 | both tokens are stored and nothing else changes |
| `ApiClient.Client.ClearTokens` | src/6_shared/lib/api/client.ts:46-51 | both tokens are removed and nothing else changes |
| `ApiClient.Client.MakeHttpRequest` | src/6_shared/lib/api/client.ts:94-123 | logs the call and consumes the next transport outcome |
| `ApiClient.Client.DoTokenRefresh` | src/6_shared/lib/api/client.ts:69-92 | agrees with the refresh specification: no refresh token means null and no call; a 2xx token pair is stored and its access token returned; anything else clears both tokens |
| `ApiClient.Client.AttemptTokenRefresh` | src/6_shared/lib/api/client.ts:53-67 | the refreshing flag is raised while the refresh runs and lowered afterwards; the result is the refresh's |
| `ApiClient.Client.MakeAuthenticatedRequest` | src/6_shared/lib/api/client.ts:125-176 | agrees with the authenticated-request specification, and the client is idle afterwards |
| `ApiClient.Client.Request` | src/6_shared/lib/api/client.ts:178-193 | an authenticated request followed by reading the body |
| `ApiClient.Client.RequestPublic` | src/6_shared/lib/api/client.ts:195-210 | one call without an Authorization header, then reading the body |
| `ApiClient.Client.Login` | src/6_shared/lib/api/client.ts:213-222 | a public call to the login endpoint; the returned token pair is stored |
| `ApiClient.Client.Logout` | src/6_shared/lib/api/client.ts:224-239 | calls logout only with a refresh token, ignores its failure, and always clears both tokens |
| `ApiClient.Client.IsAuthenticated` | src/6_shared/lib/api/client.ts:241-244 | true exactly when a non-empty access token is stored |
| `ApiClient.NoAccessTokenNoCall` | src/6_shared/lib/api/client.ts:129-139 | with no access token: a 401 "No access token available", no call, no state change |
| `ApiClient.FirstAnswerKept` | src/6_shared/lib/api/client.ts:141-152 | a first answer other than 401 is returned after exactly one call carrying `Bearer <token>`; the tokens are unchanged |
| `ApiClient.RetriedOnceAfterRefresh` | src/6_shared/lib/api/client.ts:152-175 | 401, then a successful refresh, then one retry with the new token; the retry's answer is returned even when it is another 401; the new pair is stored |
| `ApiClient.SessionExpiredWithoutRetry` | src/6_shared/lib/api/client.ts:153-163 | a refresh that yields no token ends in 401 "Session expired", with no retry sent |
| `ApiClient.SessionExpiredOnRejectedRefresh` | src/6_shared/lib/api/client.ts:74-91 | a 401 and then a refresh answer that is not a 2xx token pair end in 401 "Session expired" after exactly the first call and the refresh call, with both tokens cleared |
| `ApiClient.AtMostOneRetry` | src/6_shared/lib/api/client.ts:125-176 | for any transport and endpoint: the log only grows, by at most three calls; unless the endpoint is the refresh endpoint, at most two of them go to it |
| `ApiClient.RefreshWithoutTokenIsInert` | src/6_shared/lib/api/client.ts:71-72 | with no refresh token the refresh returns null and calls nothing |
| `ApiClient.RefreshStoresOrClears` | src/6_shared/lib/api/client.ts:74-91 | exactly one refresh call; then either the new pair is stored and its access token returned, or both tokens are cleared and null returned |
| `ApiClient.RefreshSucceedsOnlyOnAuthAnswer` | src/6_shared/lib/api/client.ts:80-87 | the refresh yields a token exactly when the answer is a 2xx with a token pair |
| `ApiClient.PublicRequestNeverRefreshes` | src/6_shared/lib/api/client.ts:195-210 | one call, tokens untouched, no refresh; a non-2xx becomes a request error with its status, or the `TypeError` of a `null` body |
| `ApiClient.LoginStoresOnlyOnSuccess` | src/6_shared/lib/api/client.ts:213-222 | tokens change only after a successful login, to the returned pair |
| `ApiClient.LogoutClearsAndIsIdempotent` | src/6_shared/lib/api/client.ts:224-239 | no tokens afterwards; a call only when a refresh token existed; a second logout does nothing more |
| `PasswordInput.MaskedDisplay` | src/shared/ui/input/Input.tsx:25-29 | one bullet per character |
| `PasswordInput.RemoveMask` | src/shared/ui/input/Input.tsx:40 | removes every bullet and keeps every other character, each as often as before |
| `PasswordInput.RemoveMaskConcat` | src/shared/ui/input/Input.tsx:40 | removing the bullets works piece by piece, so the other characters keep their order |
| `PasswordInput.MergeMasked` | src/shared/ui/input/Input.tsx:44-46 | position by position: a bullet keeps the real character, anything else takes the typed one |
| `PasswordInput.DeriveRealPassword` | src/shared/ui/input/Input.tsx:31-47 | the five cases: an empty display, a display with no bullets, a longer display (appends what was typed), a shorter one (keeps a prefix), an equally long one (merges) |
| `PasswordInput.AppendRoundTrip` | src/shared/ui/input/Input.tsx:38-42 | typing after the masked password appends exactly what was typed |
| `PasswordInput.TruncateRecoversPrefix` | src/shared/ui/input/Input.tsx:43 | deleting from the end keeps the matching prefix of the real password |
| `PasswordInput.UnchangedIsIdempotent` | src/shared/ui/input/Input.tsx:44-46 | an unchanged masked display gives back the real password |
| `PasswordInput.MergeUnchanged` | src/shared/ui/input/Input.tsx:44-46 | merging an all-bullet display of the same length is the identity |
| `PasswordInput.EqualLengthReplacesPointwise` | src/shared/ui/input/Input.tsx:44-46 | in an equal-length edit each bullet keeps its character and each typed character replaces one |
| `PasswordInput.InputField.DisplayValue` | src/shared/ui/input/Input.tsx:66-71 | the secure field shows the masked value, any other field the value; the same length either way |
| `PasswordInput.InputField.constructor` | src/shared/ui/input/Input.tsx:58-75 | mount: hidden, given value, and the ref holds the display length |
| `PasswordInput.InputField.Render` | src/shared/ui/input/Input.tsx:73-75 | the ref is updated only when the display length changed |
| `PasswordInput.InputField.TogglePasswordVisibility` | src/shared/ui/input/Input.tsx:128-129 | flips the visibility, and with it whether the field is masked |
| `PasswordInput.InputField.HandleChangeText` | src/shared/ui/input/Input.tsx:77-90 | nothing is forwarded without a handler; the text as typed when not masked; otherwise the derived real password, whose length the ref then holds |
| `PasswordInput.TypeIntoSecureField` | src/shared/ui/input/Input.tsx:73-90 | an edit followed by the parent's re-render keeps the ref equal to the real value's length |
| `GradesModel.CountValue` | src/5_entities/grades/model/store.ts:16-18 | a count never exceeds the list length |
| `GradesModel.CountsAtMostTotal` | src/5_entities/grades/model/store.ts:16-18 | fives, fours and threes together never exceed the total |
| `GradesModel.ComputeFromGrades` | src/5_entities/grades/model/store.ts:5-26 | zeros for an empty list; the total is the length; the counts are of 5, 4 and 3; `average * total` is the sum |
| `GradesModel.Mean` | src/5_entities/grades/model/store.ts:20 | the quotient times the count is the sum |
| `GradesModel.AverageWithinBounds` | src/5_entities/grades/model/store.ts:15-20 | the average lies between the smallest and the largest grade |
| `GradesModel.SumBounds` | src/5_entities/grades/model/store.ts:15 | grades between lo and hi sum to between lo·n and hi·n |
| `GradesModel.Lookup` | src/5_entities/grades/model/types.ts:5 | absent exactly when no entry has that key |
| `GradesModel.Put` | src/5_entities/grades/model/store.ts:74 | the key now maps to the new list; every other key is unchanged |
| `GradesModel.PutKeys` | src/5_entities/grades/model/store.ts:74 | replacing a key keeps the key order; a new key goes last |
| `GradesModel.PutKeepsDistinct` | src/5_entities/grades/model/store.ts:74 | the cache never holds a key twice |
| `GradesModel.FlattenAdds` | src/5_entities/grades/model/store.ts:29 | flattening adds up the lengths, the sums and the counts of the subject lists |
| `GradesModel.GetComputedFromStore` | src/5_entities/grades/model/store.ts:28-40 | all grades flattened; the total is the sum of the lengths; the counts are over all subjects; the average is the weighted mean, with 0 for an empty cache |
| `GradesModel.TrimStart` | src/5_entities/grades/model/store.ts:46 | removes exactly the leading white space |
| `GradesModel.TrimEnd` | src/5_entities/grades/model/store.ts:46 | removes exactly the trailing white space |
| `GradesModel.Trim` | src/5_entities/grades/model/store.ts:46 | `.trim()`: a piece of the input with only white space before and after it, and neither starting nor ending with white space; this is exactly the input without its leading and trailing white space |
| `GradesModel.TrimKeepsClean` | src/5_entities/grades/model/store.ts:46 | a text that neither starts nor ends with white space is its own trim |
| `GradesModel.FirstLetter` | src/5_entities/grades/model/store.ts:44-45 | `charAt(0)`: the first character, or "" |
| `GradesModel.FormatTeacher` | src/5_entities/grades/model/store.ts:42-47 | "—" with no teacher; otherwise a non-empty text ending in "." |
| `GradesModel.FormatTeacherShape` | src/5_entities/grades/model/store.ts:44-46 | for a non-empty last name that does not start with white space, exactly "Lastname F." plus " M." when a middle name is given |
| `GradesModel.FormatTeacherEmptyLastName` | src/5_entities/grades/model/store.ts:44-46 | for an empty last name and a first name that does not start with white space, the leading space is trimmed off: exactly "F." plus " M." when a middle name is given |
| `GradesModel.GradeValues` | src/5_entities/grades/model/store.ts:55 | the values, in order |
| `GradesModel.WithGrades` | src/5_entities/grades/model/store.ts:53-62 | a missing subject gets [] and 0; otherwise its values in order, and an average whose product with the count is the sum; the teacher is formatted |
| `GradesModel.GetSubjectsWithGrades` | src/5_entities/grades/model/store.ts:49-64 | one entry per subject, in order |
| `GradesModel.ErrorText` | src/5_entities/grades/model/store.ts:90 | an `Error`'s message, otherwise "Ошибка загрузки оценок" |
| `GradesModel.FetchedOrEmpty` | src/5_entities/grades/model/store.ts:86-91 | what one subject's fetch leaves in the cache: the grades fetched, or [] on failure |
| `GradesModel.ApplyFetches` | src/5_entities/grades/model/store.ts:106-115 | a batch of fetches keeps the keys distinct |
| `GradesModel.LastFetchWins` | src/5_entities/grades/model/store.ts:107-113 | a subject that no later subject of the batch repeats holds what its own fetch gave |
| `GradesModel.UnfetchedUntouched` | src/5_entities/grades/model/store.ts:107-113 | a key that no subject of the batch has keeps its entry |
| `GradesModel.ApplyFetchesLookup` | src/5_entities/grades/model/store.ts:107-113 | each subject holds what its last fetch in the batch gave, its grades or [] on failure, so a repeated id keeps the later outcome; every other key is untouched |
| `GradesModel.GradesStore.constructor` | src/5_entities/grades/model/store.ts:66-70 | an empty cache, not loading, no ids loading, no error |
| `GradesModel.GradesStore.SetGradesForSubject` | src/5_entities/grades/model/store.ts:72-77 | replaces only that subject's list and clears the error |
| `GradesModel.GradesStore.FetchGradesForSubject` | src/5_entities/grades/model/store.ts:79-100 | the id is loading while the call runs and not afterwards; a success stores the grades; a failure stores [] and sets the error |
| `GradesModel.GradesStore.FetchGradesForSubjects` | src/5_entities/grades/model/store.ts:102-123 | the cache after the batch of fetches; loading during the batch and not after; no error |
| `GradesModel.GradesStore.ClearError` | src/5_entities/grades/model/store.ts:125 | the error is cleared |
| `UserModel.MapApiUserToUser` | src/5_entities/user/model/store.ts:17-22 | keeps the API user and copies the class room's id and name, or none |
| `UserModel.MapApiUserToUserInjective` | src/5_entities/user/model/store.ts:17-22 | the mapping loses nothing |
| `UserModel.AuthStore.constructor` | src/5_entities/user/model/store.ts:25-27 | no user, not signed in, loading |
| `UserModel.AuthStore.SetUser` | src/5_entities/user/model/store.ts:29-33 | signed in exactly when a user is set |
| `UserModel.AuthStore.SetLoading` | src/5_entities/user/model/store.ts:35 | sets the flag |
| `UserModel.AuthStore.Login` | src/5_entities/user/model/store.ts:37-56 | a success signs the mapped user in; a failure signs out and re-raises; loading is off either way |
| `UserModel.AuthStore.Logout` | src/5_entities/user/model/store.ts:58-71 | always signed out, not loading |
| `UserModel.IsUnauthorized` | src/5_entities/user/model/store.ts:79 | an `ApiRequestError` with status 401, the only failure that signs the user out |
| `UserModel.AuthStore.RefreshUserData` | src/5_entities/user/model/store.ts:73-87 | a success replaces the user; only a 401 signs out; every failure is re-raised; loading is never touched |
| `UserModel.AuthStore.InitializeAuth` | src/5_entities/user/model/store.ts:89-117 | loading while it runs; signed in exactly when a token exists and fetching the user succeeds |
| `SettingsModel.WithKey` | src/5_entities/settings/model/store.ts:32 | sets one key and keeps the other three |
| `SettingsModel.Merge` | src/5_entities/settings/model/store.ts:36 | a key the patch carries takes its value; every other key keeps its own |
| `SettingsModel.Extensionality` | src/5_entities/settings/model/types.ts:3-8 | settings that agree on every key are equal |
| `SettingsModel.MergeEmptyIsIdentity` | src/5_entities/settings/model/store.ts:34-37 | an empty patch changes nothing |
| `SettingsModel.MergeIdempotent` | src/5_entities/settings/model/store.ts:34-37 | the same patch twice is the patch once |
| `SettingsModel.Combine` | src/5_entities/settings/model/types.ts:22 | the later patch wins on a key both carry |
| `SettingsModel.MergeComposes` | src/5_entities/settings/model/store.ts:34-37 | two patches in a row act as their combination |
| `SettingsModel.SingleKeyPatch` | src/5_entities/settings/model/types.ts:18-21 | a patch carrying exactly one key |
| `SettingsModel.WithKeyIsSingleKeyPatch` | src/5_entities/settings/model/store.ts:30-33 | setting one switch is a patch of that key alone |
| `SettingsModel.SettingsStore.constructor` | src/5_entities/settings/model/store.ts:9-19 | theme follows the system; every switch on |
| `SettingsModel.SettingsStore.Partialize` | src/5_entities/settings/model/store.ts:43 | stores exactly the theme and the switches |
| `SettingsModel.SettingsStore.Rehydrate` | src/5_entities/settings/model/store.ts:40-43 | restoring gives back what was stored |
| `SettingsModel.SettingsStore.SetThemeMode` | src/5_entities/settings/model/store.ts:25 | sets the theme |
| `SettingsModel.SettingsStore.SetNotificationsEnabled` | src/5_entities/settings/model/store.ts:26-29 | sets the master switch; the per-type switches keep their values |
| `SettingsModel.SettingsStore.SetNotificationType` | src/5_entities/settings/model/store.ts:30-33 | sets one per-type switch, never the master switch |
| `SettingsModel.SettingsStore.SetNotifications` | src/5_entities/settings/model/store.ts:34-37 | merges the patch |
| `SettingsModel.SettingsStore.ResetSettings` | src/5_entities/settings/model/store.ts:38 | back to the initial state |
| `Theme.ResolveThemeMode` | src/6_shared/lib/theme/ThemeProvider.tsx:18-24 | an explicit mode is kept; "system" is dark exactly when the system scheme is dark |
| `Theme.ResolveIsIdempotent` | src/6_shared/lib/theme/ThemeProvider.tsx:18-24 | resolving an already resolved mode changes nothing |
| `Theme.ProviderValue` | src/6_shared/lib/theme/ThemeProvider.tsx:49-61 | provides the resolved mode; `isDark` exactly when it is dark |
| `Theme.IsDarkExactly` | src/6_shared/lib/theme/ThemeProvider.tsx:57 | dark exactly for "dark", or for "system" under a dark system scheme |
| `Theme.UseTheme` | src/6_shared/lib/theme/ThemeProvider.tsx:66-72 | fails exactly outside a provider, with that message; otherwise returns the context |
| `CalendarModel.GetWorkingDayIndex` | src/5_entities/calendar/model/store.ts:16-22 | Monday to Friday give 0 to 4; the weekend gives null |
| `CalendarModel.CreateTodayState` | src/5_entities/calendar/model/store.ts:24-35 | the ISO date, day of month, labels and working-day index of the local day |
| `CalendarModel.TodayStateDependsOnDayOnly` | src/5_entities/calendar/model/store.ts:25 | two instants on the same local day give the same state |
| `CalendarModel.CalendarStore.constructor` | src/5_entities/calendar/model/store.ts:40 | starts with today's state |
| `CalendarModel.CalendarStore.SetToday` | src/5_entities/calendar/model/store.ts:41 | stores the given state |
| `CalendarModel.CalendarStore.RefreshToday` | src/5_entities/calendar/model/store.ts:42 | recomputes today's state |
| `CalendarWeek.LabelTablesAgree` | src/4_features/day-schedule/model/buildCalendarWeek.ts:13-22 | the Monday-first tables are the Sunday-first ones shifted by one |
| `CalendarWeek.WorkingDayLabelsAgree` | src/5_entities/calendar/model/store.ts:31-33 | on a working day the store's labels are the week's labels at the working-day index |
| `CalendarWeek.StartOfWeek` | src/4_features/day-schedule/model/buildCalendarWeek.ts:25 | a Monday, at most six days before the date |
| `CalendarWeek.MakeDay` | src/4_features/day-schedule/model/buildCalendarWeek.ts:27-36 | entry `index` of the week: the date that many days after Monday, its ISO date and day of month, the Monday-first labels at that index, and disabled exactly for indices above 4 |
| `CalendarWeek.BuildCalendarWeek` | src/4_features/day-schedule/model/buildCalendarWeek.ts:24-40 | seven consecutive days from that Monday, with index, ISO date, day of month and labels; only Saturday and Sunday disabled |
| `CalendarWeek.ReferenceInWeek` | src/4_features/day-schedule/model/buildCalendarWeek.ts:24-27 | the reference day lies in its own week, at its weekday's position |
| `CalendarWeek.EntriesFallOnTheirWeekday` | src/4_features/day-schedule/model/buildCalendarWeek.ts:27-36 | each entry's date has the weekday its label names |
| `CalendarWeek.DisabledExactlyAtWeekend` | src/4_features/day-schedule/model/buildCalendarWeek.ts:28 | disabled exactly where the calendar store finds no working day |
| `CalendarWeek.IsoDatesDistinct` | src/4_features/day-schedule/model/buildCalendarWeek.ts:33 | no two entries share an ISO date |
| `Dates.IsoDateInjective` | src/4_features/day-schedule/model/buildCalendarWeek.ts:33 | one ISO date string names one day only |
| `Dates.DottedDateInjective` | src/4_features/view-subject/model/types.ts:17 | one dotted date string names one day only |
| `DaySchedule.FindIndexByIso` | src/4_features/day-schedule/model/useDaySchedule.ts:18-20 | the first entry with that ISO date, or none when no entry has it |
| `DaySchedule.TodayCalendarIndex` | src/4_features/day-schedule/model/useDaySchedule.ts:17-22 | the index found, or 0 |
| `DaySchedule.TodayIndexIsWeekPosition` | src/4_features/day-schedule/model/useDaySchedule.ts:15-22 | today is always found, at the position of its weekday |
| `DaySchedule.SelectedCalendarDay` | src/4_features/day-schedule/model/useDaySchedule.ts:34 | the selected entry; the first one when the index is out of range |
| `DaySchedule.LessonsOn` | src/4_features/day-schedule/model/useDaySchedule.ts:42-45 | keeps only lessons from the input |
| `DaySchedule.ItemsOf` | src/4_features/day-schedule/model/useDaySchedule.ts:41 | the response's `items` when it is a list, otherwise [] |
| `DaySchedule.LessonsOnDay` | src/4_features/day-schedule/model/useDaySchedule.ts:42-45 | the reference filter on day numbers: it keeps only lessons of the input that start on the day |
| `DaySchedule.LessonsOnMatchesDay` | src/4_features/day-schedule/model/useDaySchedule.ts:42-45 | comparing ISO strings is comparing days |
| `DaySchedule.LessonsOnDayExact` | src/4_features/day-schedule/model/useDaySchedule.ts:42-45 | exactly the lessons that start on that day |
| `DaySchedule.DayScheduleState.constructor` | src/4_features/day-schedule/model/useDaySchedule.ts:11-24 | this week, today selected, no lessons, not loading, no error |
| `DaySchedule.DayScheduleState.SetSelectedDay` | src/4_features/day-schedule/model/useDaySchedule.ts:62-64 | stores the index as given |
| `DaySchedule.DayScheduleState.LoadScheduleForDay` | src/4_features/day-schedule/model/useDaySchedule.ts:36-54 | loading with no error while it runs; then that day's lessons, or [] with the classified error message |
| `DayScheduleView.Insert` | src/4_features/day-schedule/ui/DayScheduleView.tsx:30-32 | adds exactly one lesson |
| `DayScheduleView.InsertSorted` | src/4_features/day-schedule/ui/DayScheduleView.tsx:30-32 | inserting into a sorted list keeps it sorted |
| `DayScheduleView.SortByStart` | src/4_features/day-schedule/ui/DayScheduleView.tsx:30-32 | sorted by start time and a permutation of the lessons |
| `DayScheduleView.InsertStable` | src/4_features/day-schedule/ui/DayScheduleView.tsx:30-32 | an inserted lesson goes before lessons with the same start time |
| `DayScheduleView.SortIsStable` | src/4_features/day-schedule/ui/DayScheduleView.tsx:30-32 | lessons with the same start time keep their order |
| `DayScheduleView.LessonCountLabel` | src/4_features/day-schedule/ui/DayScheduleView.tsx:34-39 | 1 gives "урок", other counts below 5 give "урока", 5 or more give "уроков" |
| `DayScheduleView.NumberCards` | src/4_features/day-schedule/ui/DayScheduleView.tsx:159-164 | cards numbered 1 to n in list order |
| `DayScheduleView.CardsInTimeOrder` | src/4_features/day-schedule/ui/DayScheduleView.tsx:158-165 | a lower card number never starts later |
| `DayScheduleView.Body` | src/4_features/day-schedule/ui/DayScheduleView.tsx:141-176 | loading first, then the error, then the sorted numbered cards, else "no lessons" |
| `SubjectEntries.ToEntry` | src/4_features/view-subject/model/types.ts:14-20 | id and grade copied, the date as dd.MM.yyyy, type "Оценка", the comment copied or absent |
| `SubjectEntries.GradeItemsToEntries` | src/4_features/view-subject/model/types.ts:11-21 | one entry per grade, same length and order |
| `SubjectEntries.SameDateIffSameDay` | src/4_features/view-subject/model/types.ts:17 | two entries show the same date exactly when graded on the same day |
| `SubjectEntries.CountGrade` | src/4_features/view-subject/ui/SubjectDetailContent.tsx:40-41 | a count never exceeds the entries |
| `SubjectEntries.EntriesKeepGrades` | src/4_features/view-subject/model/types.ts:16 | the entries sum and count as the grades they came from |
| `SubjectDetail.GradesList` | src/4_features/view-subject/model/useSubjectDetail.ts:12 | the cached list, or [] when there is none |
| `SubjectDetail.GradeEntriesFor` | src/4_features/view-subject/model/useSubjectDetail.ts:13 | the entries of that list |
| `SubjectDetail.IsLoadingSubject` | src/4_features/view-subject/model/useSubjectDetail.ts:14 | the subject is loading exactly while its id is in the store's loading set |
| `SubjectDetail.NoCachedEntries` | src/4_features/view-subject/model/useSubjectDetail.ts:12-13 | a subject never fetched, or whose fetch failed, shows no entries |
| `SubjectDetail.Average` | src/4_features/view-subject/ui/SubjectDetailContent.tsx:36-39 | 0 with no entries, otherwise the mean grade |
| `SubjectDetail.FivesCount` | src/4_features/view-subject/ui/SubjectDetailContent.tsx:40 | at most the number of entries |
| `SubjectDetail.FoursCount` | src/4_features/view-subject/ui/SubjectDetailContent.tsx:41 | at most the number of entries |
| `SubjectDetail.FivesAndFoursAtMostTotal` | src/4_features/view-subject/ui/SubjectDetailContent.tsx:40-41 | fives plus fours never exceed the entries |
| `SubjectDetail.SummaryMatchesStore` | src/4_features/view-subject/ui/SubjectDetailContent.tsx:36-41 | the screen's average and counts agree with `computeFromGrades` |
| `SubjectDetail.SummaryStats` | src/4_features/view-subject/ui/SubjectDetailContent.tsx:42-46 | total, fives and fours, in that order, with their captions |
| `SubjectDetail.ShowLoadingPlaceholder` | src/4_features/view-subject/ui/SubjectDetailContent.tsx:61 | shown exactly when loading with no entries |
| `SubjectDetail.RefetchKeepsEntriesVisible` | src/4_features/view-subject/ui/SubjectDetailContent.tsx:61 | refetching a subject with cached grades keeps them on screen |
| `SubjectDetail.ToggleExpanded` | src/4_features/view-subject/model/useSubjectDetail.ts:20-22 | the same id collapses; any other id is expanded |
| `SubjectDetail.ToggleTwice` | src/4_features/view-subject/model/useSubjectDetail.ts:20-22 | two presses restore the state exactly when nothing, or that card, was expanded |
| `SubjectDetail.CardPropsFor` | src/4_features/view-subject/ui/SubjectDetailContent.tsx:26-31 | a card is expanded exactly when its id is the expanded one; the handler is always passed |
| `SubjectDetail.AtMostOneExpanded` | src/4_features/view-subject/ui/SubjectDetailContent.tsx:29 | with distinct ids at most one card is expanded |
| `SubjectDetail.PressFlipsCard` | src/4_features/view-subject/ui/GradeCard.tsx:58-62 | pressing a long comment flips that card and collapses every other |
| `SubjectDetail.SubjectDetailState.constructor` | src/4_features/view-subject/model/useSubjectDetail.ts:10 | nothing is expanded on mount |
| `SubjectDetail.SubjectDetailState.HandleCommentPress` | src/4_features/view-subject/model/useSubjectDetail.ts:20-22 | applies the toggle |
| `SubjectDetail.PressTwiceAfterMount` | src/4_features/view-subject/model/useSubjectDetail.ts:10-22 | two presses on one card after mount leave nothing expanded |
| `GradeCard.WithDefaults` | src/4_features/view-subject/ui/GradeCard.tsx:17-22 | `isCommentExpanded` defaults to false |
| `GradeCard.HasComment` | src/4_features/view-subject/ui/GradeCard.tsx:23 | `Boolean(entry.comment)`: a comment is present and not empty |
| `GradeCard.IsLongComment` | src/4_features/view-subject/ui/GradeCard.tsx:24 | a present comment longer than 50 characters |
| `GradeCard.NeedsCollapse` | src/4_features/view-subject/ui/GradeCard.tsx:25 | a long comment on a card that is not expanded |
| `GradeCard.CommentViewOf` | src/4_features/view-subject/ui/GradeCard.tsx:55-92 | no block without a non-empty comment; collapsed exactly when the comment is long and not expanded; otherwise the full text |
| `GradeCard.PressHandler` | src/4_features/view-subject/ui/GradeCard.tsx:58-62 | a handler exactly for a long comment with `onCommentPress` given; it reports the entry's id |
| `GradeCard.Disabled` | src/4_features/view-subject/ui/GradeCard.tsx:63 | disabled exactly when no handler is attached |
| `GradeCard.ShortCommentIsInert` | src/4_features/view-subject/ui/GradeCard.tsx:24-25 | a short comment is shown whole and cannot be pressed |
| `GradeUtils.BandOf` | src/6_shared/lib/utils/grade.ts:4-9 | 4.5 and up excellent, [3.5, 4.5) good, [2.5, 3.5) satisfactory, below 2.5 poor |
| `GradeUtils.GetGradeColor` | src/6_shared/lib/utils/grade.ts:4-9 | the palette colour of the grade's band |
| `GradeUtils.BandMonotone` | src/6_shared/lib/utils/grade.ts:4-9 | a higher grade never gets a worse band |
| `GradeUtils.IntegerGradeBands` | src/6_shared/lib/utils/grade.ts:4-9 | 5, 4 and 3 get their own band; 2 and 1 are poor |
| `GradeUtils.JsRound` | src/6_shared/lib/utils/grade.ts:12 | the nearest integer, with halves rounding up |
| `GradeUtils.JsRoundInteger` | src/6_shared/lib/utils/grade.ts:12 | a whole number rounds to itself |
| `GradeUtils.GetGradeLabel` | src/6_shared/lib/utils/grade.ts:11-14 | each label exactly on its half-open interval around 5, 4, 3 and 2; "—" below 1.5 and from 5.5 |
| `GradeUtils.HalvesRoundUp` | src/6_shared/config/constants.ts:11-16 | 4.5 rounds up to "Отлично", 3.5 to "Хорошо", 2.5 to "Удовлетворительно", 1.5 to "Неудовлетворительно"; 5.5 has no label |
| `GradeUtils.LabelAgreesWithColor` | src/6_shared/lib/utils/grade.ts:4-14 | wherever a label exists it names the colour band |

## Left out

- The transport's timeout and its error-message classification are left out. The client's transport is a script of outcomes, each a response or a `NetworkError` with its message. When the script runs out, the model answers with a network error "Сетевая ошибка".
- `ApiClient.Client.AttemptTokenRefresh`: requests that run at the same moment share one refresh. The model is sequential, so a refresh is never already running when another is asked for. The shared-refresh branch is unreachable in it, and the ghost flag only shows that the flag is raised during the refresh and lowered afterwards.
- The request options (method, JSON body, `Content-Type`, the caller's own headers) are not modelled. A call records its endpoint, its Authorization header and the token or credentials it carries.
- A 2xx login answer whose JSON body is not a token pair would have storage reject the missing tokens. The model reports this as an `OtherError` and leaves the tokens alone. The same case during a refresh clears both tokens, as the refresh's own catch does.
- Of the JSON values outside the backend's documented shapes, only `null` is modelled, as a whole body and as the payload's `message`. Numbers, booleans, strings and arrays as a body, and such values as `message`, are not. The wording of the `TypeError` a `null` body causes is that of the Hermes engine.
- Overlapping awaits are left out: every action runs to completion before the next one starts. The next two lines name the races this hides; the shared token refresh is the third, on its own line above.
- `DaySchedule.DayScheduleState.LoadScheduleForDay`: overlapping loads are not modelled. A new selection starts a new load, and nothing cancels the earlier one. If the earlier load finishes last, it overwrites `lessons` with its own day's lessons. The first load to finish also sets `isLoading` to false while the other is still running.
- `GradesModel.GradesStore.FetchGradesForSubject`: overlapping fetches are not modelled. When two fetches of the same subject overlap, the first one's `finally` removes the id from `loadingSubjectIds` while the second is still running.
- A `null` or missing user payload is left out: `ApiUser` is always present in the model. In the source, `mapApiUserToUser` throws a `TypeError` when `getMe` resolves to `null` or a login answer carries no `user`. `refreshUserData` then re-raises it, and `initializeAuth` swallows it and signs out. `login` signs out and re-raises it, and the client has already stored the tokens. The JSON `null` line above covers only the HTTP client's own reading of bodies.
- `Promise.all` runs its calls in parallel: both token reads and writes, and the per-subject fetches of `fetchGradesForSubjects`. The model runs them one after another in list order.
- `fetchGradesForSubjects`: its outer catch is unreachable because every subject catches its own failure, so the model has no path for it.
- Keys of `gradesBySubject` that look like array indices would come first in a JavaScript object's key order. The cache keeps insertion order for every key.
- An explicitly `undefined` key of a settings patch would overwrite that switch with `undefined`. The patch model carries only present keys or absent ones.
- Persistence runs in the background, with the zustand middleware and AsyncStorage. `Rehydrate` takes the stored state as given.
- Time zones and daylight saving time are left out: an instant is already local time. `parseISO` is not modelled separately, because the week is built from the day number.
- String lengths count characters, where JavaScript counts UTF-16 code units. The two agree only for text inside the Basic Multilingual Plane, which is what the password field and the comment-length rule are modelled for.
- React's effect scheduling is left out: the refresh of today on mount, the reset of the selected day when today changes, the load triggered by a selection, and the subject screen's fetch of its grades on mount (useSubjectDetail.ts:16-18). The schedule hook's class starts from today's week, and the loads are called explicitly. `DaySchedule.DayScheduleState.week` is a constant, so the model does not rebuild the week when today changes.
- `Array.prototype.sort` is a library sort. The model specifies it by its result (sorted, a permutation, stable) with an insertion sort on sequences, not by the engine's in-place algorithm.
- Rendering, styling, navigation, the theme palettes and the mock data of the screens are left out, as are logging and `__DEV__` warnings.
- Floating point is left out: averages are exact rationals (`real`). Grade values are integers.
