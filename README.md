# CSOJ web client — a Dafny model

This project models the browser side of the CSOJ online judge: the React
components and providers that turn the judge's API records into what a
contestant sees and does. Each core source file becomes one Dafny module:

- `TrendChart` (components/charts/echarts-trend-chart.tsx) builds the contest trend chart. It collects a master time axis with every score event truncated to the second, plus the current time. It sorts every user's history. It then sweeps one pointer per user along the axis, so that each user gets a step series. The sweep is proved equal to a reference step function (`ScoreAt`), and every series is proved to end on the user's latest score.
- `UserScoreCard` (components/contests/user-score-card.tsx) shows the signed-in user's rank, which is their first list position plus one, and their total score. It also shows the per-problem breakdown with titles P1, P2, … and a "–" for an unscored problem.
- `UploadForm` (components/submissions/submission-upload-form.tsx) is the file picker. It has the count and total-size checks on a drop, removal by file identity, and the multipart submit request. The toast and redirect that follow when the request settles are modelled too. The list of files never leaves the limits, whatever sequence of drops and removals occurs.
- `LogViewer` (components/submissions/submission-log-viewer.tsx) is the live judge log. Parsed socket messages are appended with their arrival time, and unparsable ones are dropped. It also covers the socket request, the connection label and indicator, and stream colouring.
- `I18nProvider` (providers/i18n-provider.tsx) loads the message file for a locale. A flag refuses a second load while one is in flight. Locale switching and the full-screen loader are modelled as well. A load is split into its synchronous start and the settling of its fetch. An invariant over every sequence of events shows three things: at most one fetch is in flight, a loaded locale is always "en" or "zh" and comes with its messages, and once a locale is loaded the loader never returns.
- `AuthProvider` (providers/auth-provider.tsx) is the session. It covers start-up from the stored `csoj_jwt` token and its expiry, login, logout, and the profile fetch and its result. An invariant over every event sequence shows that an authenticated record carries a token and a user. `AuthProvider.LogoutDuringFetch` shows that the record and browser storage can disagree: a logout made while a profile fetch is in flight is undone when that fetch succeeds.
- `Utils` (lib/utils.ts) holds `getInitials` and `getScoreColor`.
- `MainNav` (components/layout/main-nav.tsx) holds the navigation routes, the external-link test and the path-prefix highlighting. `MainNav.PrefixMatchesSibling` shows that "/contests" is highlighted on "/contestsX".
- `UserProfileCard` (components/shared/user-profile-card.tsx) handles the loading, error and loaded states, plus the badges made from the comma-separated tags.
- `ThemeToggle` (components/layout/theme-toggle.tsx) cycles light → dark → system and disables the button before mount.
- `WithAuth` (components/layout/with-auth.tsx) is the route guard: a spinner, nothing plus a redirect to /login, or the wrapped page. It also produces the wrapper's display name.

Shared modules model the JavaScript built-ins the components lean on:

- `Text` holds `split`, `trim`, `toUpperCase`, `startsWith` and decimal printing.
- `Sorting` holds a stable sort by a numeric key, standing in for `Array.prototype.sort` with a comparator.
- `Seqs` holds flat-map.
- `Types` holds the records of lib/types.ts.
- `Wrappers` holds `Option` and JavaScript truthiness on strings.

Objects whose fields the source updates in place are classes; the pure logic they follow is stated as functions, and each method's `ensures` ties its new state to those functions. The classes are `UploadForm.SubmissionForm`, `LogViewer.SubmissionLogViewer`, `I18nProvider.ClientIntlProvider`, `AuthProvider.AuthProviderState` and `ThemeToggle.ThemeButton`. The chart's nested loops and its time-point collection are methods with loop invariants. They are proved against `StepSamples` and `HistoryTimes`.

A few facts about the client that the model makes explicit:
- The trend chart samples at every event time and at the current time; it has no anchor point.
- Ranking is the list position plus one. Equal scores do not share a rank, and no entry is hidden. `UserScoreCard.TiesGetDistinctRanks` states this.
- The log viewer shows the raw log lines; it does not track judging steps.
- The log viewer itself does not poll; the socket's close only calls the status callback. The submission pages re-fetch the submission every 2 s while it is Queued or Running, outside this model.

## Model

| member | source | states |
|---|---|---|
| TrendChart.TruncateToSecond | components/charts/echarts-trend-chart.tsx:14-18 | the result is a whole second at or below the timestamp and within 1000 ms of it |
| TrendChart.TruncateIdempotent | components/charts/echarts-trend-chart.tsx:14-18 | truncating an already truncated time changes nothing |
| TrendChart.TruncateUnique | components/charts/echarts-trend-chart.tsx:14-18 | the truncation is the only whole second in the timestamp's second |
| TrendChart.CollectTimePoints | components/charts/echarts-trend-chart.tsx:24-31 | the collected set holds no repeats and has exactly the truncated history times of all users plus the truncated current time |
| TrendChart.SortedTimePoints | components/charts/echarts-trend-chart.tsx:24-34 | the master axis is strictly increasing and has exactly those members |
| TrendChart.PointTimesMembers | components/charts/echarts-trend-chart.tsx:27-29 | a time belongs to a user's times iff some point truncates to it |
| TrendChart.HistoryTimesMembers | components/charts/echarts-trend-chart.tsx:26-30 | a time belongs to the collected times iff it belongs to some user's times |
| TrendChart.TruncatedPoints | components/charts/echarts-trend-chart.tsx:39-40 | same length, every time truncated, score and problem kept |
| TrendChart.SortedHistory | components/charts/echarts-trend-chart.tsx:37-42 | a user's truncated history sorted by time and a permutation of it |
| TrendChart.ScoreAtNone | components/charts/echarts-trend-chart.tsx:45-56 | before a user's first event the step value is the initial 0 |
| TrendChart.ScoreAtIndex | components/charts/echarts-trend-chart.tsx:50-56 | otherwise the step value is the score of the last event at or before the time |
| TrendChart.StepSamples | components/charts/echarts-trend-chart.tsx:48-59 | one sample per master time, in order, pairing the time with the step value |
| TrendChart.FromEntries | components/charts/echarts-trend-chart.tsx:44-46 | every user id maps to the initial value |
| TrendChart.SampleUser | components/charts/echarts-trend-chart.tsx:50-57 | the while loop and the push leave this user's pointer, score and samples in step with the reference for one more master time, other users untouched, the pointer never moving back |
| TrendChart.SampleAllUsers | components/charts/echarts-trend-chart.tsx:49-58 | after one master time every user is in step with the reference |
| TrendChart.SweepSeries | components/charts/echarts-trend-chart.tsx:44-59 | each user's samples equal the reference step samples of their sorted history over the whole axis |
| TrendChart.ChartSeries | components/charts/echarts-trend-chart.tsx:61-67 | one step line per trend entry in input order, named by nickname, carrying that user's samples |
| TrendChart.TrendSeries | components/charts/echarts-trend-chart.tsx:24-68 | the axis properties above, and one series per entry whose data are the reference samples and whose last sample is the user's latest score |
| TrendChart.LastSampleIsLatest | components/charts/echarts-trend-chart.tsx:31-57 | the axis is non-empty and its last time is at or after every event, so each series ends on the latest score |
| UserScoreCard.FindIndex | components/contests/user-score-card.tsx:76-78 | the first position of the user, or -1 exactly when the user is absent |
| UserScoreCard.UserRank | components/contests/user-score-card.tsx:76-78 | 0 iff there is no leaderboard or no entry; otherwise the rank is one past the first matching position |
| UserScoreCard.FindAtIndex | components/contests/user-score-card.tsx:75-78 | `find` and `findIndex` agree on the entry they locate |
| UserScoreCard.EntryIffRanked | components/contests/user-score-card.tsx:75-90 | the entry exists iff the rank is positive, and it is the entry at rank - 1 |
| UserScoreCard.RankIsPosition | components/contests/user-score-card.tsx:76-78 | with one entry per user, the rank is the list position plus one |
| UserScoreCard.TiesGetDistinctRanks | components/contests/user-score-card.tsx:76-78 | ranks strictly follow list order whatever the scores, so equal scores never share a rank |
| UserScoreCard.Breakdown | components/contests/user-score-card.tsx:137-153 | one row per contest problem in order, with its link, its title P(i+1), its score and colour, or a dash and no colour when unscored |
| UserScoreCard.RowTitleInjective | components/contests/user-score-card.tsx:145 | a title reads back as its number, so distinct positions have distinct titles |
| UserScoreCard.BreakdownTitles | components/contests/user-score-card.tsx:137-146 | no two breakdown rows share a title |
| UserScoreCard.Card | components/contests/user-score-card.tsx:49-119 | skeleton iff loading or nobody is signed in, nothing iff no contest, ranked iff the rank is positive with that rank, the entry's total and the breakdown only while expanded |
| UploadForm.DropCheck | components/submissions/submission-upload-form.tsx:24-46 | a drop is accepted iff the combined list is within both limits; it is "too many files" iff the count alone is exceeded |
| UploadForm.TotalSizeConcat | components/submissions/submission-upload-form.tsx:35 | the size of the combined list is the sum of the two sizes |
| UploadForm.Without | components/submissions/submission-upload-form.tsx:50-52 | every file other than the removed one is kept and nothing else; the kept files have the multiplicities they had, and the removed file has none |
| UploadForm.WithoutConcat | components/submissions/submission-upload-form.tsx:50-52 | filtering a concatenation filters each part, so the kept files stay in their order |
| UploadForm.WithoutSingle | components/submissions/submission-upload-form.tsx:50-52 | one file is kept exactly when it is not the removed one |
| UploadForm.WithoutAbsent | components/submissions/submission-upload-form.tsx:50-52 | removing a file not in the list changes nothing |
| UploadForm.WithoutSize | components/submissions/submission-upload-form.tsx:50-52 | removal never grows the total size |
| UploadForm.WithoutKeepsLimits | components/submissions/submission-upload-form.tsx:50-52 | removal keeps a list within the limits |
| UploadForm.ReplayKeepsLimits | components/submissions/submission-upload-form.tsx:24-52 | any sequence of drops and removals keeps the list within the limits |
| UploadForm.FormFields | components/submissions/submission-upload-form.tsx:60-63 | every file in order under the field name "files" |
| UploadForm.SettleToast | components/submissions/submission-upload-form.tsx:66-78 | destructive iff rejected; the server's message when non-empty, else the fixed text; on success the description ends with the submission id |
| UploadForm.SettleRedirect | components/submissions/submission-upload-form.tsx:66-72 | navigation happens iff the submission was created, to /submissions/ followed by its id |
| UploadForm.SubmissionForm.constructor | components/submissions/submission-upload-form.tsx:18-20 | no files and not submitting |
| UploadForm.SubmissionForm.OnDrop | components/submissions/submission-upload-form.tsx:24-46 | the verdict is `DropCheck` and the list grows by the drop exactly when it is accepted |
| UploadForm.SubmissionForm.RemoveFile | components/submissions/submission-upload-form.tsx:50-52 | the list becomes `Without` of the old list |
| UploadForm.SubmissionForm.BeginSubmit | components/submissions/submission-upload-form.tsx:54-66 | no request iff there are no files; otherwise the form is submitting, the button is disabled and the request posts every file to the problem's submit path |
| UploadForm.SubmissionForm.SubmitSettled | components/submissions/submission-upload-form.tsx:66-81 | the submitting flag is cleared and the toast and redirect are those of the reply |
| LogViewer.ReplayLength | components/submissions/submission-log-viewer.tsx:32-42 | the list holds one message per event that parsed |
| LogViewer.ReplayPrefix | components/submissions/submission-log-viewer.tsx:37 | the list only grows: an earlier list is a prefix of a later one |
| LogViewer.ReplaySources | components/submissions/submission-log-viewer.tsx:35-37 | every message is some parsed event's stream and data stamped with that event's arrival time |
| LogViewer.ConnectionLabel | components/submissions/submission-log-viewer.tsx:51-57 | the label is "Live" exactly while open, "Disconnected" exactly once closed and "Connecting..." exactly while connecting |
| LogViewer.LabelsDistinct | components/submissions/submission-log-viewer.tsx:51-57 | distinct states have distinct labels |
| LogViewer.IndicatorColor | components/submissions/submission-log-viewer.tsx:62-65 | green iff open, yellow iff connecting, red otherwise |
| LogViewer.StreamColor | components/submissions/submission-log-viewer.tsx:75-81 | red iff stderr or error, blue iff info |
| LogViewer.Render | components/submissions/submission-log-viewer.tsx:72-83 | the placeholder iff there are no messages, else one coloured line per message in order |
| LogViewer.Socket | components/submissions/submission-log-viewer.tsx:20-30 | a URL iff the token is non-empty, always reconnecting every 3000 ms |
| LogViewer.LogsUrlParts | components/submissions/submission-log-viewer.tsx:20 | the socket URL starts with the base, carries the submission id at its place and ends with the token |
| LogViewer.SubmissionLogViewer.constructor | components/submissions/submission-log-viewer.tsx:19 | no messages and no status callbacks yet |
| LogViewer.SubmissionLogViewer.OnMessage | components/submissions/submission-log-viewer.tsx:32-42 | the list becomes `Appended` of the old list and keeps it as a prefix |
| LogViewer.SubmissionLogViewer.OnClose | components/submissions/submission-log-viewer.tsx:26-29 | the status callback runs once more |
| I18nProvider.ResolveLocale | providers/i18n-provider.tsx:52 | an available locale is kept; any other becomes "zh" |
| I18nProvider.InitialLocale | providers/i18n-provider.tsx:86-93 | the saved locale when it is available, else "zh" |
| I18nProvider.BeginLoad | providers/i18n-provider.tsx:43-54 | while a load is in flight nothing changes and no fetch starts; otherwise loading starts for the resolved locale |
| I18nProvider.Settle | providers/i18n-provider.tsx:58-81 | success installs the locale and messages and writes storage only when asked; failure keeps a loaded locale or falls back to "zh" with no messages; the load is over either way |
| I18nProvider.Switch | providers/i18n-provider.tsx:101-112 | ignored for an unavailable or current locale or during a load; otherwise the result is `BeginLoad` of that locale with storage to be updated, so the shown locale and messages stay until it settles |
| I18nProvider.StepValid | providers/i18n-provider.tsx:43-112 | every event keeps the provider invariant |
| I18nProvider.RunValid | providers/i18n-provider.tsx:43-112 | every sequence of events keeps it: one fetch at most, exactly while the flag is set, and a loaded locale is available and has messages |
| I18nProvider.InitialValid | providers/i18n-provider.tsx:36-41 | the first state satisfies the invariant and shows the loader |
| I18nProvider.LocaleStaysLoaded | providers/i18n-provider.tsx:115-123 | once a locale is loaded it stays loaded and the loader never shows again |
| I18nProvider.ClientIntlProvider.constructor | providers/i18n-provider.tsx:36-41 | the state is the initial state |
| I18nProvider.ClientIntlProvider.LoadMessages | providers/i18n-provider.tsx:43-54 | the new state and the started flag are `BeginLoad` |
| I18nProvider.ClientIntlProvider.OnMount | providers/i18n-provider.tsx:86-98 | a remembered load of `InitialLocale` is begun |
| I18nProvider.ClientIntlProvider.FetchSettled | providers/i18n-provider.tsx:58-81 | the new state and the success flag are `Settle` |
| I18nProvider.ClientIntlProvider.SwitchLocale | providers/i18n-provider.tsx:101-112 | the new state and the started flag are `Switch` |
| AuthProvider.InitialAuth | providers/auth-provider.tsx:24-29 | no token, no user, not authenticated, loading |
| AuthProvider.AfterLogout | providers/auth-provider.tsx:49-59 | the record is cleared and not loading; the token key is removed from storage and every other key is kept |
| AuthProvider.ProfileFetched | providers/auth-provider.tsx:32-47 | a fetched profile authenticates with the token used; a failure is a logout |
| AuthProvider.Startup | providers/auth-provider.tsx:61-78 | no stored token only ends loading; a token whose expiry in ms is after now starts a fetch with it; any other token logs out |
| AuthProvider.AfterLogin | providers/auth-provider.tsx:80-83 | the token is stored under its key, every other storage key is kept and the record is untouched until the fetch settles |
| AuthProvider.StepValid | providers/auth-provider.tsx:24-83 | every event keeps "authenticated implies a token and a user and not loading" |
| AuthProvider.RunValid | providers/auth-provider.tsx:24-83 | every sequence of events keeps it |
| AuthProvider.LoginThenProfile | providers/auth-provider.tsx:80-83 | a login followed by a successful fetch authenticates with the token that storage holds |
| AuthProvider.LogoutDuringFetch | providers/auth-provider.tsx:32-59 | a logout during an in-flight fetch is undone when the fetch succeeds: authenticated with no token in storage |
| AuthProvider.AuthProviderState.constructor | providers/auth-provider.tsx:24-29 | the record starts as `InitialAuth` |
| AuthProvider.AuthProviderState.Logout | providers/auth-provider.tsx:49-59 | the session becomes `AfterLogout` |
| AuthProvider.AuthProviderState.FetchUserProfileSettled | providers/auth-provider.tsx:32-47 | the session becomes `ProfileFetched` |
| AuthProvider.AuthProviderState.OnStartup | providers/auth-provider.tsx:61-78 | the session and the token to fetch with are `Startup` |
| AuthProvider.AuthProviderState.Login | providers/auth-provider.tsx:80-83 | the session becomes `AfterLogin` |
| Utils.GetInitials | lib/utils.ts:8-13 | an empty name gives "", at most two characters, none a lowercase ASCII letter |
| Utils.InitialsOfTwoWords | lib/utils.ts:8-13 | a name starting with two words gives their first letters, upper-cased |
| Utils.EmptyWordsIgnored | lib/utils.ts:10-11 | a doubled space adds nothing to the initials |
| Utils.FirstChar | lib/utils.ts:11 | an empty word gives nothing; any other word gives its first character |
| Utils.FirstCharsHeads | lib/utils.ts:11 | joining the first characters of all words equals taking the first character of each non-empty word |
| Utils.InitialsOfWords | lib/utils.ts:8-13 | for every name, the initials are the first characters of the first two non-empty space-separated words, upper-cased |
| Utils.InitialsOfOneWord | lib/utils.ts:8-13 | a single word gives its first character, upper-cased |
| Utils.Prefix | lib/utils.ts:12 | a prefix of the string of length at most n |
| Utils.ClampScore | lib/utils.ts:16-17 | the score clamped into 0..100 |
| Utils.ScoreColor | lib/utils.ts:15-26 | hue 1.3 times the clamped score, within 0..130, saturation and lightness 50 |
| Utils.HueMonotone | lib/utils.ts:15-26 | a higher score never has a lower hue |
| MainNav.AllRoutes | components/layout/main-nav.tsx:20-25 | the three fixed routes then every fetched link in order |
| MainNav.Render | components/layout/main-nav.tsx:33-67 | a new tab iff external, highlighted iff active, external links always muted |
| MainNav.FixedRoutesInternal | components/layout/main-nav.tsx:20-35 | fixed routes are internal and active on every path below them |
| MainNav.ActiveOnExtension | components/layout/main-nav.tsx:34-35 | every internal href is active on itself followed by any text |
| MainNav.PrefixMatchesSibling | components/layout/main-nav.tsx:35 | the prefix test also highlights a sibling path such as /contestsX |
| MainNav.ExternalNeverActive | components/layout/main-nav.tsx:34-52 | a link starting with "http" is external, never active and muted |
| UserProfileCard.SegmentBadge | components/shared/user-profile-card.tsx:44-46 | a segment yields at most one badge, its non-empty trimmed text |
| UserProfileCard.BadgesClean | components/shared/user-profile-card.tsx:42-46 | every badge is non-empty with no white space at either end |
| UserProfileCard.BadgesConcat | components/shared/user-profile-card.tsx:44 | the badges of tags joined by a comma are the badges of each part in order |
| UserProfileCard.BadgesSegment | components/shared/user-profile-card.tsx:44 | a string with no comma yields the badge of its trimmed text, if any |
| UserProfileCard.Card | components/shared/user-profile-card.tsx:19-48 | skeleton iff loading, the error iff an error or no user, else the profile with the user's avatar URL, "@" and the username as handle, the nickname and its initials, the user's signature only when non-empty and the badges only for non-empty tags |
| ThemeToggle.CycleTheme | components/layout/theme-toggle.tsx:18-26 | light goes to dark, dark to system, anything else to light |
| ThemeToggle.PeriodThree | components/layout/theme-toggle.tsx:18-26 | three clicks return each theme to itself |
| ThemeToggle.CycleOrbit | components/layout/theme-toggle.tsx:18-26 | after the first click only the three themes appear, repeating every three clicks |
| ThemeToggle.ThemeIcon | components/layout/theme-toggle.tsx:35-37 | sun iff light, moon iff dark, laptop iff system |
| ThemeToggle.ThemeButton.constructor | components/layout/theme-toggle.tsx:10-11 | not mounted, with the library's theme |
| ThemeToggle.ThemeButton.Mount | components/layout/theme-toggle.tsx:14-16 | mounted |
| ThemeToggle.ThemeButton.Click | components/layout/theme-toggle.tsx:18-34 | while the button is disabled (before mount) a click changes nothing; after mount the theme becomes `CycleTheme` of the old one |
| WithAuth.Decide | components/layout/with-auth.tsx:12-30 | spinner iff loading, nothing and a redirect to /login iff loaded and unauthenticated, the wrapped page with its props iff authenticated |
| WithAuth.GateAroundStartup | components/layout/with-auth.tsx:12-24 | before start-up the spinner shows; with no stored token start-up leads to the login redirect |
| WithAuth.WrappedHasUser | components/layout/with-auth.tsx:26-30 | a rendered page always has a user and a token in the session |
| WithAuth.DisplayName | components/layout/with-auth.tsx:33-35 | "withAuth(" + the display name, else the name, else "Component" + ")" |
| Text.Split | lib/utils.ts:10 | at least one part, none containing the separator |
| Text.JoinSplit | lib/utils.ts:10 | joining the parts with the separator restores the string |
| Text.SplitJoin | lib/utils.ts:10 | splitting a join of separator-free parts restores the parts |
| Text.SplitConcat | components/shared/user-profile-card.tsx:44 | splitting around a separator splits each side |
| Text.Trim | components/shared/user-profile-card.tsx:44 | no white space at either end of the result |
| Text.TrimInfix | components/shared/user-profile-card.tsx:44 | the result is the string with only white space removed from its two ends |
| Text.Upper | lib/utils.ts:12 | same length, each lowercase ASCII letter raised |
| Text.DecimalRoundTrip | components/contests/user-score-card.tsx:145 | the printed number reads back as itself |
| Sorting.SortBy | components/charts/echarts-trend-chart.tsx:39-41 | sorted by the key and a permutation of the input |
| Sorting.SortByStable | components/charts/echarts-trend-chart.tsx:39-41 | points with equal keys keep their relative order |

## Left out

- Parsing the API's time strings with `new Date(...)` is not modelled. Histories carry times already converted to milliseconds.
- TrendChart.TruncateToSecond: assumes a fixed time-zone offset. `setMilliseconds(0)` recomputes the time from local time, and a repeated local time resolves to its earlier instant. So during the repeated hour after a backward daylight-saving change, the source's truncation jumps back by the daylight-saving shift. The model always truncates to the multiple of 1000 at or below the timestamp.
- TrendChart.SweepSeries, TrendChart.TrendSeries: these require the trend entries to have distinct user ids, as the server returns one entry per user. With a repeated id the source's per-id maps would be shared between two entries; that is not modelled.
- The trend chart's tooltip, legend and axis formatting and the theme colours are presentation, so they are not modelled.
- Text.Upper: `toUpperCase` is modelled for ASCII letters only. Other characters are kept as they are, whereas JavaScript also maps non-ASCII letters, some into two characters.
- Utils.FirstChar: characters are Unicode scalar values here. For a word starting with a character outside the Basic Multilingual Plane, the model keeps that character whole, while JavaScript's `n[0]` gives a lone high surrogate.
- Utils.GetInitials: `substring(0, 2)` counts UTF-16 code units, so a name with a first character outside the Basic Multilingual Plane gives a different result in JavaScript (the two halves of that character, or one half and the next initial). The model counts whole characters.
- Utils.ScoreColor returns the hue, saturation and lightness before they are formatted into a CSS string. It takes a real score; the NaN that an unscored problem produces is modelled as "no colour" in `UserScoreCard.Breakdown`.
- UploadForm: `max_size` is modelled as a whole number of MB and file sizes as natural numbers. A fractional limit is not modelled.
- UploadForm: the "Too many files" and "Files too large" toasts are represented by the `DropOutcome` verdict, not by their texts.
- UploadForm: the "No files selected" toast on an empty submit is represented by the absent request.
- The upload form reads the current list when a drop arrives. React's closure over `files` is assumed to be current.
- LogViewer: `JSON.parse` is an input. An event carries the parsed stream and data, or nothing when parsing fails. A payload of an unexpected shape is not modelled. Auto-scrolling is not modelled.
- LogViewer: the clock (`Date.now()`) and the socket environment variable are parameters.
- LogViewer: the socket itself, its reconnection timer and the close event are not modelled beyond the options and the callback count.
- I18nProvider: the fetch and the JSON body are an input to `Settle`, where `None` means any failure.
- I18nProvider: the failure branch reads the locale when the fetch settles, while the source reads the locale captured when the load started. The two are equal because no other load can run in between. The mount effect runs again whenever the locale changes, so `Mount` may occur at any point of an event sequence.
- AuthProvider.ProfileFetched: a successful profile reply is assumed to carry a user. The source stores `response.data.data` unchecked, so a successful reply without data would give an authenticated record with no user. `AuthProvider.AuthValid` and the invariants built on it trust the server on this point.
- AuthProvider: `jwtDecode` and `Date.now()` are inputs to `Startup`. The HTTP request for the profile is an input to `ProfileFetched`.
- AuthProvider: clearing the SWR cache on logout is not modelled.
- UserScoreCard, UserProfileCard, MainNav: SWR fetching, the 15-second refresh, translations and the expand animation are not modelled. The fetched data and the loading and error flags are inputs.
- The authenticated-image hook, the API client and the pages that use these components are outside the modelled core.

