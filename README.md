# ResQNet emergency-response client — a Dafny model

ResQNet connects people in an emergency (victims) with nearby volunteers.
The web client lets a visitor raise an SOS from the landing page, sign in
or register as a victim or a volunteer, follow a live alert and the
volunteers answering it, accept or decline incoming alerts as a
volunteer, browse and filter the alert history, and edit a profile
(personal data, emergency contacts, safety, notification and location
preferences, password and two-factor settings). Two services talk to the
hosted database: the emergency service (alerts, responses, emergency
contacts) and the user service (profiles, statistics, available
volunteers).

This project models that client's logic in Dafny, one module per source
file, and proves what each piece promises.

- **Services** (`emergency_service.dfy`, `emergency_contact_store.dfy`,
  `user_service.dfy`). The database tables are classes holding sequences
  of rows. Each call is a method or function that says what it returns
  and how the table changes. A failed request is a boolean argument, and
  the `{ data, error }` answer is a `Result`. The query options
  (`.eq`, `.in`, `.order`, `.limit`, `.single()`) are written out as
  filter, stable sort, take and "exactly one row".
- **Components and pages**. A component whose state changes through
  `useState` setters is a class: its fields are the state slices, and
  each handler is a method. Its postconditions give the slices it
  changes, and its frame (`modifies`) or further postconditions keep the
  others. What a component derives from its props and state (labels,
  colours, texts, which parts are shown) is a set of functions, with
  lemmas about them.
- **Timers**. Every `setTimeout` / `setInterval` callback is a step
  method of its own, called when the timer fires. An effect that runs
  after a state change is modelled right after the method that caused it.
- **Numbers**. Times are integer milliseconds. Distances are tenths of a
  metre, and ratings and percentages are tenths, so `Math.round`,
  `toFixed(1)`, `Math.floor`, `Math.ceil` and `% 1` are exact. JavaScript's
  truncating `%`, the `||` and `??` fallbacks, `trim`, `includes`,
  `padStart` and decimal rendering are modelled in `js_text.dfy` and
  `common.dfy`.
- **Outside inputs**. The clock, the outcome of an auth call and the
  browser's answers (confirm dialogs, geolocation) are parameters.
- **Shared logic**. The source copies the same duration formatter into
  four files, and the e-mail and password checks into two. Each copy
  cites its file, and all of them share one definition
  (`duration_text.dfy`, `credential_rules.dfy`).

Where the source gives an operation a partner, the model proves the two
together: a reference function that a method is proved against, an
invariant it preserves, or its inverse. What stays weaker than the
source is listed under "Left out", by member.
The texts a component renders are proved to read back as the value
they show; for example, `ParseDuration(FormatDuration(m)) == Some(m)`.

## Model

| member | source | states |
|---|---|---|
| EmergencyService.NewAlertRow | src/services/emergencyService.js:5-16 | the inserted row carries every one of the caller's fields (victim, type, title, description, coordinates, address), status pending, no resolution time, and priority 3 exactly when the given priority is missing or 0 |
| EmergencyService.UpdateData | src/services/emergencyService.js:92-96 | the written status is the one in `updates` if present, else the argument; resolved_at is `now` exactly for status 'resolved', otherwise whatever `updates` carries |
| EmergencyService.ApplyPatch | src/services/emergencyService.js:98 | an update writes exactly the columns the patch names and keeps id, owner and creation time |
| EmergencyService.PatchWhere | src/services/emergencyService.js:98 | `.update(p).eq('id', id)` patches every row with that id and leaves every other row unchanged, at the same position |
| EmergencyService.ActiveAlerts | src/services/emergencyService.js:65-80 | the result holds every copy of each stored alert whose status is pending, acknowledged or in_progress and nothing else, newest first |
| EmergencyService.MatchingUserAlerts | src/services/emergencyService.js:25-46 | before `.limit`, the answer holds every copy of each stored alert of the user that matches a truthy status filter and nothing else, newest first |
| EmergencyService.UserAlerts | src/services/emergencyService.js:25-56 | with a truthy limit the answer is the first min(limit, all) of the matching alerts newest first, otherwise all of them; every returned alert is a stored, matching one |
| EmergencyService.VolunteerResponsesAll | src/services/emergencyService.js:131-147 | before `.limit`, the answer holds every copy of each stored response of the volunteer and nothing else, latest response time first |
| EmergencyService.VolunteerResponses | src/services/emergencyService.js:131-152 | with a truthy limit the answer is the first min(limit, all) of the volunteer's responses latest first, otherwise all of them; every returned response is a stored one of that volunteer |
| EmergencyService.AlertTable.GetActiveAlerts | src/services/emergencyService.js:65-88 | a failed request answers `{ data: null, error }`; otherwise the answer is exactly `ActiveAlerts` of the stored rows |
| EmergencyService.AlertTable.GetUserAlerts | src/services/emergencyService.js:25-63 | a failed request answers with the error; otherwise the answer is exactly `UserAlerts` of the stored rows, the options included |
| EmergencyService.AlertTable.GetVolunteerResponses | src/services/emergencyService.js:131-159 | a failed request answers with the error; otherwise the answer is exactly `VolunteerResponses` of the stored rows and the limit |
| EmergencyService.AlertTable.CreateAlert | src/services/emergencyService.js:5-23 | a failed insert changes nothing and reports the error; a successful one appends exactly `NewAlertRow` under a fresh id and returns it |
| EmergencyService.AlertTable.UpdateAlertStatus | src/services/emergencyService.js:90-105 | a failed request or a missing row (`.single()`) changes nothing and is an error; otherwise the table becomes `PatchWhere` with `UpdateData` and the patched row is returned |
| EmergencyService.NewResponseRow | src/services/emergencyService.js:111-120 | the inserted response carries the caller's alert, volunteer, arrival estimate and message, is accepted exactly when `isAccepted` is true, is stamped with the clock and has no rating |
| EmergencyService.AlertTable.RespondToAlert | src/services/emergencyService.js:108-128 | a failed insert changes nothing and reports the error; a successful one appends exactly `NewResponseRow` under a fresh id and returns it; only an accepted response whose insert succeeded writes status 'acknowledged' to its alert, and nothing else changes |
| EmergencyService.ResolvedAtOnlyWhenResolved | src/services/emergencyService.js:92-96 | after an update without its own resolved_at, a row's resolved_at is `now` if it was updated to 'resolved' and is unchanged for every other status, 'cancelled' included |
| EmergencyService.UpdatesStatusWins | src/services/emergencyService.js:92-95 | a status inside `updates` overrides the status argument while the argument still decides resolved_at |
| EmergencyService.AcceptOverwritesStatus | src/services/emergencyService.js:121-123 | the write an accepted response triggers makes the alert 'acknowledged' from any status, resolved included, keeps its resolved_at and puts it back on the active list |
| EmergencyService.ResolvedLeavesActive | src/services/emergencyService.js:80-96 | an alert updated to 'resolved' is no longer among the active alerts |
| EmergencyService.ActiveAlertsIgnoreArea | src/services/emergencyService.js:65-80 | the location and radius arguments of getActiveAlerts never change its answer |
| EmergencyService.PatchWhereSingle | src/services/emergencyService.js:98 | with unique ids an update reaches exactly the one row with that id |
| EmergencyContactStore.NewContactRow | src/services/emergencyService.js:200-208 | the inserted contact carries the caller's owner, name, phone and relationship, and is primary exactly when `isPrimary` was given as true |
| EmergencyContactStore.ApplyContactPatch | src/services/emergencyService.js:219 | an update writes exactly the columns the patch names and keeps the id and the owner |
| EmergencyContactStore.PatchContacts | src/services/emergencyService.js:219 | `.update(p).eq('id', id)` patches every contact with that id and leaves every other contact unchanged, at the same position |
| EmergencyContactStore.UserContacts | src/services/emergencyService.js:189-198 | the result holds every copy of each of the user's stored contacts and nothing else, and no non-primary contact comes before a primary one |
| EmergencyContactStore.DeleteWhere | src/services/emergencyService.js:228-237 | `.delete().eq('id', id)` removes exactly the contacts with that id and keeps the others in their order |
| EmergencyContactStore.ContactTable.constructor | src/services/emergencyService.js:188 | the contact table starts empty with unique ids |
| EmergencyContactStore.ContactTable.GetEmergencyContacts | src/services/emergencyService.js:189-198 | a failed request is an error; otherwise the answer is exactly `UserContacts` of the stored rows: the user's contacts, primary first |
| EmergencyContactStore.ContactTable.AddEmergencyContact | src/services/emergencyService.js:200-215 | a failed request returns the error and changes nothing; otherwise the new row is appended and returned, and ids stay unique |
| EmergencyContactStore.ContactTable.UpdateEmergencyContact | src/services/emergencyService.js:217-226 | a failed request changes nothing; a missing id is the `.single()` error and changes nothing; otherwise every row with the id is patched and the patched row is returned |
| EmergencyContactStore.ContactTable.DeleteEmergencyContact | src/services/emergencyService.js:228-237 | a failed request returns the error and changes nothing; otherwise the rows with the id are removed with no error, even when none existed, and ids stay unique |
| EmergencyContactStore.DeleteKeepsUnique | src/services/emergencyService.js:228-237 | deleting keeps contact ids unique and below the table's next id |
| EmergencyContactStore.FilterKeepsUnique | src/services/emergencyService.js:230 | any filter of a contact list with unique ids has unique ids |
| EmergencyContactStore.AddedIsListed | src/services/emergencyService.js:189-215 | a contact added for a user appears in that user's list afterwards |
| EmergencyContactStore.DeletedIsNotListed | src/services/emergencyService.js:189-237 | after a delete no listed contact has that id, and every other contact the user had stays listed |
| EmergencyContactStore.SetPrimaryListsFirst | src/services/emergencyService.js:189-226 | after an update that sets `isPrimary` the contact is listed for its user, ahead of every non-primary contact |
| UserService.ApplyProfilePatch | src/services/userService.js:27 | an update writes exactly the columns it names and keeps id, role and activity flag |
| UserService.UpdateProfiles | src/services/userService.js:27 | `.update(u).eq('id', userId)` patches every row with that id and leaves every other row as it was |
| UserService.LocationUpdates | src/services/userService.js:49-56 | the update always holds both coordinates, holds the address exactly when a non-empty one is given, and nothing else |
| UserService.ProfileTable.GetUserProfile | src/services/userService.js:5-23 | succeeds exactly when the request succeeds and a row with that id exists, and then returns that row |
| UserService.ProfileTable.UpdateUserProfile | src/services/userService.js:25-34 | a failed request or a missing row changes nothing and is an error; otherwise the table becomes `UpdateProfiles` and the patched row is returned |
| UserService.ProfileTable.UpdateVolunteerStatus | src/services/userService.js:36-45 | only volunteer_status of the rows with that id changes, and only when the request succeeds |
| UserService.ProfileTable.UpdateLocation | src/services/userService.js:47-65 | the user's rows get both coordinates and, for a non-empty address, the address; every other row and column is unchanged |
| UserService.ProfileTable.GetAvailableVolunteers | src/services/userService.js:141-159 | on success returns `AvailableVolunteers` of the stored rows; on failure an error |
| UserService.AvailableVolunteers | src/services/userService.js:152 | exactly the stored profiles with role 'volunteer' and is_active, each as often as stored and no other, ordered by full name |
| UserService.CountStatus | src/services/userService.js:103-105 | a status count never exceeds the number of alerts |
| UserService.CountRated | src/services/userService.js:129 | the count of rated responses never exceeds the number of responses |
| UserService.UnratedSumZero | src/services/userService.js:128 | responses with no truthy rating add nothing to the rating sum |
| UserService.AverageOf | src/services/userService.js:127-130 | an average exists only with at least one rated completed response and a non-zero sum, and is that sum over that count; otherwise 0 |
| UserService.VictimAlertCount | src/services/userService.js:96-105 | a count of the victim's alerts never exceeds the number of alerts |
| UserService.ResponseCount | src/services/userService.js:110-121 | a count of the volunteer's responses never exceeds the number of responses |
| UserService.CompletedBy | src/services/userService.js:122-124 | only the volunteer's own accepted responses to resolved alerts, no more of them than the accepted ones |
| UserService.GetUserStats | src/services/userService.js:91-138 | for 'victim', the number of the user's alerts and of those pending, resolved and in progress; for 'volunteer', the number of the user's responses, of the accepted ones and of the completed ones, and `AverageOf` the completed ones; an empty record for any other role; an error when the query fails |
| UserService.OwnAlertsCounted | src/services/userService.js:96-105 | filtering by victim and then counting a status counts exactly the victim's alerts with that status |
| UserService.OwnResponsesCounted | src/services/userService.js:110-124 | the three chained filters keep exactly the volunteer's responses, the accepted ones and the completed ones |
| UserService.AcceptedWithinTotal | src/services/userService.js:121 | the accepted responses are at most all the responses |
| UserService.StatusCountsBounded | src/services/userService.js:103-105 | the victim's pending, resolved and in-progress counts add up to at most the victim's alerts |
| UserService.VictimCountsBounded | src/services/userService.js:101-106 | victim statistics count at most totalAlerts alerts over the three statuses |
| UserService.VolunteerCountsOrdered | src/services/userService.js:118-131 | completed ≤ accepted ≤ total responses, and no completed response means no average |
| UserService.AverageNeedsRating | src/services/userService.js:127-130 | without a truthy rating among the completed responses the average is 0 |
| UserService.AllUnrated | src/services/userService.js:129 | if no response has a truthy rating, none is counted as rated |
| FilterControls.WithFilter | src/pages/alert-history/components/FilterControls.jsx:54-59 | the emitted record holds the new value under the changed key and every other key's value unchanged |
| FilterControls.WithFilterSame | src/pages/alert-history/components/FilterControls.jsx:54-59 | re-selecting a key's current value emits the same record |
| FilterControls.AnyActive | src/pages/alert-history/components/FilterControls.jsx:61-63 | true exactly when some listed key holds a value other than 'all' and '' |
| FilterControls.HasActiveFiltersIff | src/pages/alert-history/components/FilterControls.jsx:61-63 | the record has an active filter exactly when some key's value is neither 'all' nor '' |
| FilterControls.ClearedInactive | src/pages/alert-history/index.jsx:284-293 | the cleared record (every select 'all', both dates empty) has no active filter |
| FilterControls.ChipsFor | src/pages/alert-history/components/FilterControls.jsx:160-190 | every chip belongs to an active key and is labelled by getFilterLabel, and every active key has a chip |
| FilterControls.ChipsInKeyOrder | src/pages/alert-history/components/FilterControls.jsx:160-190 | the chips' keys are a subsequence of the keys they were built from, so the chips follow the filters' key order |
| FilterControls.ChipsExactlyActive | src/pages/alert-history/components/FilterControls.jsx:157-161 | a key has a chip exactly when its value is active |
| FilterControls.RemoveChip | src/pages/alert-history/components/FilterControls.jsx:185 | a chip's remove button sets its key to 'all': that chip disappears and every other key's chip is as before |
| FilterControls.FilterLabelKnown | src/pages/alert-history/components/FilterControls.jsx:17-62 | every option value of each of the four selects is shown with that option's own label |
| FilterControls.FilterLabelUnknown | src/pages/alert-history/components/FilterControls.jsx:163-176 | a value none of the key's options carries, and any date, is shown as it is |
| AlertHistory.FilteredAlerts | src/pages/alert-history/index.jsx:191-245 | no more alerts than given, and every kept alert passes the search (when the query is non-empty) and every select |
| AlertHistory.FilteredIsSubsequence | src/pages/alert-history/index.jsx:191-245 | the filtered list keeps the input order and holds exactly the alerts that pass |
| AlertHistory.FilteredMatchesSelects | src/pages/alert-history/index.jsx:193-211 | every kept alert has the selected type, status and urgency for each select not at 'all', and contains a non-empty query |
| AlertHistory.NoFiltersKeepsAll | src/pages/alert-history/index.jsx:191-245 | an empty query with type, status, urgency and date range at 'all' keeps the list unchanged |
| AlertHistory.SearchEffect | src/pages/alert-history/index.jsx:193-201 | an empty query restricts nothing; a non-empty one keeps exactly the alerts whose location, description, id or type contains it, case-insensitively, among those the selects pass |
| AlertHistory.WeekWindow | src/pages/alert-history/index.jsx:222-225 | 'week' keeps exactly the alerts no older than seven days |
| AlertHistory.CustomWindow | src/pages/alert-history/index.jsx:237-239 | 'custom' keeps the alerts within the given bounds, an empty or unparsable bound being no bound |
| AlertHistory.SortedAlerts | src/pages/alert-history/index.jsx:248-264 | the sorted list is a permutation of the filtered list |
| AlertHistory.SortedAlertsOrder | src/pages/alert-history/index.jsx:249-262 | 'newest' orders by descending time, 'oldest' ascending, 'urgency' critical first, 'distance' nearest first (missing as 0), 'status' alphabetically |
| AlertHistory.SortedAlertsStable | src/pages/alert-history/index.jsx:248-264 | alerts that tie under the chosen key keep their filtered order |
| AlertHistory.UnknownSortKeepsOrder | src/pages/alert-history/index.jsx:262-263 | a sortBy outside the five options leaves the filtered order as it is |
| AlertHistory.TotalPages | src/pages/alert-history/index.jsx:267-268 | the page count is the least number of 10-item pages that holds the list |
| AlertHistory.PageContents | src/pages/alert-history/index.jsx:269-272 | page p holds the items from (p − 1)·10 up to p·10, cut at the end of the list |
| AlertHistory.PagesUpToPrefix | src/pages/alert-history/index.jsx:267-272 | pages 1 to k laid end to end are the first k·10 items |
| AlertHistory.PagesCoverList | src/pages/alert-history/index.jsx:267-272 | all pages laid end to end are exactly the sorted list, so every alert is on exactly one page |
| AlertHistory.AlertHistoryPage.constructor | src/pages/alert-history/index.jsx:13-28 | initial state: role 'victim', empty query, page 1, sort 'newest', cleared filters |
| AlertHistory.AlertHistoryPage.Shown | src/pages/alert-history/index.jsx:269-272 | the current page shows at most 10 alerts, all taken from the stored alerts |
| AlertHistory.AlertHistoryPage.HandleSearch | src/pages/alert-history/index.jsx:274-277 | sets the query and returns to page 1, nothing else changes |
| AlertHistory.AlertHistoryPage.HandleFiltersChange | src/pages/alert-history/index.jsx:279-282 | sets the filters and returns to page 1, nothing else changes |
| AlertHistory.AlertHistoryPage.HandleClearFilters | src/pages/alert-history/index.jsx:284-295 | clears the filters and the query and returns to page 1 |
| AlertHistory.AlertHistoryPage.HandleRoleSwitch | src/pages/alert-history/index.jsx:341-343 | swaps victim and volunteer (any other role becomes victim), nothing else changes |
| AlertHistory.AlertHistoryPage.SetSortBy | src/pages/alert-history/index.jsx:425-426 | sets the sort option, nothing else changes |
| AlertHistory.AlertHistoryPage.PreviousPage | src/pages/alert-history/index.jsx:491 | the page decreases by one but never below 1 |
| AlertHistory.AlertHistoryPage.NextPage | src/pages/alert-history/index.jsx:486-532 | with more than one page the page increases by one but never past the last page; with one page the control is absent |
| AlertHistory.AlertHistoryPage.GoToPage | src/pages/alert-history/index.jsx:500-521 | a numbered button exists for pages 1 to min(5, total) and for the last page when there are more than five; pressing one goes there |
| AlertHistoryCard.TypeIcon | src/pages/alert-history/components/AlertHistoryCard.jsx:8-18 | a type missing from the icon table gets the AlertTriangle icon |
| AlertHistoryCard.StatusColor | src/pages/alert-history/components/AlertHistoryCard.jsx:20-29 | a status missing from the colour table gets the muted colour |
| AlertHistoryCard.UrgencyColor | src/pages/alert-history/components/AlertHistoryCard.jsx:31-39 | an urgency missing from the colour table gets the muted colour |
| AlertHistoryCard.KnownTypeIcons | src/pages/alert-history/components/AlertHistoryCard.jsx:8-18 | each of the six known types gets its own icon |
| AlertHistoryCard.ColorsInRange | src/pages/alert-history/components/AlertHistoryCard.jsx:20-39 | every colour shown is a table entry or the muted fallback |
| AlertHistoryCard.StatusLabel | src/pages/alert-history/components/AlertHistoryCard.jsx:76 | the label has the status's length and equals it when there is no hyphen |
| AlertHistoryCard.StatusLabelFirstHyphen | src/pages/alert-history/components/AlertHistoryCard.jsx:76 | only the first hyphen becomes a space |
| AlertHistoryCard.FormatDistance | src/pages/alert-history/components/AlertHistoryCard.jsx:48-51 | a metre text exists exactly for distances under 1000 m |
| AlertHistoryCard.FormatDistanceClose | src/pages/alert-history/components/AlertHistoryCard.jsx:49 | the metre text is a whole number followed by "m", within half a metre of the distance |
| AlertHistoryCard.View | src/pages/alert-history/components/AlertHistoryCard.jsx:96-220 | distance and response time are shown exactly when truthy, the response time reads back as its minute count, helpers fall back to 0, responders only for a victim with some, victim details only for a volunteer, the rate button only when completed |
| StatisticsPanel.ResponseTimeValue | src/pages/alert-history/components/StatisticsPanel.jsx:29 | a truthy average shows a duration text that reads back as the average; otherwise 'N/A' |
| StatisticsPanel.RatingValue | src/pages/alert-history/components/StatisticsPanel.jsx:62 | a non-zero rating shows as its one-decimal text followed by "/5"; otherwise 'N/A' |
| StatisticsPanel.StatCards | src/pages/alert-history/components/StatisticsPanel.jsx:12-68 | four cards: the victim titles for 'victim' and the volunteer titles for every other role, the third always the response time, the fourth the volunteers helped for a victim and the rating otherwise |
| StatisticsPanel.EmptyStatsFallbacks | src/pages/alert-history/components/StatisticsPanel.jsx:12-68 | an empty statistics record shows zeros and 'N/A', never a missing value |
| StatisticsPanel.CountCardsFallBackToZero | src/pages/alert-history/components/StatisticsPanel.jsx:12-68 | each count card shows its statistic when non-zero and 0 otherwise |
| StatisticsPanel.RatingTextValue | src/pages/alert-history/components/StatisticsPanel.jsx:62 | the rating text reads back as the rating in tenths |
| StatisticsPanel.SuccessRateText | src/pages/alert-history/components/StatisticsPanel.jsx:104 | a truthy rate shows as the nearest whole percentage followed by "%"; otherwise 'N/A' |
| StatisticsPanel.CountTextValue | src/pages/alert-history/components/StatisticsPanel.jsx:110-116 | a count followed by its suffix reads back as the count |
| StatisticsPanel.ThisMonthText | src/pages/alert-history/components/StatisticsPanel.jsx:110 | the month count (0 when missing or 0) followed by 'alerts' for a victim and 'responses' otherwise |
| StatisticsPanel.StreakText | src/pages/alert-history/components/StatisticsPanel.jsx:116 | the streak (0 when missing or 0) followed by "days active" |
| DurationText.FormatDuration | src/pages/alert-history/components/AlertHistoryCard.jsx:41-46 | under 60 the text is the count and "m"; otherwise hours ≥ 1 and minutes < 60 with hours·60 + minutes equal to the input |
| DurationText.ParseShort | src/pages/alert-history/components/AlertHistoryCard.jsx:42 | the short form reads back as its count |
| DurationText.LongShape | src/pages/alert-history/components/AlertHistoryCard.jsx:45 | locates the hours, the 'h', the blank and the minutes in the long form |
| DurationText.ParseLong | src/pages/alert-history/components/AlertHistoryCard.jsx:43-45 | the long form reads back as hours·60 + minutes |
| DurationText.FormatDurationRoundTrip | src/pages/alert-history/components/AlertHistoryCard.jsx:41-46 | every duration's text reads back as that duration |
| DurationText.FormatDurationInjective | src/pages/volunteer-dashboard/components/ResponseStats.jsx:12-19 | two durations that print alike are equal |
| Patterns.PhoneValid | src/pages/user-profile/components/PersonalInfoForm.jsx:49 | the check decides `^\+?[\d\s\-\(\)]{10,}$` exactly |
| Patterns.PhoneValidLength | src/pages/user-profile/components/EmergencyContactsSection.jsx:84 | an accepted phone number has at least ten characters and only digits, blanks, dashes or parentheses after its first |
| Patterns.EmailValidShape | src/pages/login-register/components/LoginForm.jsx:38 | an accepted address has an '@', a later '.', and at least five characters |
| Patterns.EmailUnanchored | src/pages/user-profile/components/PersonalInfoForm.jsx:43 | the e-mail pattern is unanchored: text around an accepted address is accepted too |
| Patterns.EmailValidNotBlank | src/pages/login-register/components/RegisterForm.jsx:50-53 | an accepted address is never blank, so the required check only chooses the message |
| Patterns.EmailNeedsAt | src/pages/login-register/components/LoginForm.jsx:38 | a text without '@' is never accepted |
| Patterns.StrongPasswordSingleLine | src/pages/user-profile/components/AccountSecurity.jsx:73 | on one line the look-aheads ask exactly for a lower-case letter, an upper-case letter and a digit somewhere |
| Patterns.StrongPasswordNeedsClasses | src/pages/user-profile/components/AccountSecurity.jsx:73 | on any input an accepted password has all three classes |
| Patterns.StrongPasswordLineBreak | src/pages/user-profile/components/AccountSecurity.jsx:73 | a line break between the letters and the digit defeats the look-aheads ("aB\n1" is refused) |
| CredentialRules.EmailMessage | src/pages/login-register/components/LoginForm.jsx:36-40 | no message exactly for an accepted address, and the required message exactly for a blank one |
| CredentialRules.PasswordMessage | src/pages/login-register/components/LoginForm.jsx:42-46 | no message exactly when the trimmed password is non-empty and the raw one has at least six characters |
| CredentialRules.PaddedPasswordPasses | src/pages/login-register/components/LoginForm.jsx:44 | the length check counts blanks: one letter and five spaces pass |
| CredentialRules.GeneralMessage | src/pages/login-register/components/LoginForm.jsx:68-75 | the connection text for 'Failed to fetch', else the error's own non-empty message, else the form's fallback |
| LoginForm.WithInput | src/pages/login-register/components/LoginForm.jsx:20-26 | an input event overwrites only its own field: text for e-mail and password, the checked state for the remember-me box |
| LoginForm.LoginErrors | src/pages/login-register/components/LoginForm.jsx:33-48 | the errors record has an e-mail entry exactly when the e-mail check fails and a password entry exactly when the password check fails, each holding that check's message, and nothing else |
| LoginForm.LoginValidIff | src/pages/login-register/components/LoginForm.jsx:33-50 | the form passes exactly when the e-mail matches the pattern and the password is non-blank with six characters or more |
| LoginForm.SignInErrors | src/pages/login-register/components/LoginForm.jsx:61-91 | no error after data; otherwise exactly one general message: the credentials text for 'Invalid login credentials', the unexpected text for a thrown call |
| LoginForm.DemoCredentials | src/pages/login-register/components/LoginForm.jsx:105-112 | a demo account exists exactly for 'victim', 'volunteer' and 'admin' |
| LoginForm.DemoCredentialsValid | src/pages/login-register/components/LoginForm.jsx:105-112 | every demo account passes the form's own checks |
| LoginForm.SignInForm.constructor | src/pages/login-register/components/LoginForm.jsx:12-18 | empty fields, remember-me off, no errors, not loading |
| LoginForm.SignInForm.InputChange | src/pages/login-register/components/LoginForm.jsx:20-31 | stores the input and blanks that input's error only if one is shown |
| LoginForm.SignInForm.ValidateForm | src/pages/login-register/components/LoginForm.jsx:33-50 | the errors become `LoginErrors` of the form and the result says whether the form passes |
| LoginForm.SignInForm.Submit | src/pages/login-register/components/LoginForm.jsx:52-94 | signIn is called exactly when the form passes; an invalid form shows its field errors; a returned user, and only that, sends the page to /victim-dashboard; loading ends cleared |
| LoginForm.SignInForm.ForgotPassword | src/pages/login-register/components/LoginForm.jsx:96-103 | with no e-mail typed the errors become the one 'enter your email first' message; otherwise nothing changes |
| LoginForm.SignInForm.FillDemoCredentials | src/pages/login-register/components/LoginForm.jsx:105-120 | a known demo account fills e-mail and password and keeps remember-me; any other name changes nothing |
| RegisterForm.WithInput | src/pages/login-register/components/RegisterForm.jsx:30-36 | an input event overwrites only its own field: text for text inputs, the checked state for the terms box |
| RegisterForm.PhoneMessage | src/pages/login-register/components/RegisterForm.jsx:56-60 | no message exactly when the phone is non-blank and matches the pattern once every blank is removed |
| RegisterForm.SpacesDoNotCount | src/pages/login-register/components/RegisterForm.jsx:56-59 | any ten phone characters with a blank and a non-blank among them match the pattern as typed but are refused as invalid, since fewer than ten remain once blanks are removed |
| RegisterForm.NineDigitsAndABlank | src/pages/login-register/components/RegisterForm.jsx:58 | "12345 6789" is one such text: it matches as typed and is refused |
| RegisterForm.RawPhoneMatches | src/pages/login-register/components/RegisterForm.jsx:58 | every text of ten or more digits, blanks, dashes and parentheses matches the phone pattern |
| RegisterForm.BlanksRemoved | src/pages/login-register/components/RegisterForm.jsx:58 | a text of at most ten characters containing a blank has fewer than ten once its blanks are removed |
| JsText.RemoveSpacesShorter | src/pages/login-register/components/RegisterForm.jsx:58 | `replace(/\s/g, '')` on a text holding a blank gives a shorter text |
| RegisterForm.FieldMessage | src/pages/login-register/components/RegisterForm.jsx:46-74 | the role input never has a message |
| RegisterForm.RegisterErrorsMeaning | src/pages/login-register/components/RegisterForm.jsx:43-76 | an input has an entry exactly when it fails, holding its first failed check's message; general is never set |
| RegisterForm.RegisterValidIff | src/pages/login-register/components/RegisterForm.jsx:43-78 | the form passes exactly when the name is not blank, the e-mail matches, the blank-free phone matches, the password is non-blank with six characters, the confirmation is equal and the terms are accepted |
| RegisterForm.MismatchIndependent | src/pages/login-register/components/RegisterForm.jsx:68-70 | a different confirmation is reported whatever the password check says |
| RegisterForm.SignUpErrors | src/pages/login-register/components/RegisterForm.jsx:99-134 | no error exactly after data; an e-mail error exactly for 'User already registered'; otherwise one general message |
| RegisterForm.CollectErrors | src/pages/login-register/components/RegisterForm.jsx:43-76 | the six checks applied in order build exactly `RegisterErrors` |
| RegisterForm.SignUpForm.constructor | src/pages/login-register/components/RegisterForm.jsx:13-23 | an empty form, no errors, not loading |
| RegisterForm.SignUpForm.InputChange | src/pages/login-register/components/RegisterForm.jsx:30-41 | stores the input and blanks that input's error only if one is shown |
| RegisterForm.SignUpForm.ValidateForm | src/pages/login-register/components/RegisterForm.jsx:43-78 | the errors become `RegisterErrors` of the form and the result says whether it passes |
| RegisterForm.SignUpForm.Submit | src/pages/login-register/components/RegisterForm.jsx:80-137 | signUp is called exactly when the form passes; a returned user, and only that, sends the page to the role's dashboard; loading ends cleared |
| EmergencyContactsSection.Contact.constructor | src/pages/user-profile/components/EmergencyContactsSection.jsx:25-31 | a contact object holding the given fields |
| EmergencyContactsSection.Snapshot | src/pages/user-profile/components/EmergencyContactsSection.jsx:8 | the field values of a contact list, position by position |
| EmergencyContactsSection.PrimaryCount | src/pages/user-profile/components/EmergencyContactsSection.jsx:39 | the number of primary contacts never exceeds the list length |
| EmergencyContactsSection.PrimaryCountPositive | src/pages/user-profile/components/EmergencyContactsSection.jsx:39 | a list with a primary contact has a positive primary count |
| EmergencyContactsSection.PrimaryCountZero | src/pages/user-profile/components/EmergencyContactsSection.jsx:39 | a list with no primary contact has primary count 0 |
| EmergencyContactsSection.PrimaryCountOne | src/pages/user-profile/components/EmergencyContactsSection.jsx:63-68 | with distinct ids, after setPrimaryContact for an existing id exactly one contact is primary |
| EmergencyContactsSection.WithField | src/pages/user-profile/components/EmergencyContactsSection.jsx:47-52 | the edited copy changes only the named field and keeps id and primary flag |
| EmergencyContactsSection.ContactErrorsKeys | src/pages/user-profile/components/EmergencyContactsSection.jsx:73-88 | one contact keeps the earlier entries, adds none when valid, and adds `${id}_name`, `${id}_relationship`, `${id}_phone` for each failed check; every key it adds is its own id with a field that failed |
| EmergencyContactsSection.ValidationErrorsEmpty | src/pages/user-profile/components/EmergencyContactsSection.jsx:70-91 | the contacts pass exactly when no error is recorded |
| EmergencyContactsSection.ContactErrorsEmpty | src/pages/user-profile/components/EmergencyContactsSection.jsx:73-88 | a contact adds nothing to an empty record exactly when it is valid |
| EmergencyContactsSection.ErrorsNeverShrink | src/pages/user-profile/components/EmergencyContactsSection.jsx:73 | a later contact never removes an earlier contact's error keys |
| EmergencyContactsSection.InvalidContactReported | src/pages/user-profile/components/EmergencyContactsSection.jsx:73-88 | every invalid contact has an error under its own key for each failed field |
| EmergencyContactsSection.ContactsEditor.constructor | src/pages/user-profile/components/EmergencyContactsSection.jsx:7-11 | the list is the prop, not editing, not saving, no errors |
| EmergencyContactsSection.ContactsEditor.AddContact | src/pages/user-profile/components/EmergencyContactsSection.jsx:24-33 | appends one blank contact with a fresh id, primary exactly when the list was empty; the prop's contacts keep what they held (`Valid`) |
| EmergencyContactsSection.EditedCopies | src/pages/user-profile/components/EmergencyContactsSection.jsx:47-51 | the list has the same length; each contact with that id is replaced by a copy holding the edited field, and every other position holds the very same object |
| EmergencyContactsSection.ContactsEditor.UpdateContact | src/pages/user-profile/components/EmergencyContactsSection.jsx:46-61 | the contacts with that id become edited copies, the others stay the same objects; the field's error is blanked only if present; the prop's contacts keep what they held |
| EmergencyContactsSection.ContactsEditor.SetPrimaryContact | src/pages/user-profile/components/EmergencyContactsSection.jsx:63-68 | every contact is copied, primary exactly when its id matches; the prop's contacts keep what they held |
| EmergencyContactsSection.ContactsEditor.RemoveContactInPlace | src/pages/user-profile/components/EmergencyContactsSection.jsx:35-44 | as written: the survivors are the same objects, and when none is primary the first one's flag is set on the shared object |
| EmergencyContactsSection.ContactsEditor.RemoveContact | src/pages/user-profile/components/EmergencyContactsSection.jsx:35-44 | corrected: the survivors in order, the first replaced by a primary copy when none is primary, so a non-empty list keeps a primary and the prop's objects are untouched |
| EmergencyContactsSection.ContactsEditor.ValidateContacts | src/pages/user-profile/components/EmergencyContactsSection.jsx:70-91 | the errors become those of every contact in list order, and the result is true exactly when all are valid; the list and the prop's contacts are unchanged |
| EmergencyContactsSection.ContactsEditor.HandleSave | src/pages/user-profile/components/EmergencyContactsSection.jsx:93-105 | nothing is saved unless the contacts validate; editing ends only when the save succeeds; saving ends either way |
| EmergencyContactsSection.ContactsEditor.HandleCancel | src/pages/user-profile/components/EmergencyContactsSection.jsx:107-111 | back to the prop's list, no errors, not editing |
| EmergencyContactsSection.ContactsEditor.StartEditing | src/pages/user-profile/components/EmergencyContactsSection.jsx:126 | starts editing and changes nothing else; the prop's contacts keep what they held |
| EmergencyContactsSection.ContactsEditor.CanAdd | src/pages/user-profile/components/EmergencyContactsSection.jsx:136-240 | adding is offered exactly while editing a list of fewer than five, the empty list included ("Add First Contact", EmergencyContactsSection.jsx:140-144) |
| EmergencyContactsSection.ContactsEditor.CanRemove | src/pages/user-profile/components/EmergencyContactsSection.jsx:168 | removing is offered exactly while editing a list of at least two |
| EmergencyContactsSection.FilterOutAbsent | src/pages/user-profile/components/EmergencyContactsSection.jsx:37 | removing an id no contact carries leaves the list unchanged |
| EmergencyContactsSection.RemovalLeavesAContact | src/pages/user-profile/components/EmergencyContactsSection.jsx:35-44 | with distinct ids a removal drops at most one contact, so a removal offered on two or more contacts leaves a contact to make primary |
| EmergencyContactsSection.FilterOut | src/pages/user-profile/components/EmergencyContactsSection.jsx:37 | exactly the contacts whose id differs survive |
| EmergencyContactsSection.CollectErrors | src/pages/user-profile/components/EmergencyContactsSection.jsx:71-88 | the forEach loop builds exactly `ValidationErrors` of the list |
| EmergencyContactsSection.RemoveThenCancelInPlace | src/pages/user-profile/components/EmergencyContactsSection.jsx:35-44 | with the in-place write, removing the second of two non-primary contacts and cancelling shows a list with one primary |
| EmergencyContactsSection.RemoveThenCancel | src/pages/user-profile/components/EmergencyContactsSection.jsx:107-111 | with the copying removal the same steps restore a list with no primary |
| EmergencyContactsSection.CancelRestoresInitial | src/pages/user-profile/components/EmergencyContactsSection.jsx:24-111 | with the copying removal, after editing, adding, updating, making primary, removing and validating, cancel restores exactly the contacts the editor was given |
| SafetySettings.Initial | src/pages/user-profile/components/SafetySettings.jsx:8-16 | every key is the prop's value when one is passed and the component's default otherwise |
| SafetySettings.EmptyPropDefaults | src/pages/user-profile/components/SafetySettings.jsx:8-16 | an empty prop yields every default |
| SafetySettings.WithSetting | src/pages/user-profile/components/SafetySettings.jsx:51-56 | only the named setting changes |
| SafetySettings.WithTime | src/pages/user-profile/components/SafetySettings.jsx:58-66 | only the named start or end (or the silent-hours switch) of the named window changes; every other key is kept |
| SafetySettings.ToggleMembership | src/pages/user-profile/components/SafetySettings.jsx:68-75 | a toggle flips the membership of its item and of no other |
| SafetySettings.ToggleMembershipAll | src/pages/user-profile/components/SafetySettings.jsx:68-84 | for every value, membership after a toggle is flipped for the item and unchanged otherwise |
| SafetySettings.ToggleOffKeepsOrder | src/pages/user-profile/components/SafetySettings.jsx:72 | unticking removes every copy of the item and keeps the order of the rest |
| SafetySettings.FilterShorter | src/pages/user-profile/components/SafetySettings.jsx:72 | filtering out a present item shortens the list |
| SafetySettings.ToggleTwiceRestores | src/pages/user-profile/components/SafetySettings.jsx:71-73 | ticking an absent item appends it, and unticking it gives the list back |
| SafetySettings.ToggleDay | src/pages/user-profile/components/SafetySettings.jsx:68-75 | only the available days change, and exactly that day's membership flips |
| SafetySettings.ToggleType | src/pages/user-profile/components/SafetySettings.jsx:77-84 | only the emergency types change, and exactly that type's membership flips |
| SafetySettings.SafetyEditor.constructor | src/pages/user-profile/components/SafetySettings.jsx:7-18 | the record is `Initial` of the prop, not editing, not saving |
| SafetySettings.SafetyEditor.StartEditing | src/pages/user-profile/components/SafetySettings.jsx:124 | starts editing and changes nothing else |
| SafetySettings.SafetyEditor.ChangeSetting | src/pages/user-profile/components/SafetySettings.jsx:51-56 | the record becomes `WithSetting` of the change |
| SafetySettings.SafetyEditor.ChangeTime | src/pages/user-profile/components/SafetySettings.jsx:58-66 | the record becomes `WithTime` of the change |
| SafetySettings.SafetyEditor.DayToggle | src/pages/user-profile/components/SafetySettings.jsx:68-75 | the record becomes `ToggleDay` of the day |
| SafetySettings.SafetyEditor.EmergencyTypeToggle | src/pages/user-profile/components/SafetySettings.jsx:77-84 | the record becomes `ToggleType` of the type |
| SafetySettings.SafetyEditor.HandleSave | src/pages/user-profile/components/SafetySettings.jsx:86-96 | the save receives the current record; editing ends only when it resolves; saving is cleared either way |
| SafetySettings.SafetyEditor.HandleCancel | src/pages/user-profile/components/SafetySettings.jsx:98-109 | the record is rebuilt from the prop and editing ends |
| NotificationPreferences.Initial | src/pages/user-profile/components/NotificationPreferences.jsx:8-21 | each flag is the prop's when given and its default otherwise; the sound defaults to 'emergency' and quiet hours to off |
| NotificationPreferences.EmptyPropDefaults | src/pages/user-profile/components/NotificationPreferences.jsx:8-21 | with nothing passed in, only community news and SMS are off, the emergency sound is chosen and quiet hours are off |
| NotificationPreferences.WithSetting | src/pages/user-profile/components/NotificationPreferences.jsx:38-43 | only the named flag or the sound changes; quiet hours are kept |
| NotificationPreferences.WithQuietHours | src/pages/user-profile/components/NotificationPreferences.jsx:45-53 | only the named field of quiet hours changes |
| NotificationPreferences.SetFlagSame | src/pages/user-profile/components/NotificationPreferences.jsx:38-43 | setting a flag to its current value changes no flag |
| NotificationPreferences.PreferencesEditor.constructor | src/pages/user-profile/components/NotificationPreferences.jsx:7-23 | the record is `Initial` of the prop, not editing, not saving |
| NotificationPreferences.PreferencesEditor.StartEditing | src/pages/user-profile/components/NotificationPreferences.jsx:107 | starts editing and changes nothing else |
| NotificationPreferences.PreferencesEditor.ChangeSetting | src/pages/user-profile/components/NotificationPreferences.jsx:38-43 | the record becomes `WithSetting` of the change |
| NotificationPreferences.PreferencesEditor.ChangeQuietHours | src/pages/user-profile/components/NotificationPreferences.jsx:45-53 | the record becomes `WithQuietHours` of the change |
| NotificationPreferences.PreferencesEditor.HandleSave | src/pages/user-profile/components/NotificationPreferences.jsx:55-65 | the save receives the record; editing ends only when it resolves; saving is cleared either way |
| NotificationPreferences.PreferencesEditor.HandleCancel | src/pages/user-profile/components/NotificationPreferences.jsx:67-83 | the record is rebuilt from the prop and editing ends |
| LocationPreferences.Initial | src/pages/user-profile/components/LocationPreferences.jsx:9-17 | each key is the prop's when given, else radius 2 km, sharing and precise location on, history off, frequency 'realtime' |
| LocationPreferences.ZeroRadiusKept | src/pages/user-profile/components/LocationPreferences.jsx:9-17 | a radius of 0 passed in is kept, since the spread overrides the `\|\| 2` fallback |
| LocationPreferences.WithSetting | src/pages/user-profile/components/LocationPreferences.jsx:36-41 | only the named setting changes |
| LocationPreferences.PreferencesEditor.constructor | src/pages/user-profile/components/LocationPreferences.jsx:8-19 | the record is `Initial` of the prop, not editing, not saving |
| LocationPreferences.PreferencesEditor.StartEditing | src/pages/user-profile/components/LocationPreferences.jsx:81 | starts editing and changes nothing else |
| LocationPreferences.PreferencesEditor.ChangeSetting | src/pages/user-profile/components/LocationPreferences.jsx:36-41 | the record becomes `WithSetting` of the change |
| LocationPreferences.PreferencesEditor.HandleSave | src/pages/user-profile/components/LocationPreferences.jsx:43-53 | the save receives the record; editing ends only when it resolves; saving is cleared either way |
| LocationPreferences.PreferencesEditor.HandleCancel | src/pages/user-profile/components/LocationPreferences.jsx:55-66 | the record is rebuilt from the prop and editing ends |
| AccountSecurity.With | src/pages/user-profile/components/AccountSecurity.jsx:47-51 | the typed field takes the value and the other two inputs are kept |
| AccountSecurity.NewPasswordError | src/pages/user-profile/components/AccountSecurity.jsx:69-75 | no message exactly when the new password is acceptable; 'too short' exactly for 1 to 7 characters; 'too weak' exactly for 8 or more without a lower-case letter, an upper-case letter and a digit |
| AccountSecurity.PasswordAcceptedIff | src/pages/user-profile/components/AccountSecurity.jsx:62-84 | the form passes exactly when the current password is given, the new one is acceptable and the confirmation equals it |
| AccountSecurity.MismatchReported | src/pages/user-profile/components/AccountSecurity.jsx:77-81 | a non-empty confirmation that differs from the new password is reported as a mismatch and blocks the form |
| AccountSecurity.ToggleVisibility | src/pages/user-profile/components/AccountSecurity.jsx:124-129 | the chosen switch flips and the other two are kept |
| AccountSecurity.ToggleVisibilityTwice | src/pages/user-profile/components/AccountSecurity.jsx:124-129 | toggling the same switch twice restores it |
| AccountSecurity.SecurityForm.constructor | src/pages/user-profile/components/AccountSecurity.jsx:7-21 | two-factor starts as the setting (off when missing); the inputs are empty, every password hidden, no error, not updating |
| AccountSecurity.SecurityForm.StartChangingPassword | src/pages/user-profile/components/AccountSecurity.jsx:153 | opens the form and changes nothing else |
| AccountSecurity.SecurityForm.CancelPasswordChange | src/pages/user-profile/components/AccountSecurity.jsx:230-234 | closes the form, empties the inputs and drops every error |
| AccountSecurity.SecurityForm.PasswordChange | src/pages/user-profile/components/AccountSecurity.jsx:47-60 | the input takes the value; its error is blanked only when one is shown |
| AccountSecurity.CollectPasswordErrors | src/pages/user-profile/components/AccountSecurity.jsx:63-80 | on a fresh errors object, each input gets a message exactly when one of its checks fails, and the message is the first failed check's; no submit error; the object stays empty exactly when the form passes |
| AccountSecurity.SecurityForm.ValidatePassword | src/pages/user-profile/components/AccountSecurity.jsx:62-84 | the errors hold exactly one message per failing input, that input's first failed check; the result is true exactly when none fails |
| AccountSecurity.SecurityForm.PasswordSubmit | src/pages/user-profile/components/AccountSecurity.jsx:86-101 | data is sent exactly when the form was valid, and it is the inputs; success clears the inputs and closes the form; a failure keeps them and records only the submit error; an invalid form records each field's own message and no submit error |
| AccountSecurity.SecurityForm.TwoFactorToggle | src/pages/user-profile/components/AccountSecurity.jsx:103-114 | the negated flag is sent and adopted only when the save succeeds; updating ends either way |
| AccountSecurity.SecurityForm.TogglePasswordVisibility | src/pages/user-profile/components/AccountSecurity.jsx:124-129 | the switches become `ToggleVisibility` of the field; nothing else changes |
| PersonalInfoForm.With | src/pages/user-profile/components/PersonalInfoForm.jsx:19-23 | the edited field takes the value and the other five are kept |
| PersonalInfoForm.FromUser | src/pages/user-profile/components/PersonalInfoForm.jsx:7-14 | each field is the user's value when present and '' otherwise |
| PersonalInfoForm.FieldMessage | src/pages/user-profile/components/PersonalInfoForm.jsx:34-55 | date of birth and medical information are never checked |
| PersonalInfoForm.FormValidIff | src/pages/user-profile/components/PersonalInfoForm.jsx:34-58 | the form passes exactly when name and address are not blank, the email is not blank and matches the address pattern, and the phone is not blank and matches the phone pattern |
| PersonalInfoForm.BlankPhoneMatchesPattern | src/pages/user-profile/components/PersonalInfoForm.jsx:47-51 | ten spaces match the phone pattern, so only the required check rejects them |
| PersonalInfoForm.CollectFormErrors | src/pages/user-profile/components/PersonalInfoForm.jsx:34-58 | the errors object built check by check equals `FormErrors` of the form, and it is empty exactly when no field fails |
| PersonalInfoForm.FormErrorsMeaning | src/pages/user-profile/components/PersonalInfoForm.jsx:34-58 | a field has an entry exactly when it fails, holding its first failed check's message; no entry at all exactly when the form is valid |
| PersonalInfoForm.InfoForm.constructor | src/pages/user-profile/components/PersonalInfoForm.jsx:6-17 | the form is `FromUser` of the prop, not editing, not saving, no error |
| PersonalInfoForm.InfoForm.StartEditing | src/pages/user-profile/components/PersonalInfoForm.jsx:101 | starts editing and changes nothing else |
| PersonalInfoForm.InfoForm.InputChange | src/pages/user-profile/components/PersonalInfoForm.jsx:19-32 | the field takes the value; its error is blanked only when one is shown |
| PersonalInfoForm.InfoForm.ValidateForm | src/pages/user-profile/components/PersonalInfoForm.jsx:34-59 | the errors become `FormErrors` of the form and the result is true exactly when no field fails |
| PersonalInfoForm.InfoForm.Save | src/pages/user-profile/components/PersonalInfoForm.jsx:61-73 | the form is sent exactly when valid; the errors are those of the form either way; editing ends only when the save resolves; saving is cleared either way |
| PersonalInfoForm.InfoForm.Cancel | src/pages/user-profile/components/PersonalInfoForm.jsx:75-86 | the form is rebuilt from the prop, the errors dropped and editing ends |
| UserProfile.TabContent | src/pages/user-profile/index.jsx:218-265 | no card exactly for an id outside the six tabs |
| UserProfile.SwitchedRole | src/pages/user-profile/index.jsx:110 | the new role is 'victim' or 'volunteer' and differs from a role that was one of the two |
| UserProfile.SwitchTwice | src/pages/user-profile/index.jsx:110 | switching twice from one of the two roles returns to it |
| UserProfile.WithForm | src/pages/user-profile/index.jsx:127 | the six personal fields become the form's (read back by the card as the same form); id, role and verification are kept |
| UserProfile.LocationRoundTrip | src/pages/user-profile/index.jsx:52-59 | a stored location record handed back to its card starts the card in exactly that state |
| UserProfile.SafetyRoundTrip | src/pages/user-profile/index.jsx:61-68 | the same for the safety settings |
| UserProfile.NotificationRoundTrip | src/pages/user-profile/index.jsx:75-87 | the same for the notification preferences, flag by flag |
| UserProfile.WithSecurity | src/pages/user-profile/index.jsx:180-201 | a password update sets the last change to 'Just now', a two-factor update sets the flag, a session revoke changes nothing |
| UserProfile.ProfilePage.constructor | src/pages/user-profile/index.jsx:14-89 | the page mounts on the personal tab with the sample profile, the two sample contacts, the starting location, safety, security and notification records, and nothing saving |
| UserProfile.ProfilePage.SelectTab | src/pages/user-profile/index.jsx:290 | the active tab becomes the id; its frame lets nothing else change |
| UserProfile.ProfilePage.RoleSwitch | src/pages/user-profile/index.jsx:107-122 | the role flips, the page heads for the new role's dashboard and saving ends; its frame keeps every other slice and the tab |
| UserProfile.ProfilePage.PersonalInfoSave | src/pages/user-profile/index.jsx:124-136 | the profile takes the form's six fields and saving ends; its frame keeps every other slice and the tab |
| UserProfile.ProfilePage.EmergencyContactsSave | src/pages/user-profile/index.jsx:138-150 | the contacts become the saved list and saving ends; its frame keeps the profile, the tab and the other slices |
| UserProfile.ProfilePage.LocationPreferencesSave | src/pages/user-profile/index.jsx:152-164 | the location slice becomes the saved record and saving ends; nothing else changes |
| UserProfile.ProfilePage.SafetySettingsSave | src/pages/user-profile/index.jsx:166-178 | the safety slice becomes the saved record and saving ends; nothing else changes |
| UserProfile.ProfilePage.SecuritySave | src/pages/user-profile/index.jsx:180-202 | the security slice becomes `WithSecurity` of the update and saving ends; nothing else changes |
| UserProfile.ProfilePage.NotificationPreferencesSave | src/pages/user-profile/index.jsx:204-216 | the notification slice becomes the saved record and saving ends; nothing else changes |
| UserProfile.SavesTouchOnlyTheirSlice | src/pages/user-profile/index.jsx:138-202 | after saving the contacts and then a security update on a fresh page, only those two slices differ from the starting page |
| SosModal.Description | src/pages/home-landing/components/EmergencySOSModal.jsx:81 | the typed information when there is any, otherwise a sentence naming the type |
| SosModal.Payload | src/pages/home-landing/components/EmergencySOSModal.jsx:77-89 | type, urgency and description as chosen, status 'active', the clock reading as timestamp, the given location or the fixed default, and an id 'alert_' followed by the clock reading |
| SosModal.TickStep | src/pages/home-landing/components/EmergencySOSModal.jsx:14-17 | a running countdown with time left loses one second; anything else stays |
| SosModal.StoppedStaysSilent | src/pages/home-landing/components/EmergencySOSModal.jsx:14-21 | a stopped countdown never moves and never sends |
| SosModal.SendsExactlyOnce | src/pages/home-landing/components/EmergencySOSModal.jsx:14-21 | a countdown started at n sends exactly once, on tick n, and is then stopped at zero; before that it shows n - k |
| SosModal.SosDialog.constructor | src/pages/home-landing/components/EmergencySOSModal.jsx:7-12 | no type, urgency 'high', no text, countdown stopped at 5, not sending |
| SosModal.SosDialog.Open | src/pages/home-landing/components/EmergencySOSModal.jsx:23-33 | opening resets every field to its start value |
| SosModal.SosDialog.SelectType | src/pages/home-landing/components/EmergencySOSModal.jsx:180 | only the type changes |
| SosModal.SosDialog.SelectUrgency | src/pages/home-landing/components/EmergencySOSModal.jsx:191 | only the urgency changes |
| SosModal.SosDialog.EditInfo | src/pages/home-landing/components/EmergencySOSModal.jsx:218 | only the additional text changes |
| SosModal.SosDialog.SendAlert | src/pages/home-landing/components/EmergencySOSModal.jsx:73-102 | sends `Payload` of the current choices; the countdown is stopped, sending ends, the choices and the count are kept |
| SosModal.SosDialog.StartCountdown | src/pages/home-landing/components/EmergencySOSModal.jsx:59-71 | without a type nothing changes; with one the countdown runs, and at zero the effect sends straight away |
| SosModal.SosDialog.Tick | src/pages/home-landing/components/EmergencySOSModal.jsx:14-21 | the countdown takes one step and the alert goes out exactly when the step reaches zero |
| SosModal.SosDialog.Cancel | src/pages/home-landing/components/EmergencySOSModal.jsx:104-107 | the countdown stops and is back at five seconds; choices are kept |
| SosModal.FiveTicksSendOnce | src/pages/home-landing/components/EmergencySOSModal.jsx:14-21 | after choosing a type and starting, the five ticks send on the fifth only |
| HomeLanding.RoleRoute | src/pages/home-landing/index.jsx:73-96 | login and register go to the sign-in page; victim and volunteer go to their dashboards only with a location; any other role goes nowhere |
| HomeLanding.RoleButtonOutcomes | src/pages/home-landing/index.jsx:73-96 | a role button either navigates or asks for location, and never both, except for an unknown role which does neither |
| HomeLanding.LandingPage.constructor | src/pages/home-landing/index.jsx:14-29 | no dialog, no prompt, no location; the role is the saved one when non-empty |
| HomeLanding.LandingPage.PositionFound | src/pages/home-landing/index.jsx:44-53 | the location is set and nothing else changes |
| HomeLanding.LandingPage.SosClick | src/pages/home-landing/index.jsx:65-71 | with a location the SOS dialog opens, without one the location prompt opens |
| HomeLanding.LandingPage.RoleSelect | src/pages/home-landing/index.jsx:73-96 | the route is `RoleRoute`; the prompt opens exactly when a location is needed |
| HomeLanding.LandingPage.LocationGrantedAsWritten | src/pages/home-landing/index.jsx:98-106 | the location is set and the prompt closes, but a pending SOS does not open the dialog |
| HomeLanding.LandingPage.LocationGranted | src/pages/home-landing/index.jsx:98-106 | the location is set, the prompt closes and a pending SOS opens the dialog |
| HomeLanding.LandingPage.LocationDenied | src/pages/home-landing/index.jsx:108-114 | the prompt closes and no SOS is pending; nothing else changes |
| HomeLanding.LandingPage.CloseSosModal | src/pages/home-landing/index.jsx:178 | the SOS dialog closes and nothing else changes |
| HomeLanding.LandingPage.SendAlert | src/pages/home-landing/index.jsx:116-133 | a visitor without a role becomes a victim and is sent to the victim dashboard; a visitor with a role stays |
| HomeLanding.SosThenGrantAsWritten | src/pages/home-landing/index.jsx:65-106 | SOS without a location, then granting it, leaves neither dialog nor prompt open |
| HomeLanding.SosThenGrant | src/pages/home-landing/index.jsx:65-106 | the same steps with the intended handler leave the SOS dialog open |
| HomeLanding.AnonymousSosFlow | src/pages/home-landing/index.jsx:65-133 | a visitor without a role who grants location and sends an SOS ends up a victim on the victim dashboard, having sent the alert with that location and type |
| RoleStatus.WithDefaults | src/components/ui/RoleStatusIndicator.jsx:4-11 | an undefined prop takes its default: role 'volunteer', available, no emergency, toggle shown |
| RoleStatus.DefaultBadge | src/components/ui/RoleStatusIndicator.jsx:4-60 | with no props the badge is a green, available 'Volunteer' whose toggle would report false |
| RoleStatus.RoleConfigFor | src/components/ui/RoleStatusIndicator.jsx:14-38 | the victim is a 'Help Seeker' highlighted only in an emergency, the volunteer is highlighted only when available, any other role gets the muted 'User' config |
| RoleStatus.StatusText | src/components/ui/RoleStatusIndicator.jsx:40-45 | a victim reads 'Emergency Active' or 'Safe', everyone else 'Available' or 'Unavailable' |
| RoleStatus.StatusDot | src/components/ui/RoleStatusIndicator.jsx:47-52 | the dot colour follows the same two conditions |
| RoleStatus.TextAndDotAgree | src/components/ui/RoleStatusIndicator.jsx:40-52 | the green dot goes exactly with 'Safe' or 'Available', the pulsing one with 'Emergency Active', the muted one with 'Unavailable' |
| RoleStatus.Toggle | src/components/ui/RoleStatusIndicator.jsx:56-60 | the toggle reports only for a volunteer with the toggle shown, and it reports the negated availability |
| RoleStatus.ToggleFlipsStatus | src/components/ui/RoleStatusIndicator.jsx:56-60 | adopting the reported value flips the status text, and the next toggle reports the old value |
| AlertOverlay.TickStep | src/components/ui/AlertNotificationOverlay.jsx:26-32 | the overlay closes and shows 0 exactly when one second or less is left; otherwise one second less, still above zero |
| AlertOverlay.TicksToClose | src/components/ui/AlertNotificationOverlay.jsx:25-33 | at least one tick is needed to close |
| AlertOverlay.TicksToCloseIsCeiling | src/components/ui/AlertNotificationOverlay.jsx:25-33 | a positive delay closes after its length rounded up to whole seconds |
| AlertOverlay.CloseSchedule | src/components/ui/AlertNotificationOverlay.jsx:25-33 | no close before that tick, one close on it and on every tick after; the time left falls by one second per tick until it is 0 |
| AlertOverlay.ZeroKeepsClosing | src/components/ui/AlertNotificationOverlay.jsx:25-33 | a zero delay calls `onClose` on every tick |
| AlertOverlay.DistanceText | src/components/ui/AlertNotificationOverlay.jsx:69-74 | the metre text exists exactly for distances under 1000 m |
| AlertOverlay.DistanceTextClose | src/components/ui/AlertNotificationOverlay.jsx:70-72 | the metre text reads back as a whole number within half a metre of the distance, followed by 'm away' |
| AlertOverlay.UrgencyColor | src/components/ui/AlertNotificationOverlay.jsx:76-85 | critical and high have their own colours; anything else, a missing urgency included, is muted |
| AlertOverlay.UrgencyBackground | src/components/ui/AlertNotificationOverlay.jsx:87-96 | the same split for the background |
| AlertOverlay.UrgencyStylesAgree | src/components/ui/AlertNotificationOverlay.jsx:76-96 | the text is muted exactly when the background is |
| AlertOverlay.View | src/components/ui/AlertNotificationOverlay.jsx:130-178 | the location or 'Location unavailable'; a distance text exactly for a non-zero distance; the urgency or a non-empty fallback; the type and description exactly when non-empty; the clock exactly for a non-zero timestamp; a bare "0" exactly for a distance of 0 |
| AlertOverlay.Overlay.constructor | src/components/ui/AlertNotificationOverlay.jsx:5-14 | the full delay is left and nothing is processing |
| AlertOverlay.Overlay.Show | src/components/ui/AlertNotificationOverlay.jsx:38-42 | becoming visible, or a new delay while visible, restarts the countdown at the full delay; a new alert on an overlay that stays visible with the same delay, or hiding it, keeps the time left |
| AlertOverlay.Overlay.Tick | src/components/ui/AlertNotificationOverlay.jsx:16-36 | while visible with an alert, the time left takes `TickStep`; otherwise nothing changes and nothing closes |
| AlertOverlay.Overlay.BeginAccept | src/components/ui/AlertNotificationOverlay.jsx:44-53 | processing starts and the shown alert is handed to the accept callback |
| AlertOverlay.Overlay.BeginReject | src/components/ui/AlertNotificationOverlay.jsx:59-63 | processing starts and the shown alert is handed to the reject callback |
| AlertOverlay.Overlay.CallbackSettled | src/components/ui/AlertNotificationOverlay.jsx:52-56 | processing ends whether the callback resolved or failed, and a failure is passed on |
| AlertOverlay.Overlay.CloseClick | src/components/ui/AlertNotificationOverlay.jsx:116-122 | a click closes exactly when nothing is processing |
| AlertOverlay.DefaultDelayClosesOnThirtiethTick | src/components/ui/AlertNotificationOverlay.jsx:11-36 | with the 30-second default, the first close comes on the thirtieth tick |
| AlertStatusPanel.FormatElapsed | src/pages/victim-dashboard/components/AlertStatusPanel.jsx:25-29 | for a non-negative count, the clock text reads back as that count of seconds |
| AlertStatusPanel.PaddedValue | src/pages/victim-dashboard/components/AlertStatusPanel.jsx:28 | a seconds value under 60 pads to two digits that read back as the value |
| AlertStatusPanel.ParseElapsedParts | src/pages/victim-dashboard/components/AlertStatusPanel.jsx:25-29 | a minute count, a colon and two digits read back as sixty times the minutes plus the digits' value |
| AlertStatusPanel.ElapsedTextRoundTrip | src/pages/victim-dashboard/components/AlertStatusPanel.jsx:25-29 | floored minutes, a colon and the padded remainder read back as the seconds |
| AlertStatusPanel.NegativeElapsed | src/pages/victim-dashboard/components/AlertStatusPanel.jsx:25-29 | a negative count (a timestamp in the future) shows '-1:-5' for -5 s, because floor and remainder differ in sign |
| AlertStatusPanel.ElapsedSeconds | src/pages/victim-dashboard/components/AlertStatusPanel.jsx:15-19 | whole seconds since the alert's timestamp, floored; none when the timestamp is missing |
| AlertStatusPanel.ClockText | src/pages/victim-dashboard/components/AlertStatusPanel.jsx:25-29 | a missing timestamp shows 'NaN:NaN'; a non-negative count reads back as itself |
| AlertStatusPanel.StatusColor | src/pages/victim-dashboard/components/AlertStatusPanel.jsx:31-44 | any status outside the four known ones is muted |
| AlertStatusPanel.StatusBackground | src/pages/victim-dashboard/components/AlertStatusPanel.jsx:46-59 | the same for the background |
| AlertStatusPanel.StatusStylesDistinct | src/pages/victim-dashboard/components/AlertStatusPanel.jsx:31-59 | each known status has its own colour and background, distinct from the muted ones and from each other |
| AlertStatusPanel.StatusLabel | src/pages/victim-dashboard/components/AlertStatusPanel.jsx:108 | 'en_route' reads 'En Route', any other status is shown as is |
| AlertStatusPanel.UpperChar | src/pages/victim-dashboard/components/AlertStatusPanel.jsx:87 | a lower-case ASCII letter becomes its capital; anything else is kept |
| AlertStatusPanel.TypeHeading | src/pages/victim-dashboard/components/AlertStatusPanel.jsx:87 | a heading exactly for a non-empty type: its first letter capitalised, the rest kept, then ' Emergency' |
| AlertStatusPanel.View | src/pages/victim-dashboard/components/AlertStatusPanel.jsx:87-133 | the heading, the clock and the status label as above; the location or 'Current location'; the notified count or 0; a response count exactly when there are responses |
| AlertStatusPanel.Panel.constructor | src/pages/victim-dashboard/components/AlertStatusPanel.jsx:10 | the alert as given and the clock at 0 |
| AlertStatusPanel.Panel.SetAlert | src/pages/victim-dashboard/components/AlertStatusPanel.jsx:12-23 | a new alert is kept and the clock left as it was |
| AlertStatusPanel.Panel.Tick | src/pages/victim-dashboard/components/AlertStatusPanel.jsx:16-20 | with an alert, the clock becomes `ElapsedSeconds` at the current time; without one nothing changes |
| AlertStatusPanel.Panel.CancelClick | src/pages/victim-dashboard/components/AlertStatusPanel.jsx:167 | the cancel button forwards the alert's id, and forwards something exactly when there is an alert |
| VictimDashboard.NewAlert | src/pages/victim-dashboard/index.jsx:81-88 | a pending alert of the chosen type at 'Current location', stamped with the clock, naming the nearby count, with id 'alert_' followed by the clock reading |
| VictimDashboard.WithStatus | src/pages/victim-dashboard/index.jsx:114 | `{ ...prev, status }`: the previous alert with only the status changed, or a status-only record when there was none |
| VictimDashboard.Dashboard.constructor | src/pages/victim-dashboard/index.jsx:14-28 | no type, no alert, not active, no responses, the five mock volunteers after the mount effect, nothing scheduled |
| VictimDashboard.Dashboard.SelectType | src/pages/victim-dashboard/index.jsx:202 | only the chosen type changes |
| VictimDashboard.Dashboard.EmergencyAction | src/pages/victim-dashboard/index.jsx:75-116 | without a type nothing happens; with one, `NewAlert` becomes the active alert and one response step is scheduled; it also runs from the state a cancel leaves with a step still scheduled, and keeps the dashboard invariant when it held before |
| VictimDashboard.Dashboard.ResponseStepAsWritten | src/pages/victim-dashboard/index.jsx:94-115 | a scheduled step, run once per send, brings the mock responses and sets the status of whatever alert is held (or of an empty record) to 'accepted', whether or not the alert was cancelled |
| VictimDashboard.Dashboard.CancelAlertAsWritten | src/pages/victim-dashboard/index.jsx:118-125 | a confirmed cancel clears the alert, the responses and the type, but leaves the scheduled step in place |
| VictimDashboard.Dashboard.ResponseStep | src/pages/victim-dashboard/index.jsx:94-115 | a scheduled step delivers the mock responses and sets the alert to 'accepted'; with nothing scheduled nothing changes |
| VictimDashboard.Dashboard.CancelAlert | src/pages/victim-dashboard/index.jsx:118-125 | a confirmed cancel clears the alert, the responses, the type and the scheduled step; a declined one changes nothing |
| VictimDashboard.CancelThenStepAsWritten | src/pages/victim-dashboard/index.jsx:75-125 | sending, cancelling and letting the delay pass leaves a status-only 'accepted' alert with two responses |
| VictimDashboard.StatusOnlyAlertPanel | src/pages/victim-dashboard/index.jsx:114 | the status panel then shows no heading, a 'NaN:NaN' clock, the fallback place, a count of 0 and two responses |
| VictimDashboard.CancelThenStep | src/pages/victim-dashboard/index.jsx:75-125 | with the intended cancel the dashboard stays empty after the delay |
| VictimDashboard.SendThenStep | src/pages/victim-dashboard/index.jsx:75-116 | without a cancel, the alert is `NewAlert` accepted after the delay, with the two mock responses |
| VictimDashboard.SendCancelSendAsWritten | src/pages/victim-dashboard/index.jsx:75-125 | as written, after send, cancel and a second send, the first send's step accepts the second alert while that alert's own step is still queued |
| VictimDashboard.SendCancelSend | src/pages/victim-dashboard/index.jsx:75-125 | with the intended cancel, the second alert stays pending until its own step, which accepts it and leaves nothing queued |
| RecentAlertsHistory.SampleAlerts | src/pages/victim-dashboard/components/RecentAlertsHistory.jsx:11-42 | the three sample alerts |
| RecentAlertsHistory.AlertsToShow | src/pages/victim-dashboard/components/RecentAlertsHistory.jsx:44 | the given alerts when there are any, the sample list otherwise, so the list is never empty |
| RecentAlertsHistory.AgeOf | src/pages/victim-dashboard/components/RecentAlertsHistory.jsx:89-102 | whole days (at least one) when a day or more has passed, otherwise whole hours from 1 to 23, otherwise under an hour; each bracketed by the elapsed milliseconds |
| RecentAlertsHistory.FormatTimeAgoIsAge | src/pages/victim-dashboard/components/RecentAlertsHistory.jsx:89-102 | the time-ago text is the text of that age, with 's' only for more than one |
| RecentAlertsHistory.SampleAges | src/pages/victim-dashboard/components/RecentAlertsHistory.jsx:11-42 | the sample list reads '1 hour ago', '2 days ago' and '5 days ago' |
| RecentAlertsHistory.Listed | src/pages/victim-dashboard/components/RecentAlertsHistory.jsx:147 | the first three alerts, in order, or all of them when there are fewer |
| RecentAlertsHistory.MoreCount | src/pages/victim-dashboard/components/RecentAlertsHistory.jsx:222-228 | the 'more' link exactly when expanded with over three alerts, and its count plus the listed ones is the total |
| RecentAlertsHistory.TypeIcon | src/pages/victim-dashboard/components/RecentAlertsHistory.jsx:46-59 | any type outside the four known ones gets the warning icon |
| RecentAlertsHistory.TypeColor | src/pages/victim-dashboard/components/RecentAlertsHistory.jsx:61-74 | any type outside the four known ones is muted |
| RecentAlertsHistory.StatusColor | src/pages/victim-dashboard/components/RecentAlertsHistory.jsx:76-87 | any status outside the three known ones gets the muted style |
| RecentAlertsHistory.TypeFallbacksAgree | src/pages/victim-dashboard/components/RecentAlertsHistory.jsx:46-74 | the fallback icon goes exactly with the muted colour |
| RecentAlertsHistory.Item | src/pages/victim-dashboard/components/RecentAlertsHistory.jsx:147-212 | the heading is the type and ' Emergency'; the age text as above; a response line exactly unless the time is 'N/A'; a volunteers line exactly for a positive count, plural above one; an outcome line exactly when non-empty |
| RecentAlertsHistory.Items | src/pages/victim-dashboard/components/RecentAlertsHistory.jsx:137-147 | collapsed, nothing; expanded, one item per listed alert, in order |
| EmergencyContactsPanel.AllContacts | src/pages/victim-dashboard/components/EmergencyContactsPanel.jsx:11-30 | the two built-in numbers first, then the caller's contacts in order |
| EmergencyContactsPanel.Shown | src/pages/victim-dashboard/components/EmergencyContactsPanel.jsx:100 | a prefix of all contacts: all of them when expanded, at most four when collapsed |
| EmergencyContactsPanel.BuiltInsAlwaysShown | src/pages/victim-dashboard/components/EmergencyContactsPanel.jsx:11-30 | the two built-in numbers are always on screen |
| EmergencyContactsPanel.CollapsedShowsTwoOwn | src/pages/victim-dashboard/components/EmergencyContactsPanel.jsx:100 | collapsed, at most the caller's first two contacts are shown |
| EmergencyContactsPanel.ContactIcon | src/pages/victim-dashboard/components/EmergencyContactsPanel.jsx:39-52 | an unknown type gets the phone icon |
| EmergencyContactsPanel.ContactColor | src/pages/victim-dashboard/components/EmergencyContactsPanel.jsx:54-67 | an unknown type is muted |
| EmergencyContactsPanel.UnknownTypeLooksLikeEmergencyIcon | src/pages/victim-dashboard/components/EmergencyContactsPanel.jsx:39-67 | an unknown type shares the emergency icon but not its colour |
| EmergencyContactsPanel.Subtitle | src/pages/victim-dashboard/components/EmergencyContactsPanel.jsx:123 | the description when non-empty, otherwise the phone number |
| EmergencyContactsPanel.CallTarget | src/pages/victim-dashboard/components/EmergencyContactsPanel.jsx:32-37 | a tap on a shown row hands exactly that contact to `onCallContact`; nothing is tapped beyond the shown rows |
| ActiveAlertCard.TimeAgo | src/pages/volunteer-dashboard/components/ActiveAlertCard.jsx:61-70 | 'Just now' under a minute; whole minutes from 1 to 59 under an hour; otherwise whole hours; each bracketed by the age |
| ActiveAlertCard.TimeAgoReadsBack | src/pages/volunteer-dashboard/components/ActiveAlertCard.jsx:67-69 | the number in front of 'm ago' or 'h ago' reads back as the count |
| ActiveAlertCard.EmergencyIcon | src/pages/volunteer-dashboard/components/ActiveAlertCard.jsx:13-26 | any type outside the four known ones gets the warning icon |
| ActiveAlertCard.EmergencyColor | src/pages/volunteer-dashboard/components/ActiveAlertCard.jsx:28-41 | any type outside the four known ones gets the primary style |
| ActiveAlertCard.UrgencyColor | src/pages/volunteer-dashboard/components/ActiveAlertCard.jsx:43-52 | any urgency other than critical and high is muted |
| ActiveAlertCard.TypeFallbacksAgree | src/pages/volunteer-dashboard/components/ActiveAlertCard.jsx:13-41 | the fallback icon goes exactly with the fallback style |
| ActiveAlertCard.View | src/pages/volunteer-dashboard/components/ActiveAlertCard.jsx:89-183 | the type and ' Alert' or 'Emergency Alert'; the time-ago text; the urgency or 'standard'; the distance text; a description exactly when non-empty; the victim or 'Anonymous'; the nearby count or 3 |
| ActiveAlertCard.Card.constructor | src/pages/volunteer-dashboard/components/ActiveAlertCard.jsx:11 | no action chosen yet |
| ActiveAlertCard.Card.HandleAccept | src/pages/volunteer-dashboard/components/ActiveAlertCard.jsx:72-75 | the action becomes accept and the alert is handed on |
| ActiveAlertCard.Card.HandleReject | src/pages/volunteer-dashboard/components/ActiveAlertCard.jsx:77-80 | the action becomes reject and the alert is handed on |
| ActiveAlertCard.Card.Loading | src/pages/volunteer-dashboard/components/ActiveAlertCard.jsx:153-168 | a button spins exactly while processing and when it was the one pressed |
| ActiveAlertCard.PressThenLoading | src/pages/volunteer-dashboard/components/ActiveAlertCard.jsx:72-80 | after pressing one button, only that button spins while processing |
| RecentResponseCard.StatusColor | src/pages/volunteer-dashboard/components/RecentResponseCard.jsx:38-49 | any status outside the three known ones gets the primary style |
| RecentResponseCard.StatusIcon | src/pages/volunteer-dashboard/components/RecentResponseCard.jsx:51-62 | any status outside the three known ones gets the alert icon |
| RecentResponseCard.StatusFallbacksAgree | src/pages/volunteer-dashboard/components/RecentResponseCard.jsx:38-62 | the fallback style goes exactly with the fallback icon |
| RecentResponseCard.DateFormFor | src/pages/volunteer-dashboard/components/RecentResponseCard.jsx:64-73 | the time of day exactly when less than 24 hours have passed, the date otherwise |
| RecentResponseCard.Stars | src/pages/volunteer-dashboard/components/RecentResponseCard.jsx:149-160 | five stars, the i-th filled exactly when i is below the rating |
| RecentResponseCard.StarsCountRating | src/pages/volunteer-dashboard/components/RecentResponseCard.jsx:149-160 | for a rating from 0 to 5, that many filled stars followed by the empty ones |
| RecentResponseCard.View | src/pages/volunteer-dashboard/components/RecentResponseCard.jsx:91-164 | the type and ' Response' or 'Emergency Response'; the date form; response time and duration texts that read back as the minutes (0 when missing); an outcome exactly when non-empty; stars exactly for a non-zero rating, and a bare "0" exactly for a rating of 0 |
| RecentResponseCard.TypeIcon | src/pages/volunteer-dashboard/components/RecentResponseCard.jsx:8-21 | any type outside the four known ones gets the warning icon |
| ResponseStats.Repeat | src/pages/volunteer-dashboard/components/ResponseStats.jsx:26-30 | n copies of one star, none for n at most 0 |
| ResponseStats.RatingStarsAsWritten | src/pages/volunteer-dashboard/components/ResponseStats.jsx:21-46 | the loops build the stars of the rating as written: full, then a half, then `5 - ceil` empty ones |
| ResponseStats.RatingStars | src/pages/volunteer-dashboard/components/ResponseStats.jsx:21-46 | the loops build the intended five-star row |
| ResponseStats.StarsAsWrittenLength | src/pages/volunteer-dashboard/components/ResponseStats.jsx:21-46 | as written, a rating with tenths from .1 to .4 draws only four stars; every other rating draws five |
| ResponseStats.FourPointTwoDrawsFourStars | src/pages/volunteer-dashboard/components/ResponseStats.jsx:21-46 | a 4.2 rating draws four full stars and nothing else |
| ResponseStats.StarsForShape | src/pages/volunteer-dashboard/components/ResponseStats.jsx:21-46 | five stars: the whole part full, then a half star exactly when the tenths are 5 or more, then empty ones |
| ResponseStats.StarsAgreeIff | src/pages/volunteer-dashboard/components/ResponseStats.jsx:21-46 | the written and the intended rows agree exactly unless the tenths are from 1 to 4 |
| ResponseStats.StatValues | src/pages/volunteer-dashboard/components/ResponseStats.jsx:48-82 | the two counts read back, the time reads back as the minutes, and the rating reads back as the tenths with one decimal |
| ResponseStats.Badges | src/pages/volunteer-dashboard/components/ResponseStats.jsx:113-136 | Helper from 5 responses, Guardian from 10, Quick Responder at 300 or less with 3 responses, Community Hero from 4.5, each exactly under its condition |
| ResponseStats.GuardianIsHelper | src/pages/volunteer-dashboard/components/ResponseStats.jsx:113-124 | every Guardian is a Helper, and the Helper badge comes first |
| VolunteerDashboard.MockIds | src/pages/volunteer-dashboard/index.jsx:30-64 | the three mock alerts carry distinct ids, none of them the incoming alert's |
| VolunteerDashboard.Without | src/pages/volunteer-dashboard/index.jsx:147 | exactly the alerts whose id differs stay, in their order, and the list does not grow |
| VolunteerDashboard.WithoutAbsent | src/pages/volunteer-dashboard/index.jsx:147 | removing an id no alert carries leaves the list unchanged |
| VolunteerDashboard.WithoutPresent | src/pages/volunteer-dashboard/index.jsx:147 | removing an id some alert carries shortens the list |
| VolunteerDashboard.ViewOf | src/pages/volunteer-dashboard/index.jsx:237-342 | the header count and the map show every held alert; the badge and the unavailable notice follow availability; the empty notice shows exactly when available with no alerts, the cards exactly otherwise; the recent column is the first three responses; the overlay follows the flag |
| VolunteerDashboard.VolunteerPage.constructor | src/pages/volunteer-dashboard/index.jsx:15-27 | after mount and the first effect run: available, the mock alerts and responses loaded, the five-second timer armed for an available volunteer, no overlay |
| VolunteerDashboard.VolunteerPage.AvailabilityToggle | src/pages/volunteer-dashboard/index.jsx:128-131 | the spinner shows and a timeout carrying the new status is queued; nothing else changes |
| VolunteerDashboard.VolunteerPage.ToggleFiresAsWritten | src/pages/volunteer-dashboard/index.jsx:103-143 | the status is set and the spinner stops; the alerts are the mock list when online or when the status changed (the effect re-runs), and empty only when going offline with no change; a changed status reloads the responses and re-arms the timer with it |
| VolunteerDashboard.VolunteerPage.ToggleFires | src/pages/volunteer-dashboard/index.jsx:128-143 | as above, but the alerts are the mock list exactly when online, so an offline volunteer holds none |
| VolunteerDashboard.VolunteerPage.AlertTimerFires | src/pages/volunteer-dashboard/index.jsx:109-123 | the timer is used up; the incoming alert is shown exactly when the effect run that armed it saw the volunteer available |
| VolunteerDashboard.VolunteerPage.RemoveAlert | src/pages/volunteer-dashboard/index.jsx:145-162 | the alerts become `Without` the alert's id; nothing else changes |
| VolunteerDashboard.VolunteerPage.NotificationRespond | src/pages/volunteer-dashboard/index.jsx:164-174 | the overlay hides, its alert is forgotten and the alert's id leaves the list |
| VolunteerDashboard.VolunteerPage.NotificationClose | src/pages/volunteer-dashboard/index.jsx:176-179 | the overlay hides and its alert is forgotten; the list is kept |
| VolunteerDashboard.GoOfflineAsWritten | src/pages/volunteer-dashboard/index.jsx:103-143 | going offline shows the unavailable notice, but the header counts 3 and the map plots the three reloaded alerts |
| VolunteerDashboard.GoOffline | src/pages/volunteer-dashboard/index.jsx:128-143 | with the intended effect, going offline counts, plots and raises nothing |
| VolunteerDashboard.IncomingAlertAccepted | src/pages/volunteer-dashboard/index.jsx:109-174 | online, the incoming alert appears after five seconds; accepting it hides the overlay and leaves the three listed alerts |
| Sorting.Sort | src/pages/alert-history/index.jsx:248-264 | the sorted list holds the same alerts with the same multiplicities, ordered by the key |
| Sorting.SortStable | src/pages/alert-history/index.jsx:248-264 | alerts that share a key keep their input order, as the stable JavaScript sort keeps them |
| Sorting.SortMembership | src/pages/alert-history/index.jsx:248-264 | an alert is in the sorted list exactly when it is in the input |
| Sorting.LexLeqTotal | src/pages/alert-history/index.jsx:259-260 | any two status texts are ordered one way or the other |
| Sorting.LexLeqTransitive | src/pages/alert-history/index.jsx:259-260 | the text order is transitive, so sorting by status is well defined |

## Left out

- Realtime subscriptions (`subscribeToAlerts`, `subscribeToResponses`, src/services/emergencyService.js:240-268) are left out: they only forward database change events to a callback.
- `updateResponse` (src/services/emergencyService.js:161-171) and `getNearbyVolunteers` (src/services/emergencyService.js:173-186) are left out. The first is a plain patch of a response row, with no rule of its own. The second calls a stored database procedure that is not part of this model.
- Avatar upload (src/services/userService.js:68-88) is left out: it goes through file storage and names the file with `Math.random`.
- Sign-in and sign-up are not modelled. Their `{ data, error }` outcome is a parameter of the form handlers.
- Browser APIs are parameters or are left out: geolocation and permissions, `Notification` and `navigator.vibrate`, `localStorage`, and `window.confirm` (its answer is a parameter). The `alert` pop-ups are left out.
- The Blob downloads of the alert-history export (src/pages/alert-history/index.jsx:297-339) are left out.
- Kilometre distances are `None`. The source prints them with `toFixed` on floating-point values.
- `toLocale*String` texts are not modelled.
- The overlay's progress-bar percentage (src/components/ui/AlertNotificationOverlay.jsx:216) is not modelled.
- The average rating of `getUserStats` (src/services/userService.js:128) is kept as a sum and a count rather than a floating-point quotient.
- The calendar ranges 'today', 'month', 'quarter' and 'year' of the date filter (src/pages/alert-history/index.jsx:219-236) are parameters of the filter predicate, not computed from a calendar.
- Timers and simulated delays (`setTimeout`, `setInterval`, awaited delays) are explicit step methods. Which interleavings a real clock allows is not modelled beyond the sequences the lemmas name.
- The delayed `alert(...)` in the accept handler (src/pages/volunteer-dashboard/index.jsx:153-155) is left out. It calls the handler's `alert` parameter, which shadows the browser function.
- The dashboard's view and map handlers (src/pages/volunteer-dashboard/index.jsx) only log and are left out.
- The notification test button of the notification preferences (src/pages/user-profile/components/NotificationPreferences.jsx:85) is left out.
- `handleSessionRevoke` of the security card (src/pages/user-profile/components/AccountSecurity.jsx:116-122) is left out: it only forwards the session id to `onSave`.
- Presentational and plumbing files are not part of this model. These are HeroSection, CommunityStats, TrustSignals, Header, ProfileHeader, both EmergencyTypeSelector files, EmergencyActionButton, ExportModal, SocialAuth, AvailabilityToggle, EmergencyMap, EmergencyMapView, LocationPermissionPrompt, src/pages/login-register/index.jsx and Routes.jsx.
- `null` props are modelled as absent (`None`), the same as `undefined`.
- Case mapping is ASCII-only. `toLowerCase` / `toUpperCase` on other letters are not modelled.
- The database orders rows with equal sort keys in no fixed way. The model keeps their table order, using a stable sort.
- AlertHistory.SortedAlertsOrder: the source compares an unknown urgency as `NaN`, which acts as a tie and gives no consistent order. The model ranks it below 'low'.
- AlertHistory.SortedAlertsOrder: the 'status' sort uses `localeCompare`. The model orders by code units (`LexLeq`), which agrees with it only on plain ASCII words.
- The dashboard statistics pass a count of seconds to a formatter that expects minutes (src/pages/volunteer-dashboard/index.jsx), so 420 seconds shows as "7h 0m". The model formats the value as given, as the source does.
- ActiveAlertCard.View: the timestamp is a number, so the "NaNh ago" that an unparseable timestamp gives (src/pages/volunteer-dashboard/components/ActiveAlertCard.jsx:61-70) is not modelled; every alert the volunteer dashboard passes to the card carries a `new Date(...)` (src/pages/volunteer-dashboard/index.jsx:39-118).
- AlertHistory.AlertHistoryPage: the simulated loading on every filter or search change (src/pages/alert-history/index.jsx:345-350) is not modelled. There is no `isLoading` field, so the 800 ms during which the page shows its loading state do not exist in the model.
- UserProfile.ProfilePage.RoleSwitch: the navigation runs one second later through `setTimeout` (src/pages/user-profile/index.jsx:114-116). The model returns its route at once, so a second switch inside that second, which would queue a second navigation, is not modelled.
- UserProfile.ProfilePage.PersonalInfoSave, EmergencyContactsSave, LocationPreferencesSave, SafetySettingsSave, SecuritySave, NotificationPreferencesSave: the awaited one-second delay of each save (src/pages/user-profile/index.jsx:129-209) is collapsed. The time in which `isSaving` is true, and a second save overlapping it, are not modelled.
- SosModal.SosDialog.SendAlert: the awaited two-second delay before the alert is handed on (src/pages/home-landing/components/EmergencySOSModal.jsx:93) is collapsed. The time in which `isSending` is true, and a cancel or close arriving in it, are not modelled.
- The victim dashboard's navigation handlers (src/pages/victim-dashboard/index.jsx:143-153) and its call handlers, which open a `tel:` link with `window.open` (src/pages/victim-dashboard/index.jsx:127-137), are left out: they only hand a route or a phone number to the browser.

## Findings

| source | as written | input that shows it | evidently intended | confidence | as-written member | corrected member |
|---|---|---|---|---|---|---|
| src/pages/volunteer-dashboard/components/ResponseStats.jsx:21-46 | the empty stars are `5 - Math.ceil(rating)`, and the half star needs a fraction of at least .5, so a fraction from .1 to .4 loses a star | rating 4.2 draws 4 full stars, no half star and 0 empty stars: 4 stars in all | always five stars: full, then an optional half, then empty | high (not executed) | ResponseStats.FourPointTwoDrawsFourStars | ResponseStats.StarsAgreeIff |
| src/pages/volunteer-dashboard/index.jsx:103-143 | going offline empties the active alerts, but the effect on `[isAvailable]` then reloads the mock alerts | toggle availability off: the page holds 3 active alerts while offline | an offline volunteer has no active alerts | high (not executed) | VolunteerDashboard.GoOfflineAsWritten | VolunteerDashboard.GoOffline |
| src/pages/user-profile/components/EmergencyContactsSection.jsx:35-44 | `updated[0].isPrimary = true` writes into a contact object shared with the `contacts` prop, so Cancel restores a changed list | two contacts, neither primary: remove one, then Cancel; the remaining contact now shows as primary | Cancel restores the contacts exactly as they were passed in | high (not executed) | EmergencyContactsSection.RemoveThenCancelInPlace | EmergencyContactsSection.CancelRestoresInitial |
| src/pages/home-landing/index.jsx:98-106 | after SOS is pressed without a location, granting the location closes the prompt, but nothing opens the SOS dialog | press SOS with no location, then grant it: neither the dialog nor the prompt is open | the SOS dialog opens once the location is granted | high (not executed) | HomeLanding.SosThenGrantAsWritten | HomeLanding.SosThenGrant |
| src/pages/victim-dashboard/index.jsx:93-125 | cancelling does not clear the three-second response timer | send an alert, cancel it, and let the timer fire: two volunteer responses appear, with an alert that holds only `status: 'accepted'` | a cancelled alert receives no responses | high (not executed) | VictimDashboard.CancelThenStepAsWritten | VictimDashboard.CancelThenStep |
