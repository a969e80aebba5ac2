# JanSeva grievance portal: a Dafny model of its client-side core

JanSeva is a grievance portal that runs entirely in the browser. Citizens register complaints,
track them against a 48-hour service level agreement (SLA), browse and delete their complaint
history, rate resolved complaints and leave site feedback. Everything is kept in the browser's
local storage under three keys: `complaints`, `complaint_feedback` and `feedback`.

This project models the data layer, the validators and the page state machines. The modules are:

- `Storage`: local storage as a class `BrowserStorage` with one sequence field per key.
- `Complaints`: the complaint record. It also holds the reconciliation of stored records with the
  built-in seed records, the lookup by id and the newest-first sort.
- `ComplaintHistory`, `ComplaintHistoryNew`, `Dashboard`, `TrackComplaint`, `RegisterComplaint`,
  `Register`, `Login`, `Profile`, `FeedbackForm`, `Feedback`, `FeedbackSection`, `Landing` and
  `Assistant`: one module per page or component. Each holds a class with the component's state
  fields. Each event handler is a method with a field-granular `modifies` clause.
- `SiteFeedback`: the feedback form shared by the three site-feedback handlers.
- `Text` and `Seqs`: the JavaScript string and array operations the pages use (`trim`,
  `toLowerCase`, `includes`, `split`, `join`, `filter`, and the stable `sort`), with their
  properties.

Inputs from outside the program are parameters:

- The clock: `now` in milliseconds, its ISO text, and ids made from it.
- The URL query parameter.
- The timer callbacks. Each is a separate method that the caller runs later.

## Model

| member | source | states |
|---|---|---|
| Complaints.Merge | src/pages/ComplaintHistory.tsx:76-83 | The reconciled list starts with every stored record, unchanged and in order |
| Complaints.MergeContents | src/pages/ComplaintHistory.tsx:76-83 | A record is in the reconciled list iff it is stored, or it is a seed whose id no stored record has; the ids are the stored ids plus the seed ids |
| Complaints.Reconcile | src/pages/ComplaintHistory.tsx:76-83 | The copy-then-push loop over the seeds produces exactly the reconciled list |
| Complaints.MergeIdempotent | src/pages/ComplaintHistory.tsx:76-83 | Reconciling an already reconciled list again adds nothing, so repeated loads never duplicate seeds |
| Complaints.FirstIndexOf | src/pages/TrackComplaint.tsx:211 | `find` by id: the first index whose record has the id; no earlier record has it; the result is the length iff no record has it |
| Complaints.StoredRecordWins | src/pages/TrackComplaint.tsx:199-211 | A stored id is always found, and the stored record shadows a seed with the same id |
| Complaints.SeedFound | src/pages/TrackComplaint.tsx:202-211 | A seed whose id is not stored is found under its id |
| Complaints.MergeAtLeastSeeds | src/pages/ComplaintHistory.tsx:76-83 | With distinct seed ids the reconciled list has at least as many records as there are seeds |
| Complaints.DefaultComplaintsUnique | src/pages/ComplaintHistory.tsx:28-61 | The four built-in records have four different ids |
| Complaints.SortNewestFirst | src/pages/ComplaintHistory.tsx:85 | The date comparator orders the records by non-increasing date and keeps the same records |
| Complaints.LoadedFacts | src/pages/ComplaintHistory.tsx:73-86 | The loaded list is newest first, is a permutation of the reconciled list, keeps every stored record and every seed id, and has at least one record per seed |
| Complaints.LoadFrom | src/pages/ComplaintHistory.tsx:73-86 | `loadComplaints` (reconcile, then sort) computes the loaded list |
| Storage.BrowserStorage.constructor | src/pages/ComplaintHistory.tsx:74 | A browser that has stored nothing reads `[]` under every key |
| Storage.HasFeedback | src/pages/TrackComplaint.tsx:150-155 | `some(f => f.complaintId === id)`: true iff some ledger entry has the id |
| Storage.AppendRatesOnce | src/components/FeedbackForm.tsx:56-60 | Appending an entry adds exactly one rating for its complaint, leaves every other complaint's ratings alone, and marks the complaint as rated |
| Storage.NoUniquenessAtWrite | src/components/FeedbackForm.tsx:56-60 | Two submissions for the same complaint leave two entries for it |
| Text.SearchMatch | src/pages/ComplaintHistory.tsx:96-98 | The search matches iff the term occurs in the id (case-sensitive) or in the title with both lower-cased; the empty term matches everything |
| Text.BlankIffTrimmedEmpty | src/pages/Register.tsx:68 | `!s.trim()` holds iff every character is whitespace |
| Text.SplitJoinRoundTrip | src/pages/ComplaintHistoryNew.tsx:95 | Joining the pieces of a split with the same separator gives back the string |
| Seqs.SortBy | src/pages/ComplaintHistory.tsx:114-123 | The sort returns a permutation of its input that is ascending by the comparator's key |
| Seqs.SortByStable | src/pages/ComplaintHistory.tsx:114-123 | The sort is stable: records with equal keys keep their relative order |
| ComplaintHistory.MatchesStatus | src/pages/ComplaintHistory.tsx:100-109 | "all" keeps every record; "in_progress", "resolved" and "escalated" keep exactly the records with the capitalised status; any other value keeps nothing |
| ComplaintHistory.Filtered | src/pages/ComplaintHistory.tsx:95-112 | The shown records are exactly those that pass both the search and the status test, as a subsequence of the page's list |
| ComplaintHistory.UnknownFilterShowsNothing | src/pages/ComplaintHistory.tsx:100-111 | A filter value other than the four offered shows an empty list |
| ComplaintHistory.EverythingShownByDefault | src/pages/ComplaintHistory.tsx:95-112 | With the empty search and "all", the whole list is shown in order |
| ComplaintHistory.Projection | src/pages/ComplaintHistory.tsx:114-123 | The sorted view is a permutation of the filtered records: newest first by date, high before medium before low before unknown by priority, and unchanged for any other sort value |
| ComplaintHistory.SameDayOrderKept | src/pages/ComplaintHistory.tsx:114-117 | In the date view, records of the same day keep their filtered order |
| ComplaintHistory.HighPriorityFirst | src/pages/ComplaintHistory.tsx:117-120 | In the priority view no record that is not high priority comes before a high-priority one |
| ComplaintHistory.RemoveId | src/pages/ComplaintHistory.tsx:126 | Exactly the records with the id are dropped; the rest stay in order |
| ComplaintHistory.DeletedSeedReturns | src/pages/ComplaintHistory.tsx:125-129 | Deleting a seed record does not last: after the next reconciliation the seed is found under its id again |
| ComplaintHistory.HistoryPage.constructor | src/pages/ComplaintHistory.tsx:65-69 | Empty list, empty search, filter "all", sort "date", no delete dialog |
| ComplaintHistory.HistoryPage.LoadComplaints | src/pages/ComplaintHistory.tsx:73-86 | The page's list becomes the loaded (reconciled, newest-first) list |
| ComplaintHistory.HistoryPage.SetSearchTerm | src/pages/ComplaintHistory.tsx:164 | The search box sets the term |
| ComplaintHistory.HistoryPage.SetStatusFilter | src/pages/ComplaintHistory.tsx:170 | The status select sets the filter |
| ComplaintHistory.HistoryPage.SetSortBy | src/pages/ComplaintHistory.tsx:183 | The sort select sets the sort |
| ComplaintHistory.HistoryPage.SetDeleteConfirm | src/pages/ComplaintHistory.tsx:291 | The trash button opens the dialog for an id, and cancelling closes it |
| ComplaintHistory.HistoryPage.HandleDelete | src/pages/ComplaintHistory.tsx:125-130 | The list loses the records with the id, the whole remaining list (seeds included) is stored, and the dialog closes |
| ComplaintHistoryNew.Filtered | src/pages/ComplaintHistoryNew.tsx:62-68 | The shown records are exactly the built-in ones that pass the search and the raw status test, in order |
| ComplaintHistoryNew.Projection | src/pages/ComplaintHistoryNew.tsx:70-79 | A permutation of the filtered records: newest first, or by priority rank, or unchanged |
| ComplaintHistoryNew.CapitalisedFilterShowsNothing | src/pages/ComplaintHistoryNew.tsx:66 | The capitalised status values select nothing from the lowercase list |
| ComplaintHistoryNew.GetStatusLabelIsRelabel | src/pages/ComplaintHistoryNew.tsx:94-96 | `getStatusLabel` equals the character-by-character rule: "_" becomes a space and each word's first letter is upper-cased |
| ComplaintHistoryNew.LabelShape | src/pages/ComplaintHistoryNew.tsx:94-96 | The label is as long as the status, with a space exactly where the status has "_" |
| ComplaintHistoryNew.TwoWordLabel | src/pages/ComplaintHistoryNew.tsx:94-96 | `a_b` is shown as the two capitalised words joined by one space |
| ComplaintHistoryNew.OneWordLabel | src/pages/ComplaintHistoryNew.tsx:94-96 | A status without "_" is shown capitalised |
| Dashboard.CountsFitTotal | src/pages/Dashboard.tsx:127-129 | The resolved and in-progress counts together never exceed the total |
| Dashboard.AlwaysPopulated | src/pages/Dashboard.tsx:106-132 | Whatever storage holds, the total is at least 4 and the satisfaction label is "4.8/5" |
| Dashboard.RecentAreNewest | src/pages/Dashboard.tsx:120-123 | The three recent records are at least as new as every record left out |
| Dashboard.DashboardPage.constructor | src/pages/Dashboard.tsx:61-62 | Both lists start empty |
| Dashboard.DashboardPage.Mount | src/pages/Dashboard.tsx:106-125 | All records are the loaded list, and the recent card holds its first three |
| TrackComplaint.TrackSeedsFacts | src/pages/TrackComplaint.tsx:59-108 | The tracking seeds have distinct ids, and none has the lowercase status the page tests for |
| TrackComplaint.GenerateDefaultTimeline | src/pages/TrackComplaint.tsx:238-302 | Opens with "received" at registration and "assigned" 45 minutes later. An "in_progress" step at two hours exists iff the status is "in_progress" or "resolved". Five completed steps if resolved, three of five if in progress, two of four otherwise. Completed steps precede pending ones. The last two steps are given in full: "Action Taken" at 24 hours and "Resolved" now, both completed, if resolved; otherwise "Action Pending" expected at 24 hours and "Resolution" expected at 48 hours, both pending |
| TrackComplaint.RemainingTenths | src/pages/TrackComplaint.tsx:176-181 | Remaining hours rounded to the nearest tenth, ties upwards, never negative |
| TrackComplaint.ElapsedTenths | src/pages/TrackComplaint.tsx:179-182 | Elapsed hours `min(48, 48 - remaining)` rounded to the nearest tenth, never above 48 |
| TrackComplaint.SlaSum | src/pages/TrackComplaint.tsx:178-182 | The two rounded values add up to 48.0 hours, or 48.1 at an exact half-tenth tie |
| TrackComplaint.SlaProgress | src/pages/TrackComplaint.tsx:311 | The progress is between 0 and 100 for elapsed time up to 48 hours, and 0 iff nothing has elapsed |
| TrackComplaint.OverdueIsCritical | src/pages/TrackComplaint.tsx:311-312 | After the deadline: 0.0 hours left, 48.0 elapsed, a full bar, critical |
| TrackComplaint.CriticalWindow | src/pages/TrackComplaint.tsx:312 | Critical iff the remaining time rounds to at most 12.0 hours |
| TrackComplaint.TrackPage.constructor | src/pages/TrackComplaint.tsx:128-135 | The initial state of the page |
| TrackComplaint.TrackPage.HandleSearchWithId | src/pages/TrackComplaint.tsx:194-235 | The id is looked up in the stored records followed by the unshadowed seeds. A hit shows the record with its own timeline or a synthesised one, and its own officer or the default one. A miss clears the record and sets not-found. Searching ends either way |
| TrackComplaint.TrackPage.SetSearchId | src/pages/TrackComplaint.tsx:340 | The search box sets the id |
| TrackComplaint.TrackPage.HandleSearch | src/pages/TrackComplaint.tsx:304-309 | A blank box leaves the record, not-found and searching flags as they were; otherwise the untrimmed box is searched, with the same outcome as HandleSearchWithId |
| TrackComplaint.TrackPage.OpenWithParam | src/pages/TrackComplaint.tsx:137-143 | A non-empty `id` parameter fills the box and is searched, with the same outcome as HandleSearchWithId; otherwise the box, record and flags are unchanged |
| TrackComplaint.TrackPage.UpdateSla | src/pages/TrackComplaint.tsx:170-191 | With a record and registration date, sets remaining and elapsed tenths; otherwise leaves them |
| TrackComplaint.TrackPage.FeedbackPromptEffect | src/pages/TrackComplaint.tsx:146-167 | For a "resolved" record not yet rated on this page: opens the form iff the ledger has no entry for it, and otherwise remembers that feedback exists |
| TrackComplaint.TrackPage.CloseFeedbackForm | src/pages/TrackComplaint.tsx:556-559 | Closing the dialog hides it and suppresses any further prompt |
| FeedbackForm.FeedbackDialog.constructor | src/components/FeedbackForm.tsx:31-33 | Rating 5, empty text, not submitting |
| FeedbackForm.FeedbackDialog.SetRating | src/components/FeedbackForm.tsx:121 | A star click sets a rating in 1..5 |
| FeedbackForm.FeedbackDialog.SetFeedback | src/components/FeedbackForm.tsx:152 | Typing sets the text |
| FeedbackForm.FeedbackDialog.HandleSubmitFeedback | src/components/FeedbackForm.tsx:35-80 | Whitespace-only text changes nothing. Otherwise exactly one entry is appended after the earlier ones, the rating resets to 5, the text clears, and the dialog closes. Never left submitting |
| RegisterComplaint.ValidateFile | src/pages/RegisterComplaint.tsx:122-137 | Accepted iff at most 5 MB and JPEG/PNG; too large iff over 5 MB, whatever the type |
| RegisterComplaint.SelectValidFiles | src/pages/RegisterComplaint.tsx:139-148 | The loop keeps exactly the valid files, in order |
| RegisterComplaint.Capped | src/pages/RegisterComplaint.tsx:150-159 | The list has at most five files, and all of them when there are no more than five |
| RegisterComplaint.ExistingFilesWin | src/pages/RegisterComplaint.tsx:150-159 | Files already attached stay at the front, and a new file is kept only while there is room |
| RegisterComplaint.RemoveAt | src/pages/RegisterComplaint.tsx:188-192 | An in-range index drops that file and shifts the later ones; any other index drops nothing |
| RegisterComplaint.RemoveAtTakesOne | src/pages/RegisterComplaint.tsx:189 | Removal takes out exactly the one file at the index |
| RegisterComplaint.DecimalString | src/pages/RegisterComplaint.tsx:68 | `toString` of a timestamp: non-empty, all digits, no leading zero |
| RegisterComplaint.DecimalRoundTrip | src/pages/RegisterComplaint.tsx:68 | Reading the id back gives the timestamp |
| RegisterComplaint.DistinctIds | src/pages/RegisterComplaint.tsx:68 | Distinct timestamps give distinct ids |
| RegisterComplaint.NewComplaintFacts | src/pages/RegisterComplaint.tsx:70-93 | The new record is "In Progress" at 15%, titled by the subject, filed under the department, dated on the day of submission, without a registration date, and carries one metadata entry per file with a matching count |
| RegisterComplaint.NewRecordIsFound | src/pages/RegisterComplaint.tsx:95-102 | After the unshift, the tracking lookup finds the new record under its id |
| RegisterComplaint.RegisterComplaintPage.constructor | src/pages/RegisterComplaint.tsx:35-46 | Seven empty fields, no files, not submitting |
| RegisterComplaint.RegisterComplaintPage.HandleChange | src/pages/RegisterComplaint.tsx:118-120 | Only the named field changes |
| RegisterComplaint.RegisterComplaintPage.HandleFiles | src/pages/RegisterComplaint.tsx:139-160 | The valid incoming files follow the current ones, capped at five |
| RegisterComplaint.RegisterComplaintPage.RemoveFile | src/pages/RegisterComplaint.tsx:188-192 | The file at the index is removed |
| RegisterComplaint.RegisterComplaintPage.HandleSubmit | src/pages/RegisterComplaint.tsx:48-116 | Succeeds iff no field is empty. On failure storage and files are unchanged. On success the new record is put in front of the stored records, the files are cleared and submitting ends |
| Register.EmailPatternIsScan | src/pages/Register.tsx:57-59 | The email pattern holds iff: the first "@" is not the first character, no character is whitespace, no later "@" exists, and a "." lies strictly inside the domain |
| Register.PatternGivesScan | src/pages/Register.tsx:57-59 | An address the pattern accepts has exactly one "@" and no whitespace |
| Register.ScanGivesPattern | src/pages/Register.tsx:57-59 | An address that passes the scan matches the pattern |
| Register.PhoneIgnoresFormatting | src/pages/Register.tsx:61-63 | Inserting a non-digit anywhere never changes the phone verdict |
| Register.PhoneLength | src/pages/Register.tsx:61-63 | A valid phone number has at least ten characters |
| Register.ReportEmptyIffClean | src/pages/Register.tsx:76-77 | The error map is empty iff none of its checks failed |
| Register.RegisterWizard.constructor | src/pages/Register.tsx:25-56 | Empty fields, no errors, terms unchecked, step 1 |
| Register.RegisterWizard.ValidateStep1 | src/pages/Register.tsx:65-78 | Reports each blank name; for email and phone reports "required" when blank, else a format error; passes iff nothing is reported |
| Register.RegisterWizard.ValidateStep2 | src/pages/Register.tsx:80-91 | The same for address, city, state and the six-digit pincode |
| Register.RegisterWizard.ValidateStep3 | src/pages/Register.tsx:93-107 | Password of at least 8 characters, a matching untrimmed confirmation, terms accepted; passes iff nothing is reported |
| Register.RegisterWizard.HandleNextStep | src/pages/Register.tsx:109-115 | Steps 1 and 2 advance by one exactly when their validator passes; step 3 does nothing; the step stays within 1..3 |
| Register.RegisterWizard.Back | src/pages/Register.tsx:390 | The Back buttons of steps 2 and 3 (lines 390 and 499) go one step back |
| Register.RegisterWizard.SetAgreedToTerms | src/pages/Register.tsx:476 | The checkbox sets the terms flag |
| Register.RegisterWizard.HandleInputChange | src/pages/Register.tsx:130-141 | The field takes the value, and a showing error for it is blanked; no other field or error changes |
| Register.RegisterWizard.HandleRegister | src/pages/Register.tsx:117-128 | Step 3 is validated, and only a clean step starts loading |
| Login.ContainsAt | src/pages/Login.tsx:37 | `includes("@")` holds iff some character is "@" |
| Login.LoginVerdict | src/pages/Login.tsx:28-42 | Passes iff both fields are non-empty and the email has "@"; "fill all fields" iff either is empty |
| Login.LoginForm.constructor | src/pages/Login.tsx:17-20 | Empty fields, no error, not loading |
| Login.LoginForm.Submit | src/pages/Login.tsx:28-48 | The error line shows the verdict, and loading starts only when it passes |
| Login.LoginForm.SetEmail | src/pages/Login.tsx:180-183 | Typing sets the email and clears a showing error |
| Login.LoginForm.SetPassword | src/pages/Login.tsx:198-201 | Typing sets the password and clears a showing error |
| Login.LoginPage.constructor | src/pages/Login.tsx:16-26 | Two separate forms, both without error and not loading |
| Login.LoginPage.HandleCitizenLogin | src/pages/Login.tsx:28-49 | The citizen form gets the verdict, starts loading when it passes and otherwise keeps its loading flag; the officer form is untouched |
| Login.LoginPage.HandleOfficerLogin | src/pages/Login.tsx:51-72 | The officer form gets the verdict, starts loading when it passes and otherwise keeps its loading flag; the citizen form is untouched |
| Profile.PasswordGuardExamples | src/pages/Profile.tsx:79-85 | With all boxes filled the change is allowed iff the two new passwords match; even a one-character password passes |
| Profile.ProfilePage.constructor | src/pages/Profile.tsx:38-58 | The profile has every field, with 12 complaints and 10 resolved; the edit buffer is a copy; no form is open |
| Profile.ProfilePage.StartEdit | src/pages/Profile.tsx:149-152 | Edit mode starts with a fresh copy of the profile |
| Profile.ProfilePage.HandleEditChange | src/pages/Profile.tsx:67-72 | Only the named field of the buffer changes |
| Profile.ProfilePage.SaveProfile | src/pages/Profile.tsx:74-77 | The buffer becomes the profile and edit mode ends |
| Profile.ProfilePage.CancelEdit | src/pages/Profile.tsx:247 | Edit mode ends and the profile is untouched |
| Profile.ProfilePage.SetShowPasswordChange | src/pages/Profile.tsx:323 | The button shows or hides the password form |
| Profile.ProfilePage.SetPasswordData | src/pages/Profile.tsx:342-345 | Typing sets the password boxes |
| Profile.ProfilePage.HandlePasswordChange | src/pages/Profile.tsx:79-95 | When the guard holds the boxes clear and the form hides; otherwise nothing changes |
| Assistant.GetAIResponse | src/components/SahayakAssistant.tsx:38-62 | Answers for the first keyword group (greeting, register, track, services, resolution) with a word in the lower-cased message, and with the default reply when none has one |
| Assistant.HiAnywhereGreets | src/components/SahayakAssistant.tsx:41-43 | Any message containing "hi", even inside a word, gets the greeting |
| Assistant.TrackThisIsGreeted | src/components/SahayakAssistant.tsx:41-51 | "How do I track this?" gets the greeting, not the tracking help |
| Assistant.Chat.constructor | src/components/SahayakAssistant.tsx:66-75 | The chat opens with the welcome message |
| Assistant.Chat.SetInputValue | src/components/SahayakAssistant.tsx:316 | Typing sets the input |
| Assistant.Chat.HandleSendMessage | src/components/SahayakAssistant.tsx:93-105 | A blank input sends nothing. Otherwise the raw input is appended as a user message, the box clears, typing starts, and the quick questions hide |
| Assistant.Chat.HandleQuickQuestion | src/components/SahayakAssistant.tsx:120-131 | The question is appended as a user message and typing starts; the input box is untouched |
| Assistant.Chat.ReceiveReply | src/components/SahayakAssistant.tsx:107-117 | The classifier's reply to the question is appended, and typing stops |
| SiteFeedback.SiteForm.With | src/components/home/FeedbackFormSection.tsx:26-34 | The named field takes the value and no other field changes |
| SiteFeedback.Stamp | src/components/home/FeedbackFormSection.tsx:52-56 | The entry carries the form's four fields, the id and the submission time |
| SiteFeedback.CategoryNeverBlocks | src/components/home/FeedbackFormSection.tsx:39-46 | The category never affects acceptance, and clearing any other field makes the form refused |
| SiteFeedback.ResetFormIsRefused | src/components/home/FeedbackFormSection.tsx:64-72 | The reset form has category "General Feedback" and is refused if submitted again |
| Feedback.FeedbackPage.constructor | src/pages/Feedback.tsx:20-27 | Empty form with category "General Feedback", not submitting, no thank-you note |
| Feedback.FeedbackPage.HandleChange | src/pages/Feedback.tsx:39-41 | Only the named field changes |
| Feedback.FeedbackPage.HandleSubmit | src/pages/Feedback.tsx:43-85 | Refused with nothing changed unless name, email and message are filled. Otherwise one entry is appended after all stored entries, the note shows, the form resets, and submitting ends |
| Feedback.FeedbackPage.HideThanks | src/pages/Feedback.tsx:78 | The later timer hides the thank-you note |
| FeedbackSection.FeedbackFormSection.constructor | src/components/home/FeedbackFormSection.tsx:18-24 | Empty form with category "General Feedback", no note |
| FeedbackSection.FeedbackFormSection.HandleFeedbackChange | src/components/home/FeedbackFormSection.tsx:26-34 | Only the named field changes |
| FeedbackSection.FeedbackFormSection.HandleFeedbackSubmit | src/components/home/FeedbackFormSection.tsx:36-61 | Refused with storage unchanged unless name, email and message are filled. Otherwise the entry goes in front of all stored entries and the note shows |
| FeedbackSection.FeedbackFormSection.ResetAfterDelay | src/components/home/FeedbackFormSection.tsx:63-72 | The later timer hides the note and restores the default form |
| FeedbackSection.PrependShifts | src/components/home/FeedbackFormSection.tsx:57 | After `unshift` the new entry is first, and every earlier entry moves one place on, unchanged |
| Landing.LandingPage.constructor | src/pages/Landing.tsx:36-41 | Empty form with category "General Feedback", no note |
| Landing.LandingPage.HandleFeedbackChange | src/pages/Landing.tsx:150-158 | Only the named field changes |
| Landing.LandingPage.HandleFeedbackSubmit | src/pages/Landing.tsx:160-185 | Refused with storage unchanged unless name, email and message are filled. Otherwise one entry is prepended and the note shows |
| Landing.LandingPage.ResetAfterDelay | src/pages/Landing.tsx:187-196 | The later timer restores the empty form with "General Feedback" and hides the note |

## Left out

- I/O and failures: local storage reads are never malformed, and parse errors in `JSON.parse`
  and the `catch` branches they lead to are not modelled. Toasts, `alert`, navigation, focus and
  scrolling are left out.
- Timers: the simulated delays inside the submit handlers are not modelled. The handlers complete
  at once. Each `setTimeout` callback that changes state is a separate method the caller runs later
  (`HideThanks`, `ResetAfterDelay`, `ReceiveReply`). `setInterval` is one call of `UpdateSla` per
  tick.
- Storage events: the history page reloads on the `storage` event. `LoadComplaints` is that reload.
  Cross-tab concurrency is not modelled.
- Date strings: dates are day numbers, and registration dates are milliseconds since the epoch.
  Displayed dates (`toLocaleString`) are an instant, or an "Expected by" instant. The ISO time of a
  submission is a parameter, and every attachment of one submission has the same `uploadedAt`.
  Invalid dates are an explicit `InvalidDate` value.
- Floating point: SLA hours are exact tenths, computed from integer milliseconds with the same
  rounding (`Math.round`, ties upwards). The progress bar value is a real number. `formatFileSize`
  is display only.
- Unicode: `toLowerCase` and `toUpperCase` are modelled for ASCII letters only. Lengths count
  characters, not UTF-16 code units. `trim` uses the common whitespace characters.
- Object keys: the key order of stored JSON objects and prototype keys of form objects are not
  modelled. The site-feedback entry is a record, so the different key order of the three handlers
  (id first, or id last) is not visible.
- Field names and messages are enumerations: the register wizard, profile, login errors and
  feedback form fields use datatypes instead of string keys and message texts. `Message.Text`,
  `LoginError.Text` and `Reply.Text` give the exact strings.
- Assistant: message timestamps and the one-second reply delay are left out. The reply id is a
  parameter.
- The officer and admin dashboards, the notification preferences and the logout button of the
  profile page, the newsletter box of the landing page and all static page content are not part of
  this model.
- Register.RegisterWizard.HandleRegister: the two-second timer that ends loading and navigates to
  the login page is not modelled.
- Login.LoginForm.Submit: the navigation after the simulated delay is not modelled; loading stays
  on.
- Landing.LandingPage: the landing page repeats the home-page section's handlers line for line.
  It holds that section as a component rather than a second copy.
