# Smart Health Tracking — a verified model of its domain rules

Smart Health Tracking is a Django application in which patients, doctors and
therapists share one store. Patients run therapy tasks, request appointments,
raise SOS alerts and watch exercise videos. Doctors confirm appointments and
log visits. Therapists give feedback, write notes and upload videos. Anyone
logged in can exchange messages. This project models the rules behind those
requests in Dafny and proves what they guarantee:

- the record fields that `core/models.py` derives when a row is saved: the unique
  user id, a visit record's summary and a video's view counter;
- the validators and saves of `core/forms.py`: the password-prefix rule for staff,
  the registration save, the hospital candidates of the appointment form and the
  partial-update forms;
- the handlers of `core/views.py`, as methods of one in-memory `Store`. Each handler
  takes the logged-in principal (id, role, full name) and, where the view reads the
  clock, an integer time `now`. Each one first makes the view's role check, then
  fetches its record, and only then changes the store.

Modules:

| module | file | contents |
|---|---|---|
| `Base` | base.dfy | `Option`, `Result`, `Max`, `Min` |
| `Text` | text.dfy | Python's `str(n)`, `int(s)`, `startswith`, ASCII `upper`, zero padding |
| `Sequences` | sequences.dfy | filter, first-match search, a stable sort by an integer key, slicing |
| `Models` | models.dfy | models.py: choices and defaults, dates and ages, unique ids, the save hooks, class `User` |
| `Forms` | forms.dfy | forms.py: registration, the appointment form (a class), model-form validity, partial updates |
| `Workflow` | workflow.dfy | views.py: role gates, handler outcomes, and the new value of each record a handler writes |
| `Selections` | selections.dfy | views.py: the read-only queries: conversations, contacts, video listings, hospitals, mood colour, age |
| `Handlers` | handlers.dfy | views.py: class `Store`, whose tables are sequences of records, and one method per handler |

Each table has its own key counter, as an auto-increment column does. The store
has one validity predicate per table: keys are distinct and below the counter, and
each row is in a state the handlers leave rows in. For example, every acknowledged
alert carries both flags and a time. Each handler requires and keeps the predicate
of every table it writes. Its `modifies` clause leaves all other tables untouched.
Where a view fetches with `get_object_or_404(Model, id=…, owner=…)`, the model finds
the row by key and then checks the owner. A missing row, or one owned by someone
else, gives `NotFound` and leaves the store unchanged. A `Model.objects.get` that
finds nothing raises an uncaught exception, which gives `ServerError`.

Four behaviours of the code a reader might not expect, which the model keeps:

- `views.py` defines `confirm_appointment` and `log_visit_by_id` twice. Python binds
  each name to its second definition, which is also the one `urls.py:27` and
  `urls.py:44` route to. So the live confirm sets `confirmed` from any status on POST.
  The pending-only version at `views.py:537-555` is never reached.
- `acknowledge_sos_alert` overwrites `acknowledged_at` with the current time whenever
  both flags end up set. It does not keep the first acknowledgment time.
- A conversation between A and B also shows A's messages to A, because the filter
  only asks that sender and receiver are each in {A, B}.
- A visit record's summary is written once, when it is empty. After
  `update_visit_record` it still shows the status and score it was first saved with.

## Model

| member | source | states |
|---|---|---|
| `Text.Decimal` | Smart_Health_tracking-main/core/models.py:26 | `str(n)`: at least one decimal digit, with a leading zero only for 0 |
| `Text.ZeroPaddedValue` | Smart_Health_tracking-main/core/models.py:142 | the zero-padded digits of a date field still read back as the number |
| `Text.DecimalRoundTrip` | Smart_Health_tracking-main/core/models.py:26 | the digits `str(n)` prints read back as n |
| `Text.FourDigits` | Smart_Health_tracking-main/core/models.py:26 | every draw of `randint(1000, 9999)` prints as exactly four digits |
| `Text.ParseIntDecimal` | Smart_Health_tracking-main/core/forms.py:131 | `int()` reads back every number `str()` writes, so an option value names its row |
| `Text.ParseIntNegative` | Smart_Health_tracking-main/core/forms.py:131 | a leading minus sign gives the negated value |
| `Text.ParseIntRejectsEmpty` | Smart_Health_tracking-main/core/forms.py:133 | an empty parameter makes `int()` raise ValueError |
| `Text.AsciiUpper` | Smart_Health_tracking-main/core/models.py:25 | upper-casing keeps the length and maps each character to its upper-case form |
| `Sequences.Filter` | Smart_Health_tracking-main/core/views.py:975-980 | a queryset filter keeps exactly the rows that match, with their multiplicities (the order is FilterConcat's) |
| `Sequences.FilterConcat` | Smart_Health_tracking-main/core/views.py:975-980 | filtering keeps table order: the rows kept from a front part come first, then the rows kept from the rest |
| `Sequences.FilterAgrees` | Smart_Health_tracking-main/core/views.py:827-831 | two conditions that agree on every row select the same rows |
| `Sequences.FindIndex` | Smart_Health_tracking-main/core/views.py:888 | the position of the first row that matches, or none when no row matches |
| `Sequences.SortBy` | Smart_Health_tracking-main/core/views.py:982 | `order_by` is a permutation of its input and is sorted by the key |
| `Sequences.InsertBySorted` | Smart_Health_tracking-main/core/views.py:982 | inserting into a sorted sequence keeps it sorted |
| `Sequences.Take` | Smart_Health_tracking-main/core/views.py:1016 | `[:n]` is the prefix of length min(n, length) |
| `Models.DictGet` | Smart_Health_tracking-main/core/views.py:407 | `dict(choices).get(key, default)` gives the label paired with a listed key, and the default for any other key |
| `Models.TaskTypeLabel` | Smart_Health_tracking-main/core/models.py:153-164 | a listed task type gives its label; any other type gives "Unknown Task" |
| `Models.AgeCountsBirthdays` | Smart_Health_tracking-main/core/models.py:29-35 | the age formula equals k exactly when the k-th birthday has been reached and the (k+1)-th has not |
| `Models.AgeNonNegative` | Smart_Health_tracking-main/core/models.py:29-35 | the age is never negative when the birth date is not after today |
| `Models.DateIsoFields` | Smart_Health_tracking-main/core/models.py:142 | `str(date)` is ten characters "YYYY-MM-DD" whose fields read back as the date |
| `Models.DefaultTask` | Smart_Health_tracking-main/core/models.py:171-177 | a new task is not started (stored as 'pending'), of type "exercise", with a blank name and feedback, no times and no duration |
| `Models.DefaultAlert` | Smart_Health_tracking-main/core/models.py:225-231 | a new alert is active, with neither flag set and no times |
| `Models.DefaultVideo` | Smart_Health_tracking-main/core/models.py:262-280 | a new video is active, of type "exercise", at level beginner, with no views, created and updated now |
| `Models.UniqueIdPrefix` | Smart_Health_tracking-main/core/models.py:25 | the prefix is "USR" for an empty role; otherwise it has min(3, length) characters, each the upper-cased character of the role at that position |
| `Models.RolePrefixes` | Smart_Health_tracking-main/core/models.py:25 | the three roles give PAT, DOC and THE |
| `Models.GenerateUniqueId` | Smart_Health_tracking-main/core/models.py:26 | a generated id is non-empty: the prefix, an underscore and four digits |
| `Models.UniqueIdSplits` | Smart_Health_tracking-main/core/models.py:26 | a generated id splits back into its prefix and its draw |
| `Models.UniqueIdCollision` | Smart_Health_tracking-main/core/models.py:26 | two generated ids are equal exactly when their prefixes and draws are equal |
| `Models.SavedUniqueId` | Smart_Health_tracking-main/core/models.py:23-27 | after save the id is non-empty; a stored id is kept; an empty one is generated from role and draw |
| `Models.SaveIdempotent` | Smart_Health_tracking-main/core/models.py:24 | saving again never changes a saved id, whatever the role or the draw |
| `Models.SavedVisitRecord` | Smart_Health_tracking-main/core/models.py:140-143 | save fills an empty summary with "date: status (score%)", never overwrites one, and changes nothing else |
| `Models.SavedVisitRecordIdempotent` | Smart_Health_tracking-main/core/models.py:140-143 | a second save changes nothing |
| `Models.ViewedVideo` | Smart_Health_tracking-main/core/models.py:290-293 | increment_views adds exactly one view and leaves every other column as stored |
| `Models.User.constructor` | Smart_Health_tracking-main/core/models.py:16-21 | a new user has the given username and every other column blank |
| `Models.User.Save` | Smart_Health_tracking-main/core/models.py:23-27 | in place: an empty unique id is generated from role and draw; a stored one is kept |
| `Models.User.GetAge` | Smart_Health_tracking-main/core/models.py:29-35 | none exactly when there is no birth date; otherwise the number of birthdays reached, and non-negative when the birth date is not after today |
| `Forms.CleanPassword1` | Smart_Health_tracking-main/core/forms.py:33-38 | rejected exactly when the role is doctor or therapist and the password lacks the "admin" prefix; otherwise the password is returned; a patient or a missing role is never rejected |
| `Forms.SaveRegistration` | Smart_Health_tracking-main/core/forms.py:40-48 | the new user takes role, email and phone from the form, first name = username, last name = phone, and a generated unique id |
| `Forms.Register` | Smart_Health_tracking-main/core/views.py:33-47 | a user is created exactly when the form is valid; the prefix error is reported exactly when clean_password1 failed |
| `Forms.HospitalsAt` | Smart_Health_tracking-main/core/forms.py:132 | exactly the hospitals at the location |
| `Forms.HospitalCandidates` | Smart_Health_tracking-main/core/forms.py:127-134 | exactly the hospitals whose location id the posted value parses to; none when the value is missing or does not parse |
| `Forms.AppointmentForm.constructor` | Smart_Health_tracking-main/core/forms.py:127-134 | in place: the hospital queryset starts empty and ends as the candidates for the posted location |
| `Forms.AppointmentHospitalStored` | Smart_Health_tracking-main/core/forms.py:115 | a valid appointment form names a stored hospital |
| `Forms.ApplyFeedback` | Smart_Health_tracking-main/core/forms.py:87 | the feedback form writes feedback and no other field |
| `Forms.ApplyTherapistNotes` | Smart_Health_tracking-main/core/forms.py:96 | the notes form writes therapist_notes, "" when absent, and no other field |
| `Forms.ApplyVisitUpdate` | Smart_Health_tracking-main/core/forms.py:142 | the update form writes status, score and doctor notes and no other field |
| `Workflow.UngatedHandlers` | Smart_Health_tracking-main/core/views.py:557-562 | cancel, update-visit, messaging and visit-details views admit every role |
| `Workflow.SosRoles` | Smart_Health_tracking-main/core/views.py:859-931 | only patients send SOS alerts; only doctors and therapists acknowledge and resolve them |
| `Workflow.NewAlert` | Smart_Health_tracking-main/core/views.py:866-874 | a new alert is active with no flags and no times; an empty message is stored as NULL |
| `Workflow.AcknowledgedBy` | Smart_Health_tracking-main/core/views.py:888-903 | sets only the caller's flag; both flags give acknowledged with the time overwritten; otherwise the status is kept and the time is set only if unset; nothing else changes; the alert invariant is kept |
| `Workflow.ResolvedAt` | Smart_Health_tracking-main/core/views.py:920-923 | status resolved and resolved_at now, from any status; the flags and every other field are kept |
| `Workflow.AcknowledgeIgnoresStatus` | Smart_Health_tracking-main/core/views.py:891-903 | acknowledging never reads the status |
| `Workflow.ResolvedThenAcknowledged` | Smart_Health_tracking-main/core/views.py:888-923 | a resolved alert acknowledged by the second role becomes acknowledged again and keeps its resolution time |
| `Workflow.AcknowledgeOrderIrrelevant` | Smart_Health_tracking-main/core/views.py:891-901 | doctor-then-therapist and therapist-then-doctor give the same alert: acknowledged at the second time |
| `Workflow.SingleRoleAcknowledgment` | Smart_Health_tracking-main/core/views.py:891-901 | one role's acknowledgment leaves a new alert active with the first time recorded; repeating it changes nothing |
| `Workflow.StartedTask` | Smart_Health_tracking-main/core/views.py:398-409 | the started task is in progress since now, with the posted type and duration, and is named by the label of its type |
| `Workflow.StartedTaskNamed` | Smart_Health_tracking-main/core/views.py:407 | through the form the name is always a listed label, never "Unknown Task" |
| `Workflow.HomeStartedTask` | Smart_Health_tracking-main/core/views.py:81-88 | the home page's task is in progress since now, with the posted type and duration and a blank name |
| `Workflow.RoundMinutes` | Smart_Health_tracking-main/core/views.py:435-436 | the nearest whole number of minutes; a tie goes to the even one |
| `Workflow.RoundMinutesUnique` | Smart_Health_tracking-main/core/views.py:436 | that rounding has exactly one result, so it is Python's round() |
| `Workflow.DurationMinutes` | Smart_Health_tracking-main/core/views.py:434-438 | at least 1; the rounded minutes when that is at least 1; 1 without a start time |
| `Workflow.DurationExamples` | Smart_Health_tracking-main/core/views.py:434-438 | 150 s gives 2, 210 s gives 4, 89 s gives 1, 91 s gives 2; no elapsed time, a clock gone back or no start give 1 |
| `Workflow.CompletedTask` | Smart_Health_tracking-main/core/views.py:431-446 | an in-progress task becomes completed at now with its duration and nothing else changes; any other task is left as it is |
| `Workflow.CompleteIdempotent` | Smart_Health_tracking-main/core/views.py:431 | completing twice is completing once |
| `Workflow.RequestedAppointment` | Smart_Health_tracking-main/core/views.py:92-97 | a requested appointment is pending and carries the posted doctor, hospital, date, time and reason |
| `Workflow.LoggedVisit` | Smart_Health_tracking-main/core/views.py:703-712 | the logged record is pending with score 0, names the appointment's hospital, and takes its patient and date and the doctor's name |
| `Workflow.LoggedVisitSummary` | Smart_Health_tracking-main/core/views.py:703-712 | once saved, a logged visit's summary reads "date: pending (0%)" |
| `Workflow.SummaryKeptOnUpdate` | Smart_Health_tracking-main/core/views.py:646-649 | after update the summary is the one first saved |
| `Workflow.SubmittedVisit` | Smart_Health_tracking-main/core/views.py:309-314 | a patient's visit takes the posted fields and the default doctor 12, with no notes |
| `Workflow.NewMessage` | Smart_Health_tracking-main/core/views.py:847 | a new message is not deleted and goes from the sender to the receiver at now |
| `Workflow.SoftDeleted` | Smart_Health_tracking-main/core/views.py:854-855 | deleting sets the flag and keeps every other field |
| `Workflow.UploadedVideo` | Smart_Health_tracking-main/core/views.py:941-946 | an uploaded video belongs to the uploader, has no views, and takes the posted title, description, type, duration, level and active flag |
| `Selections.Conversation` | Smart_Health_tracking-main/core/views.py:826-831 | exactly the undeleted messages with sender and receiver in {me, other}, each as often as stored, by nondecreasing timestamp |
| `Selections.ConversationSymmetric` | Smart_Health_tracking-main/core/views.py:827-831 | both participants see the same conversation in the same order |
| `Selections.SelfMessagesShown` | Smart_Health_tracking-main/core/views.py:828-829 | a message to oneself appears in every conversation its author opens |
| `Selections.SoftDeleteHides` | Smart_Health_tracking-main/core/views.py:853-855 | after a soft delete the message is in no conversation; every other message shows exactly where it did |
| `Selections.Contacts` | Smart_Health_tracking-main/core/views.py:819 | the users of the chosen role other than oneself; none when no role is chosen |
| `Selections.NewestFirst` | Smart_Health_tracking-main/core/views.py:982 | a permutation with creation times nonincreasing |
| `Selections.ListVideos` | Smart_Health_tracking-main/core/views.py:975-982 | exactly the active videos matching each non-empty filter, each as often as stored, newest first |
| `Selections.UnfilteredListing` | Smart_Health_tracking-main/core/views.py:977-980 | empty filters list every active video |
| `Selections.RelatedCandidates` | Smart_Health_tracking-main/core/views.py:1013-1016 | exactly the active videos of the type other than the watched one, each as often as stored, newest first |
| `Selections.RelatedVideos` | Smart_Health_tracking-main/core/views.py:1013-1016 | at most five videos, all active, of the same type, not the watched one, newest first |
| `Selections.RelatedVideosNewest` | Smart_Health_tracking-main/core/views.py:1016 | a related video left out means the strip is full and is no older than it |
| `Selections.Options` | Smart_Health_tracking-main/core/views.py:631 | one (id, name) row per hospital, in order |
| `Selections.OptionsListHospitals` | Smart_Health_tracking-main/core/views.py:631 | every hospital has its row and every row names a hospital |
| `Selections.LoadHospitals` | Smart_Health_tracking-main/core/views.py:629-632 | no parameter gives no hospitals; a non-integer raises; otherwise exactly the appointment form's candidates |
| `Selections.MoodColor` | Smart_Health_tracking-main/core/views.py:147-155 | the colour of the latest mood, or #2196f3 for no mood or an unlisted one |
| `Selections.CalculateAge` | Smart_Health_tracking-main/core/views.py:116-118 | the number of birthdays reached; non-negative when the birth date is not after today |
| `Selections.ProfileAgeIsGetAge` | Smart_Health_tracking-main/core/views.py:140 | the profile's age is User.get_age |
| `Handlers.HospitalName` | Smart_Health_tracking-main/core/views.py:707 | the name of the stored hospital with the appointment's hospital id |
| `Handlers.AccountAt` | Smart_Health_tracking-main/core/views.py:846 | the position of a user with that id, or none exactly when no user has it |
| `Handlers.HospitalAt` | Smart_Health_tracking-main/core/views.py:707 | the position of the hospital with that id, or none exactly when no hospital has it |
| `Handlers.AppointmentAt` | Smart_Health_tracking-main/core/views.py:689 | the position of the appointment with that id, or none exactly when no appointment has it |
| `Handlers.VisitRecordAt` | Smart_Health_tracking-main/core/views.py:644 | the position of the visit record with that id, or none exactly when no record has it |
| `Handlers.PatientVisitAt` | Smart_Health_tracking-main/core/views.py:379 | the position of the patient visit with that id, or none exactly when no visit has it |
| `Handlers.TaskAt` | Smart_Health_tracking-main/core/views.py:429 | the position of the task with that id, or none exactly when no task has it |
| `Handlers.MessageAt` | Smart_Health_tracking-main/core/views.py:853 | the position of the message with that id, or none exactly when no message has it |
| `Handlers.AlertAt` | Smart_Health_tracking-main/core/views.py:888 | the position of the alert with that id, or none exactly when no alert has it |
| `Handlers.VideoAt` | Smart_Health_tracking-main/core/views.py:1007 | the position of the video with that id, or none exactly when no video has it |
| `Handlers.ResolveUser` | Smart_Health_tracking-main/core/views.py:822 | a user id parameter selects no one when missing, raises when not an integer, else selects the user with that id if one exists |
| `Handlers.Store.constructor` | Smart_Health_tracking-main/core/models.py:9-293 | an empty database with the given users and hospitals: every table empty, every key counter at 0, every table invariant holding |
| `Handlers.Store.SaveVisitRecord` | Smart_Health_tracking-main/core/models.py:140-143 | in place: the record becomes its saved form |
| `Handlers.Store.IncrementViews` | Smart_Health_tracking-main/core/models.py:290-293 | in place: the video gains one view |
| `Handlers.Store.PatientHome` | Smart_Health_tracking-main/core/views.py:69-99 | non-patients change nothing; a valid task post adds a started task; a valid appointment post adds a pending appointment; an invalid form or a GET changes nothing |
| `Handlers.Store.StartTask` | Smart_Health_tracking-main/core/views.py:393-411 | non-patients and GETs change nothing; a valid post adds one named, started task with the next key |
| `Handlers.Store.CompleteTask` | Smart_Health_tracking-main/core/views.py:423-448 | only the caller's own task; an in-progress one is completed in place; any other status is a warning with nothing changed |
| `Handlers.Store.ConfirmAppointment` | Smart_Health_tracking-main/core/views.py:611-624 | only doctors and their own appointments; POST sets confirmed from any status; GET changes nothing |
| `Handlers.Store.CancelAppointment` | Smart_Health_tracking-main/core/views.py:556-562 | any role, but only the appointment's own doctor; it becomes cancelled from any status |
| `Handlers.Store.LogVisitById` | Smart_Health_tracking-main/core/views.py:681-725 | only doctors and their own appointments; a record for the same doctor, patient and date blocks it; otherwise one saved record is added and the appointment becomes completed |
| `Handlers.Store.UpdateVisitRecord` | Smart_Health_tracking-main/core/views.py:641-660 | any role, but the caller must be the record's doctor; a valid POST rewrites the three form fields and saves; otherwise nothing changes |
| `Handlers.Store.AddFeedback` | Smart_Health_tracking-main/core/views.py:356-370 | only therapists; any task; a missing task is a server error; a POST carrying data writes only the feedback, "" when none is posted; a GET or an empty POST body leaves the form unbound and changes nothing |
| `Handlers.Store.AddTherapistNotes` | Smart_Health_tracking-main/core/views.py:373-388 | only therapists; a missing visit is a server error; otherwise only the notes are written |
| `Handlers.Store.VisitDetails` | Smart_Health_tracking-main/core/views.py:305-317 | only a patient's valid POST adds a visit, with doctor 12; when no user 12 exists the foreign-key check fails with a server error and nothing is stored |
| `Handlers.Store.MessageBox` | Smart_Health_tracking-main/core/views.py:813-839 | changes nothing; shows the contacts and the conversation with the selected user; a non-integer user id is a server error |
| `Handlers.Store.SendMessage` | Smart_Health_tracking-main/core/views.py:841-849 | a POST to an existing receiver with content adds one message; an unknown receiver is not found; a non-integer id or missing content is a server error |
| `Handlers.Store.DeleteMessage` | Smart_Health_tracking-main/core/views.py:851-856 | only the sender; the message is flagged in place and then appears in no conversation |
| `Handlers.Store.SendSosAlert` | Smart_Health_tracking-main/core/views.py:859-879 | only patients; a POST adds one new active alert |
| `Handlers.Store.AcknowledgeSosAlert` | Smart_Health_tracking-main/core/views.py:881-911 | only doctors and therapists; the alert becomes its acknowledged form and the alert invariant is kept |
| `Handlers.Store.ResolveSosAlert` | Smart_Health_tracking-main/core/views.py:913-931 | only doctors and therapists; the alert is resolved at now from any status |
| `Handlers.Store.UploadExerciseVideo` | Smart_Health_tracking-main/core/views.py:934-952 | only therapists; a valid POST adds one video owned by the caller |
| `Handlers.Store.ViewExerciseVideos` | Smart_Health_tracking-main/core/views.py:964-998 | only patients; the listing is the filtered, newest-first one; nothing changes |
| `Handlers.Store.WatchVideo` | Smart_Health_tracking-main/core/views.py:1000-1021 | only patients and active videos; the video gains one view; the related strip is returned |
| `Handlers.Store.DeleteVideo` | Smart_Health_tracking-main/core/views.py:1023-1041 | only the owning therapist; a POST removes that row, keeps every other one, and leaves no video with that key |

## Left out

- Page output: templates, redirects, flash messages and JSON bodies. A handler's `Outcome` stands for where it ends.
- Login, sessions, `login_required` and password hashing belong to Django's auth framework, which is not shown. `RegistrationValid` covers only the role choice and the prefix rule, not UserCreationForm's own checks (matching passwords, strength, unique username) or the email and phone field checks.
- Profile pages and dashboards, patient lookup, `therapist_videos`, `log_mood`, `submit_health_log`, `patient_progress_chart` and `get_weekly_progress`. They are reads and formatting over float averages and `strftime` labels. Only the mood colour and the age are modelled.
- The visit list that `visit_details` renders: every visit for a therapist, the patient's own visits otherwise. It is a read that only feeds the template; the model covers the POST branch that writes.
- Profile photos, report and prescription files, and video and thumbnail files. These are file storage.
- HealthLog, MoodLog, ImprovementScore and Location. No modelled handler writes them. The location a hospital belongs to is kept as a plain id.
- `AppointmentFormValid`: the `location` choice is not checked against a Location table, and the date, time and reason fields are given already cleaned. Hospital and doctor choices are given as ids, not parsed from text.
- Time is an integer count of seconds given as `now`. Float `total_seconds()` and time zones are not modelled.
- `randint(1000, 9999)` is the `draw` parameter. The database's uniqueness check on `unique_id` is not modelled, so two users can get equal ids (`UniqueIdCollision` states when).
- Concurrency between requests and database transactions.
- Queryset order among rows with equal sort keys is left to the database. The model's sort keeps stored order among ties.
- Field length limits (`max_length`), whitespace stripping of posted strings, and the database's integer range.
- `Text.AsciiUpper`: upper-cases ASCII letters only. That is enough for the three role names, but `str.upper` also maps non-ASCII letters.
- `Text.ParseInt`: accepts ASCII digits only. Python's `int()` also accepts other Unicode digits and underscores between digits. `Text.IsSpace` is ASCII only, while `int()` also strips non-ASCII whitespace such as U+00A0.
- The dead definitions at `views.py:537-555`, `views.py:566-590` and `book_appointment` at `views.py:592-609` are never routed. The edit branch `forms.py:135-136` reads a field `Appointment` does not have.
- admin.py, the URL tables and the two administrator scripts are configuration.
