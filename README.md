# xiv-dt-converter, modelled in Dafny

xiv-dt-converter is a small client/server application. It takes game-mod archives and runs them through an external conversion tool (ConsoleTools.exe). This project models the sequential logic around that tool in Dafny 4.11 and proves properties of that logic.

- **Client job tracker** (`JobTracker`, job_tracker.dfy). This is the converter page of the React client. It keeps a list of dropped files with a status each, one conversion slot and a batch mode that converts queued files one after the other. The component's state becomes the class `Tracker`, whose methods update it. The list transforms (map, filter, find, counts) are functions with lemmas.
- **Server task queue** (`ConversionQueue`, conversion_queue.dfy). This is the Django converter app: uploaded files become `ConversionTask`s in a first-in first-out `TaskQueue` with a single working slot. One pass of the worker loop is a method. The status view and the client-address lookup are functions.
- **Accounts** (`Accounts`, accounts.dfy). This is the Django users app: the password rules, the `Bearer` token check, and the field checks of registration, login and password change. The user table is the class `UserStore`, which holds a map.
- **Session** (`Session`, session.dfy). The client's auth provider keeps three state fields in step with two `localStorage` keys.
- **Auth dialog** (`AuthForm`, auth_form.dfy). The login/registration dialog reads the server's answer into field errors, a general error or a stored session.
- **Forwarded-for middleware** (`ForwardedFor`, forwarded_for.dfy). It rewrites `REMOTE_ADDR` from `X-Forwarded-For`.

Three helper modules are shared by the others:

- `Wire` (wire.dfy): Option, JSON values with JavaScript truthiness, and HTTP replies.
- `Text` (text.dfy): Python's `str.strip`, `split(sep)[0]` and `startswith`.
- `WinPath` (win_path.dfy): `os.path.join`, `dirname` and `basename` on Windows, for the paths the converter builds: a directory joined with names that hold no separator. Only the backslash is treated as a separator.

Foreign code and I/O appear as parameters:

- the HTTP calls become an outcome value (`ConvertOutcome`, `HttpOutcome`);
- the conversion tool run becomes `RunResult`;
- the file system checks become booleans in `WorkerEnv`;
- `uuid4`, the md5 hash directory name and `Math.random` ids become fresh-value parameters;
- bcrypt becomes a hash string and a `check` function;
- JWT decoding becomes a `decode` function;
- the clock becomes an `Instant` parameter.

A Django view that raises an exception it does not catch is modelled as the reply `UnhandledError`, which is Django's bare 500.

## Model

| member | source | states |
|---|---|---|
| JobTracker.Filter | frontend/src/App.tsx:89 | `filter` never grows the list and keeps only entries the predicate accepts |
| JobTracker.FilterCounts | frontend/src/App.tsx:89 | `filter` keeps each accepted entry exactly as often as the input has it and drops every rejected one (multiset equation) |
| JobTracker.FilterAppend | frontend/src/App.tsx:142 | filtering a concatenation is the concatenation of the filtered parts, so `filter` keeps list order |
| JobTracker.FindFirst | frontend/src/App.tsx:28 | `find` returns the first entry the predicate accepts: it is accepted, every earlier one is not, and none is accepted when nothing is returned |
| JobTracker.WithStatus | frontend/src/App.tsx:70-83 | `updateModStatus` keeps the length, ids and files; entries with another id are untouched; every entry with that id gets the status and has both optional fields overwritten by the arguments |
| JobTracker.WithStatusTwice | frontend/src/App.tsx:101-112 | a second status update of the same id overrides the first entirely (used for converting followed by completed/error) |
| JobTracker.Stats | frontend/src/App.tsx:145-152 | the four counters of `getQueueStats` add up to the list length |
| JobTracker.StatsTotal | frontend/src/App.tsx:145-152 | every entry is counted under exactly one of the four statuses |
| JobTracker.QueuedCountMeansFirstQueued | frontend/src/App.tsx:122 | some entry is queued (the `some` test) exactly when the queued counter is non-zero and exactly when `find` locates a queued entry |
| JobTracker.CountWithoutCompleted | frontend/src/App.tsx:141-143 | after clearing completed entries no entry is completed and each other status keeps its count |
| JobTracker.ClearCompletedStats | frontend/src/App.tsx:141-152 | `clearCompletedMods` zeroes the completed counter and keeps the other three |
| JobTracker.FilterKeepsUniqueIds | frontend/src/App.tsx:89 | removing entries never makes two ids equal |
| JobTracker.CountAbsent | frontend/src/App.tsx:145-152 | a status no entry has is counted zero times by the stats |
| JobTracker.WithStatusKeepsIds | frontend/src/App.tsx:70-83 | a status update keeps the ids distinct and non-empty |
| JobTracker.StartTakesSlot | frontend/src/App.tsx:92-101 | with the slot free and nothing converting, marking an entry converting makes its id the only converting one and the slot holder |
| JobTracker.SettleFreesSlot | frontend/src/App.tsx:103-116 | when the slot holder's entry leaves the converting status, nothing is converting and the slot is free |
| JobTracker.AtMostOneConverting | frontend/src/App.tsx:92-101 | with distinct ids and the single-slot rule, at most one entry is converting |
| JobTracker.Tracker.constructor | frontend/src/App.tsx:17-20 | empty list, no active job, batch mode off |
| JobTracker.Tracker.HandleFilesAdded | frontend/src/App.tsx:60-68 | one queued entry per file, with fresh ids, appended after the old entries, which keep their order |
| JobTracker.Tracker.UpdateModStatus | frontend/src/App.tsx:70-83 | the list becomes `WithStatus` of the old list; the flags are unchanged |
| JobTracker.Tracker.RemoveMod | frontend/src/App.tsx:85-90 | nothing changes for the active job's id; otherwise exactly the entries with that id are dropped |
| JobTracker.Tracker.BeginConversion | frontend/src/App.tsx:92-101 | starts exactly when nothing is converting and the first entry with the id is queued; then the slot holds the id and the entry is converting; otherwise nothing changes |
| JobTracker.Tracker.FinishConversion | frontend/src/App.tsx:103-116 | the active entry becomes completed with the `converted_file` value of the reply (no link when the reply lacks it), or error with the `Error` message (`Conversion failed` for other thrown values); the slot is released |
| JobTracker.Tracker.ConvertSingleMod | frontend/src/App.tsx:92-117 | a whole conversion: the guards, then the entry ends completed or error with the right fields, and the slot is free again |
| JobTracker.Tracker.StartBatchConversion | frontend/src/App.tsx:119-126 | batch mode turns on only when nothing is converting and some entry is queued |
| JobTracker.Tracker.ProcessNextInQueue | frontend/src/App.tsx:23-37 | in batch mode with the slot free, starts the first queued entry in list order, or leaves batch mode when none is queued; otherwise does nothing |
| JobTracker.Tracker.CancelConversion | frontend/src/App.tsx:128-139 | does nothing unless converting or batching; otherwise the active entry goes back to queued and all three flags are cleared |
| JobTracker.BatchRunsInListOrder | frontend/src/App.tsx:23-37 | an example run of two files added in batch mode: it ends with the first completed with its URL and the second converting and holding the slot |
| JobTracker.Tracker.ClearCompletedMods | frontend/src/App.tsx:141-143 | exactly the completed entries are dropped, the others keep their order |
| ConversionQueue.ConversionTask.constructor | backend/converter_app/views.py:66-77 | a new task is queued, without error or completion time, created now |
| ConversionQueue.RunOutcome | backend/converter_app/views.py:140-177 | a zero exit code with the output present completes; a non-zero code fails with the stripped stderr, or `Unknown error during conversion` when that is empty; a missing output, a timeout and any other exception fail with their messages |
| ConversionQueue.Settle | backend/converter_app/views.py:116-177 | a missing input file or tool stalls with its fixed message; an exception while preparing fails with its message; otherwise the run decides; the task completes exactly when everything succeeds |
| ConversionQueue.TaskQueue.constructor | backend/converter_app/views.py:80-83 | empty queue, free slot, empty history |
| ConversionQueue.TaskQueue.AddTask | backend/converter_app/views.py:88-93 | the task goes to the back of the queue and into the history under its id, which is returned |
| ConversionQueue.TaskQueue.GetTask | backend/converter_app/views.py:95-96 | no task exactly for an unknown id, otherwise the recorded one |
| ConversionQueue.TaskQueue.QueuedIds | backend/converter_app/views.py:103 | the ids of the queued tasks in FIFO order |
| ConversionQueue.TaskQueue.GetQueueStatus | backend/converter_app/views.py:98-104 | reports the queue length, the active id or null, and the queued ids in FIFO order |
| ConversionQueue.TaskQueue.TakeNext | backend/converter_app/views.py:109-117 | the front task is taken, occupies the slot and is marked processing exactly when the queue is non-empty and the slot free |
| ConversionQueue.TaskQueue.FinishCurrent | backend/converter_app/views.py:118-183 | the task in the slot settles; on the normal ending it gets its completion time and the slot is released; a missing input file or tool leaves it failed in the slot without a completion time |
| ConversionQueue.TaskQueue.WorkerIteration | backend/converter_app/views.py:106-183 | one worker pass keeps the queue invariant (only the task in the slot is ever processing); a settled task gets the status, the error and the completion time of `Settle`; a stall keeps the slot, so the queue no longer advances and the status view fails for that task |
| ConversionQueue.ClientIp | backend/converter_app/views.py:279-286 | a non-empty `X-Forwarded-For` gives its first comma-separated entry, stripped (no comma, no outer whitespace); otherwise `REMOTE_ADDR`, or the empty string |
| ConversionQueue.DownloadUrl | backend/converter_app/views.py:304-306 | the link is the download base followed by a path with no backslash, ending in `/` and the output file name |
| ConversionQueue.UploadPaths | backend/converter_app/views.py:214-253 | the output file sits in the upload's hash directory named `dt_` plus the upload's name, and its download link is `.../download/<hash>/dt_<name>` |
| ConversionQueue.QueuedReply | backend/converter_app/views.py:268-273 | an accepted upload is answered 200 with the task id, status `queued` and `check_status_url` `/api/task/<id>` |
| ConversionQueue.ConvertFilePost | backend/converter_app/views.py:195-277 | no file gives 400 `No file uploaded`; a failure to create the directory or to save gives 500 with the message and queues nothing; otherwise exactly one new task with these paths, name and client address is queued |
| ConversionQueue.StatusReply | backend/converter_app/views.py:296-313 | always `task_id`, `status`, `original_filename`, `created_at`; `download_url` exactly for completed tasks, `error` exactly for failed ones, `completed_at` for both; a finished task without completion time makes the view raise |
| ConversionQueue.GetTaskStatus | backend/converter_app/views.py:289-313 | an unknown id gives 404 `Task not found`, a known one its status reply |
| WinPath.Join | backend/converter_app/views.py:214 | `join` keeps both parts in order with exactly one separator between them: none added after an empty or separator-terminated first part, one added otherwise |
| WinPath.Dirname | backend/converter_app/views.py:304 | `dirname` is the prefix before the last backslash, or empty when there is none |
| WinPath.Basename | backend/converter_app/views.py:305 | `basename` is the suffix after the last backslash and holds no backslash |
| WinPath.LastSep | backend/converter_app/views.py:304-305 | finds the last backslash, or reports that there is none |
| WinPath.JoinSplits | backend/converter_app/views.py:220 | `dirname` and `basename` of a joined path give back the directory and the name |
| Text.Strip | backend/converter_app/views.py:157 | `strip()` never grows the string, is empty exactly for an all-whitespace input, and leaves no whitespace at either end |
| Text.StripIsTrimmedSlice | backend/converter_app/views.py:283 | `strip()` keeps one contiguous run of the input and removes only whitespace around it |
| Text.FirstField | backend/converter_app/views.py:283 | `split(sep)[0]` is the longest prefix without `sep` |
| Text.FirstListEntry | backend/storefront/middleware.py:11 | the first entry of a header list holds no comma and no outer whitespace |
| Accounts.MatchesPasswordPattern | backend/users/views.py:26 | a password the pattern accepts holds an ASCII letter and a digit, and no newline except possibly a final one |
| Accounts.ValidatePassword | backend/users/views.py:42-52 | the length message exactly when shorter than 6, the letter/number message exactly when the pattern fails, in that order; empty exactly when both rules hold |
| Accounts.PatternWithoutNewline | backend/users/views.py:26 | for a password without newlines the pattern means "has an ASCII letter and a digit" |
| Accounts.PatternStopsAtNewline | backend/users/views.py:26 | the pattern only looks at the first line: `abc\n123` fails although it has letters and digits |
| Accounts.BearerToken | backend/users/views.py:61-66 | a token exists exactly when the header starts with `Bearer ` and something follows; the header is the prefix plus the token |
| Accounts.BearerRoundTrip | backend/users/views.py:62-63 | a non-empty token sent as `Bearer <token>` is read back |
| Accounts.Authenticate | backend/users/views.py:54-79 | 401 `Authentication token is missing`, `has expired` or `Invalid authentication token` as the header and decoding decide; a token without its claims raises |
| Accounts.RegisterErrors | backend/users/views.py:117-131 | `user_name` is required or too short; `user_pass` is required or carries the password rule messages; each error is present exactly when its rule fails |
| Accounts.LoginErrors | backend/users/views.py:186-193 | only presence is checked: an error for exactly the missing or empty fields |
| Accounts.ChangePasswordErrors | backend/users/views.py:333-346 | current and new password required, the new one checked by the rules, and `confirm_password` flagged exactly when it differs from the new one |
| Accounts.RegisterAcceptsOnlyStrongPasswords | backend/users/views.py:117-133 | a registration that passes validation has a name of at least 3 characters and a password meeting both rules |
| Accounts.UserStore.constructor | backend/users/views.py:150 | the table starts empty with the id counter at 1 |
| Accounts.UserStore.NameOf | backend/users/views.py:354 | the row with a given id, found exactly when one exists |
| Accounts.UserStore.Register | backend/users/views.py:112-168 | no database gives 500; field errors give 400; an existing name gives 409 with a `user_name` error; all three leave the table unchanged; otherwise one row is added with the next id and the reply is 201 |
| Accounts.UserStore.Login | backend/users/views.py:181-233 | field errors give 400; an unknown name and a wrong password give the same 401 `Invalid username or password`; 200 only when the password checks against the stored hash |
| Accounts.UserStore.ChangePassword | backend/users/views.py:325-382 | authentication first, then database, then field errors, then 404 for a missing user and 400 for a wrong current password, all unchanged; success replaces only the caller's hash |
| Session.WithoutSession | frontend/src/components/AuthContext.tsx:61-62 | both session keys are removed and every other key is kept |
| Session.WithoutSessionIdempotent | frontend/src/components/AuthContext.tsx:60-66 | logging out twice leaves the storage as logging out once |
| Session.LocalStorage.SetItem | frontend/src/components/AuthContext.tsx:53 | `setItem` stores the value under the key |
| Session.LocalStorage.RemoveItem | frontend/src/components/AuthContext.tsx:61 | `removeItem` drops the key |
| Session.SessionStore.constructor | frontend/src/components/AuthContext.tsx:15-17 | signed out with empty token and name |
| Session.SessionStore.Restore | frontend/src/components/AuthContext.tsx:19-31 | the stored session is taken over exactly when both keys hold non-empty values; memory and storage stay in step |
| Session.SessionStore.Login | frontend/src/components/AuthContext.tsx:52-58 | both keys are written and the state is signed in with them, which brings memory and storage in step from any state |
| Session.SessionStore.Logout | frontend/src/components/AuthContext.tsx:60-66 | both keys are removed and the state is signed out, whatever it was |
| Session.SessionStore.ValidateToken | frontend/src/components/AuthContext.tsx:34-50 | a non-ok answer logs out; an ok answer or a network failure changes nothing |
| Session.LogoutTwice | frontend/src/components/AuthContext.tsx:60-66 | a second logout ends where the first did |
| AuthForm.Digits | frontend/src/components/User/AuthModel.tsx:79 | the decimal rendering of a number is a non-empty string of digits |
| AuthForm.DigitsRoundTrip | frontend/src/components/User/AuthModel.tsx:79 | the rendering denotes the number it renders, with no leading zero |
| AuthForm.JsString | frontend/src/components/User/AuthModel.tsx:79-80 | the stored string is the value itself for a string and `undefined` for a missing value |
| AuthForm.ChosenUsername | frontend/src/components/User/AuthModel.tsx:80 | the reply's `user.username` when it is a non-empty string; the typed name when the reply has no user or a falsy name |
| AuthForm.FieldMessages | frontend/src/components/User/AuthModel.tsx:14-20 | nothing for a falsy field error; the elements of an array; otherwise the single value as a one-element list |
| AuthForm.FieldMessagesOfBackendErrors | frontend/src/components/User/AuthModel.tsx:14-20 | the backend's string and list errors show as one message and as their messages in order; an absent field shows nothing |
| AuthForm.ClassifyFailure | frontend/src/components/User/AuthModel.tsx:61-76 | a null body throws; truthy `errors` become the field errors; else truthy `error` the general error; else `An unexpected error occurred` |
| AuthForm.BackendRejectionsAreShown | frontend/src/components/User/AuthModel.tsx:63-76 | a registration rejected with field errors fills the field errors with each failed password rule under the password; a failed login shows its message as the general error |
| AuthForm.AuthModal.constructor | frontend/src/components/User/AuthModel.tsx:6-11 | empty fields, no errors, not loading |
| AuthForm.AuthModal.ClearErrors | frontend/src/components/User/AuthModel.tsx:30-33 | both kinds of error are cleared, nothing else changes |
| AuthForm.AuthModal.ResetForm | frontend/src/components/User/AuthModel.tsx:100-105 | the three fields are emptied and the errors cleared |
| AuthForm.AuthModal.Submit | frontend/src/components/User/AuthModel.tsx:35-97 | errors are cleared first; in register mode a mismatch sets only `confirm_password` and sends nothing; a failure is classified; a thrown fetch, a non-JSON or null body give the network message; success stores the token and the user name (or the typed one) and clears the fields; loading always ends |
| AuthForm.SubmitAndLogin | frontend/src/components/User/AuthModel.tsx:79-83 | after a successful submit and the `onSuccess` login, the session is signed in with exactly what the dialog stored |
| ForwardedFor.Rewrite | backend/storefront/middleware.py:8-12 | with a non-empty header `REMOTE_ADDR` becomes its first entry, stripped; without one the `META` is unchanged; no other key changes |
| ForwardedFor.RewrittenAddressIsClean | backend/storefront/middleware.py:11 | the new address has no comma and no outer whitespace |
| ForwardedFor.ClientIpAgrees | backend/storefront/middleware.py:7-13 | after the rewrite the converter's client-address lookup gives the same address, and it equals the new `REMOTE_ADDR` |
| ForwardedFor.Request.constructor | backend/storefront/middleware.py:7 | the request carries the given `META` |
| ForwardedFor.Middleware.constructor | backend/storefront/middleware.py:4-5 | no handler call yet |
| ForwardedFor.Middleware.Call | backend/storefront/middleware.py:7-13 | `META` is rewritten in place, then the next handler is called exactly once with the rewritten request and its response returned |

## Left out

- Threads and locks. The worker thread, `threading.Lock` and the `time.sleep` loop are out; one worker pass is a sequential method. Because of this, a status read that races the worker between `status = "completed"` and `completed_at = now` (which would raise) is not modelled.
- The conversion tool, the PowerShell drive mount, the file writes, `os.path.exists`, `os.path.getsize` and `file_hash`. They are outside code and appear as parameters. The upload-size and speed logging and all logging in general are out as well.
- The React effect scheduling. `ProcessNextInQueue` is one run of the effect; the model does not capture when React runs it.
- JobTracker.Tracker.ConvertSingleMod: the conversion is atomic. A cancelled conversion whose request settles later would still mark the entry completed or error; this depends on the interleaving of promises and is left out. `FinishConversion` requires the slot to be held.
- JobTracker.Tracker.HandleFilesAdded: ids come from `Math.random`. The model takes them as a parameter and requires them to be fresh, distinct and non-empty, which the source does not guarantee.
- The HTTP details of `convertFile` (its URL, form data and error body), of `validateToken` and of the dialog's `fetch`. They become outcome values.
- `UserDetails` and `UserDownloads`. They only read the database and are not part of this model.
- The database exceptions caught by `handle_db_connection` (`A database error occurred`) and the generic `except Exception` replies of the account views are not modelled. Only the failure to connect is modelled, as the `connected` flag.
- The JWT signing and expiry times, and the bcrypt salt. Issued tokens and hashes are parameters, and `checkpw` is the `check` function.
- Accounts.MatchesPasswordPattern: `\d` is taken as the ASCII digits, while Python's `re` on `str` also accepts other Unicode decimal digits.
- AuthForm.AuthModal.Submit: the credentials handed to `onSuccess` are the strings the dialog stores. The source hands over the raw `data.token` and the raw `data.user?.username || username`, which differ when the server sends a token or a user name that is not a string.
- The rendering of the dialog, of the mod list and of the queue (JSX). The `onClose` callback is out too.
- `ConvertFileView.post`: the md5 hash directory name and the `uuid4` task id are parameters. The size-mismatch warning after saving is out, since it only logs.
- AuthForm.Digits: JSON numbers are integers here, and `String(n)` is written out in full. JavaScript switches to exponent form (`1e+21`) from 10^21 on and renders fractions, neither of which the model does.
- WinPath.Join, WinPath.Dirname, WinPath.Basename: only the backslash separates. Windows `os.path` also splits on `/` and handles drive letters, roots and repeated separators. The converter only joins its base directory with a hash and an upload name; the model assumes these hold no separator of either kind, as Django's upload-name sanitising gives.
