# LiveManager broadcast lifecycle — a Dafny model

LiveManager schedules pre-recorded videos and pushes them to a streaming
platform over RTMP. Each broadcast is a `Live` record. A `Live` has a status
(`pending`, `running`, `completed`, `failed`) and a nullable `ffmpeg_pid` that
names the transcoder process pushing the stream.

This project models the code that moves a `Live` between those states:

- the record and its predicates (`models.py`);
- the background tasks that spawn and kill the transcoder, and the scheduler
  query that picks the lives that are due (`tasks.py`);
- the reconciliation script that compares running lives with the process
  table (`manage_ffmpeg.py`);
- the manual start/stop handlers and the account-flag handlers (`views.py`);
- the live-form validation rule and registration save (`forms.py`);
- the rsync upload with its bounded retry loop (`upload_rsync.py`).

The database is three maps keyed by primary key (`Models.Db`): users, stream
keys and lives. Every operation is a pure function or method over these maps.
Operating-system effects are inputs:

- `Popen` either hands back a pid or raises (`Tasks.Spawn`);
- `os.kill` delivers the signal, finds no such process, or fails otherwise (`Tasks.Kill`);
- a `psutil` probe reports a process as alive, exited or gone (`Sweep.Probe`);
- `terminate` signals the process, finds it gone, or is refused (`Sweep.Terminate`);
- each rsync attempt has an outcome indexed by attempt number (`Rsync.Attempt`);
- the task queue behind `.delay` is reachable or not (`brokerUp`).

A pid counts as "set" the way Python's truthiness reads it: `None` and `0` are
both "no pid" (`Models.PidSet`).

Modules: `Wrappers` (option/result types), `Text` (ASCII lower-casing,
substring search, decimal text of integers), `Models`, `Tasks`, `Sweep`,
`Views`, `Forms`, `Rsync`. There is one file per module.

The start task saves the pid together with `running` (streams/tasks.py:56-58),
and the stop task and the sweeps clear it together with `completed`
(streams/tasks.py:92-94, manage_ffmpeg.py:56-57, 110-111). Together these
suggest an invariant: a pid is recorded exactly while a live is running
(`Models.PidMatchesStatus`). The code does not keep it everywhere, so the
model does not assume it:

- the manual start handler sets `running` with no pid;
- the manual stop handler leaves the pid alone;
- the `check` sweep skips running lives without a pid.

What is proved is that the corrected start task, the stop task, the `check`
sweep and `kill-all` preserve the invariant. `Views.StartLiveRecordsNoPid`
shows the manual start leaving it.

Some behaviour one might expect is absent from the code, and the model
follows the code:

- the start task does not check the owner's approval, the key's `is_active`
  flag, or whether the video file exists on disk;
- stopping sends SIGKILL straight away; there is no graceful termination;
- the `check` sweep leaves a running live with no pid unchanged instead of
  completing it;
- there is no restart operation.

The stored pid is taken to be the transcoder's own pid. The spawn oracle hands
back one pid, and stop, `check` and `clean` all act on that pid.

## Model

| member | source | states |
|---|---|---|
| Models.ParseStatus | streams/models.py:56-61 | Only the four declared status codes read back as a status, and each reads back to the status stored under it |
| Models.StatusCodeDeclared | streams/models.py:56-61 | Every status is stored as a declared code, and distinct statuses get distinct codes |
| Models.IsRunning | streams/models.py:94-97 | `is_running` holds exactly when the stored code is "running" |
| Models.CanStart | streams/models.py:99-102 | `can_start` holds exactly when the code is "pending" and the owner is approved, so a startable live is never running |
| Models.NewLive | streams/models.py:79-82 | A new live is pending with a null pid, keeping the form's fields |
| Models.NewLiveMatchesStatus | streams/models.py:79-82 | A new live satisfies the pid/status invariant |
| Models.NewStreamKey | streams/models.py:34-40 | A new key is active and its platform is "YouTube", the first declared choice |
| Models.NewUser | streams/models.py:8-9 | A new account is neither admin nor approved |
| Tasks.FfmpegArgs | streams/tasks.py:24-45 | The command has 36 tokens: `setsid`, the ffmpeg path, `-re`, sixteen option pairs that read back as the transcode options, and the URL last |
| Tasks.TranscodeProfile | streams/tasks.py:24-45 | Read as flag/value pairs, the options loop the input, take it from the video path only, and carry 500k/800k/1200k video at 640x360 with GOP 60, 96k AAC, FLV and the reconnect settings |
| Tasks.StreamKeyText | streams/models.py:49-50 | The printed stream key is "None" for a null key. Otherwise it exists exactly when the key row and its owner exist, and then it is "<key name> - <owner email>" |
| Tasks.IngestUrlAsWritten | streams/tasks.py:44 | The built URL is the ingest prefix followed by the printed stream key |
| Tasks.AsWrittenUrlCarriesDisplayText | streams/tasks.py:44 | For a key named "main" that stores the ingest URL ".../live2/abcd", the built URL ends in "main - a@b.c" and differs from the stored one; with no key it ends in "None", where the corrected URL is absent |
| Tasks.IngestUrl | streams/tasks.py:44 | Corrected: the URL is the ingest URL stored in the key row's `key` field, and there is none without a resolvable key. This reads `key` as a full RTMP URL, which is how the repository's scripts store it (test_stream_keys.py:35) |
| Tasks.IngestUrlReadsOnlyTheKey | streams/tasks.py:44 | The corrected URL depends only on the key row's `key` field, not on the key's name or its owner |
| Tasks.StartLiveStreamAsWritten | streams/tasks.py:12-73 | An unknown id raises with no change, and a non-pending live returns False untouched. The command is built, with the printed-key URL, exactly when a pending live has a video and its key prints. It returns True, saved running with the spawned pid and the admin job enqueued, exactly when the spawn and the queue also succeed. Every other pending case is saved failed and keeps its old pid, or the spawned pid when only the queue failed. An unreachable queue makes the task raise. No other record changes |
| Tasks.BrokerDownLeavesFailedLiveWithPid | streams/tasks.py:55-73 | A successful spawn followed by an unreachable queue leaves a failed live holding pid 4242, breaking the invariant |
| Tasks.StartLiveStream | streams/tasks.py:12-73 | Corrected: nothing is spawned unless the live is pending. It returns True, running with the spawned pid, exactly when video, key and spawn succeed, whatever the queue does. Every other pending case returns False, failed with no pid. A known id never raises, and no other record changes |
| Tasks.StartPreservesPidInvariant | streams/tasks.py:55-73 | The corrected start keeps every live's pid in step with its status |
| Tasks.StopLiveStream | streams/tasks.py:77-99 | Only a running live with a truthy pid is signalled. It ends completed with the pid cleared even when the process is gone; only an unexpected kill error returns False, with no write |
| Tasks.StopPreservesPidInvariant | streams/tasks.py:91-96 | Stopping keeps every live's pid in step with its status |
| Tasks.StartTwiceSpawnsOnce | streams/tasks.py:17-18 | For the task as written and the corrected one: a second start of the same live, after any first run, returns False, builds no command and writes nothing. A live is spawned at most once |
| Tasks.StartThenStopCompletes | streams/tasks.py:55-96 | A successful start followed by a stop signals the spawned pid and leaves the live completed with no pid. This holds for the task as written when its URL builds and the queue is up, and for the corrected task when the key resolves |
| Tasks.DueLives | streams/tasks.py:154-166 | The scheduler enqueues exactly the scheduled, pending lives whose date is set and not after now |
| Tasks.DueLivesMonotonic | streams/tasks.py:159-163 | A live due at one time is still due later if nothing else changed |
| Tasks.StartedLiveLeavesDueSet | streams/tasks.py:159-166 | For the task as written, which the scheduler enqueues, and for the corrected one: every enqueued start passes the pending check. Afterwards the live is running or failed and is never due again, so it is started once. With the queue up, each returns True exactly when the live ends running |
| Text.IContains | streams/views.py:140 | Case-insensitive containment holds exactly when the lower-cased needle occurs at some position of the lower-cased text |
| Sweep.IsFfmpeg | manage_ffmpeg.py:27 | A process counts as ffmpeg exactly when its name is readable and some six-character window lower-cases to "ffmpeg" |
| Sweep.IsFfmpegExamples | manage_ffmpeg.py:27 | "FFmpeg" and "/opt/ffmpeg-6" count; "ffprobe" and an unreadable name do not |
| Sweep.FfmpegProcs | manage_ffmpeg.py:20-32 | The listing keeps exactly the ffmpeg entries of the process table |
| Sweep.FfmpegProcsAppend | manage_ffmpeg.py:25-28 | The listing keeps table order: listing two runs of the table in turn gives the listing of the whole table |
| Sweep.Reconcile | manage_ffmpeg.py:40-66 | Only a running live with a truthy pid can change. It is kept exactly when its process probes alive; otherwise it becomes completed with no pid |
| Sweep.ReconcileIdempotent | manage_ffmpeg.py:46-66 | A second `check` over the same process table changes nothing more |
| Sweep.CheckLiveProcesses | manage_ffmpeg.py:35-66 | The sweep changes only running lives, only by completing them and clearing the pid, and preserves the pid/status invariant |
| Sweep.RunningPids | manage_ffmpeg.py:75-76 | The protected pids are exactly the truthy (non-null, non-zero) pids of running lives |
| Sweep.OrphanPids | manage_ffmpeg.py:79-80 | A pid is an orphan exactly when some listed process has it and no running live owns it |
| Sweep.OrphanPidsPrefix | manage_ffmpeg.py:79-80 | The orphans of a prefix of the process list are a prefix of the list's orphans |
| Sweep.CountTerminated | manage_ffmpeg.py:82-86 | The reported count never exceeds the number of termination attempts |
| Sweep.TerminateEach | manage_ffmpeg.py:98-104 | Terminating a list in turn reaches a prefix of it. The sweep aborts exactly when the last pid reached was refused, reaches the whole list when it does not abort, and counts the signalled processes among those reached |
| Sweep.TerminateEachFirstDenial | manage_ffmpeg.py:98-104 | The sweep aborts exactly when some pid of the list is refused, and no pid before the last one reached was refused, so it stops at the first refusal |
| Sweep.TerminateEachStopsAtDenial | manage_ffmpeg.py:79-86 | Once a prefix of the list was refused, the rest of the list is never reached |
| Sweep.TerminateUnowned | manage_ffmpeg.py:78-86 | The loop's attempts, count and abort are those of terminating the orphan pids in turn |
| Sweep.KillOrphanProcesses | manage_ffmpeg.py:70-88 | `clean` terminates, in list order, the ffmpeg processes that are not a running live's stored pid, stopping after the first refusal. The count is at most the number of ffmpeg processes |
| Sweep.OrphanSweepSparesRunning | manage_ffmpeg.py:76-86 | `clean` never terminates a process at a running live's stored pid. Without a refusal it reaches every unowned ffmpeg process |
| Sweep.CompleteRunning | manage_ffmpeg.py:109-112 | After the bulk update no live is running; formerly running lives are completed with no pid, the others are unchanged, and the invariant is preserved |
| Sweep.KillAllFfmpeg | manage_ffmpeg.py:91-113 | `kill-all` terminates the ffmpeg processes in listing order and aborts exactly when one is refused. The pids reached end at the first refused one, and none before it was refused. A refusal ends it before the bulk update and leaves every live as it was. Otherwise every ffmpeg process is reached and no live is left running |
| Sweep.ConfirmationIsY | manage_ffmpeg.py:145 | The confirmation lower-cases to "y" exactly for "y" and "Y" |
| Sweep.RunCommand | manage_ffmpeg.py:116-151 | With no command, `list`, an unknown command or a refused confirmation, nothing changes. `check` reconciles every live and terminates nothing; `clean` and confirmed `kill-all` run their sweeps, and `clean` never changes a live. Every path keeps the ids and the invariant |
| Views.StartLive | streams/views.py:85-96 | Another user's or an unknown live gives 404. A live that cannot start is left as it was. A startable live becomes running and nothing else changes, its pid included |
| Views.StartLiveRecordsNoPid | streams/views.py:92-94 | The manual start leaves a fresh live running with no pid, outside the invariant |
| Views.StopLive | streams/views.py:101-112 | 404 unless the requester owns the live. A live that is not running is left as it was. A running live becomes completed with its pid untouched |
| Views.StartThenStopLive | streams/views.py:85-112 | A manual start then a manual stop by the owner leaves a startable live completed |
| Views.ApproveUser | streams/views.py:173-180 | 404 for an unknown account; otherwise only that account's approval flag changes, to true |
| Views.RejectUser | streams/views.py:185-192 | 404 for an unknown account; otherwise only that account's approval flag changes, to false |
| Views.ToggleAdmin | streams/views.py:197-205 | 404 for an unknown account; otherwise only that account's admin flag changes, to its negation |
| Views.ApproveIdempotent | streams/views.py:176 | Approving twice is approving once |
| Views.RejectOverridesApprove | streams/views.py:188 | Rejecting after approving is the same as only rejecting |
| Views.ToggleAdminTwice | streams/views.py:200 | Toggling the admin flag twice restores the original database |
| Views.ApprovalEnablesStart | streams/views.py:89 | After approval the owner's pending live can be started manually; after rejection it cannot |
| Views.Filter | streams/views.py:143-148 | A filter keeps exactly the rows satisfying its predicate, never more rows than it was given |
| Views.FilterTwice | streams/views.py:139-148 | Filtering by the search and then by the status selector is filtering once by both, with the rows kept in the same order |
| Views.FilterAppend | streams/views.py:143-148 | Filtering keeps row order: filtering two runs of rows in turn gives the filter of all of them |
| Views.FilterComplement | streams/views.py:152-153 | A predicate's rows and its complement's rows together number all the rows |
| Views.AdminUsers | streams/views.py:130-168 | The listing is the given rows, in order, that match the search (when one is given) and the status selector. The statistics count the whole table whatever the search or selector: the total is every account, and pending, approved and admin are the counts of unapproved, approved and admin accounts. Pending and approved sum to the total, and with no search each selector lists as many accounts as its statistic |
| Forms.CleanLiveForm | streams/forms.py:42-52 | Input is rejected exactly when it is scheduled without a date, with the schedule message; accepted input is returned unchanged |
| Forms.AcceptedScheduledLiveBecomesDue | streams/forms.py:47-50 | An accepted scheduled live has a date and becomes due exactly from that date on |
| Forms.SaveRegistration | streams/forms.py:14-19 | The account carries the cleaned email and starts unapproved and non-admin. It is stored under the fresh id only when `commit` is true, and the table is untouched otherwise |
| Forms.RegisteredUserCannotStart | streams/forms.py:14-19 | A freshly registered account cannot start any live until it is approved |
| Text.IntToString | streams/upload_rsync.py:34-80 | The text of an integer, as printed in the timeout option, the attempt, return-code and timeout messages and the final message, is canonical signed decimal. It has a minus sign exactly for negative values and no leading zero except in "0" |
| Text.IntToStringRoundTrip | streams/upload_rsync.py:34-80 | Reading back the text of an integer gives the integer |
| Rsync.RsyncArgs | streams/upload_rsync.py:28-37 | The command starts with `rsync`, has eight tokens and includes `-avz` (archive mode with compression), `--progress`, `--timeout=<timeout>`, `--partial` and `--inplace`. It ends with the local file then `user@host:path` |
| Rsync.UploadWithRsync | streams/upload_rsync.py:7-80 | A missing file or missing rsync binary fails with no attempt. At most `max_retries` attempts are made, and each one before the last was retryable. Success comes exactly from an attempt that exits 0, and any other exception stops at once with its text. A final timeout or nonzero exit reports its own message; the "gave up" message comes only when `max_retries < 1` |

## Findings

| source | as written | input that shows it | evidently intended | confidence | as-written member | corrected member |
|---|---|---|---|---|---|---|
| streams/tasks.py:44 | The output URL interpolates the `stream_key` foreign key. It prints as "<key name> - <owner email>", or "None" when the live has no key | key named "main" storing "rtmp://a.rtmp.youtube.com/live2/abcd", owned by "a@b.c": the URL is "rtmp://a.rtmp.youtube.com/live2/main - a@b.c" | the stream goes to the ingest URL stored in the key (`key` holds a full RTMP URL in the repository's scripts, test_stream_keys.py:35); a live without a key is not streamed | high that the as-written URL is wrong; medium on the stored format; not executed | Tasks.IngestUrlAsWritten (text fixed by Tasks.StreamKeyText, shown by Tasks.AsWrittenUrlCarriesDisplayText) | Tasks.IngestUrl |
| streams/tasks.py:55-73 | The pid is saved first and the admin notification is enqueued afterwards. If enqueuing raises, the handler saves the live as failed and keeps the pid | pending live, spawn returns 4242, task queue unreachable: the live ends `failed` with `ffmpeg_pid` 4242 while the transcoder keeps streaming | a notification that cannot be enqueued does not fail the start: the live stays running with its pid and the task returns True (the notification tasks swallow their own errors, streams/tasks.py:125-126, 149-150). A start that does fail records no pid | medium, not executed | Tasks.StartLiveStreamAsWritten (shown by Tasks.BrokerDownLeavesFailedLiveWithPid) | Tasks.StartLiveStream (proved by Tasks.StartPreservesPidInvariant and Tasks.StartedLiveLeavesDueSet) |

The rest of the model uses the corrected `Tasks.StartLiveStream`.

## Left out

- Real process control (`subprocess.Popen`, `os.setsid`, `os.kill`, `psutil`): modelled as oracle inputs. The spawned process's output pipes are not modelled.
- The email notification tasks `send_admin_notification` and `send_error_notification`: they only send mail and swallow every error. The model keeps only which job was enqueued (`Tasks.Notice`). The corrected start also treats a failed enqueue as best effort.
- Celery queueing: `.delay` is modelled as an entry in the enqueued-job list (`Tasks.Notice`) or, for the scheduler, as the set of due ids. The task queue is a boolean oracle.
- Tasks.StartLiveStream: when the live id is unknown, the source's handler reads an unbound variable. This is modelled as `Raised` with nothing written.
- Saves that fail, and transactions: every write is an atomic map update.
- Concurrency between start, stop and the sweeps: the code has no locking, and the model runs each operation as one sequential step.
- Storage path resolution of `video_file`: `Live.videoFile` holds the resolved path, and the empty string stands for "no file attached".
- Timestamps `created_at` and `updated_at`, and query ordering by `-created_at` or `-date_joined`: the order of rows is an input, and ids are map keys.
- Text.IContains: lower-cases ASCII letters only. The admin search is Django's `icontains`, whose folding of non-ASCII letters depends on the database, so a search involving non-ASCII letters may match differently.
- Sweep.IsFfmpeg and Sweep.ConfirmationIsY also lower-case ASCII letters only. No non-ASCII character lower-cases to any of the letters of "ffmpeg" or to "y", so both agree with Python's `str.lower` on every input.
- Sweep.CheckLiveProcesses: `psutil.Process` raising `ValueError` for a negative stored pid is not modelled; the probe oracle covers only alive, exited and gone.
- Sweep.OrphanSweepSparesRunning: treats the stored pid as the transcoder's pid. The task runs `setsid ffmpeg …` from a child that `preexec_fn=os.setsid` has already made a process-group leader (streams/tasks.py:25, 52). On that reading `setsid(1)` forks, so ffmpeg may run under another pid, and `clean` could then terminate a running live's actual transcoder. The model only promises never to terminate a process at a running live's stored pid.
- The `list` command prints the ffmpeg processes with their command lines; the model records only that nothing changes.
- Rsync.UploadWithRsync: the attempt oracle does not receive the command or the per-attempt timeout, and the pause between attempts is not modelled.
- Django plumbing: authentication decorators (`login_required`, the admin test), templates, flash messages, URL routing, admin registration and migrations.
- The other handlers in `views.py` (`home`, `register`, `dashboard`, `create_live`, `admin_dashboard`, `delete_user`, `logout_view`) and the diagnostic and test scripts: outside the lifecycle core.
