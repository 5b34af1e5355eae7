/**
 * The persisted records of streams/models.py: accounts with their approval
 * and admin flags, streaming keys, and the `Live` broadcast record whose
 * `status` / `ffmpeg_pid` pair is the lifecycle state machine.
 */
module Models {
  import opened Wrappers

  type UserId = nat
  type KeyId = nat
  type LiveId = nat

  /** Timestamps are seconds on one clock; only their order matters here. */
  type Time = int

  /** An operating-system process id as `Popen` hands it back: always positive. */
  type Pid = p: int | p > 0 witness 1

  /** An account; `is_admin` and `is_approved` default to False. */
  datatype User = User(username: string, email: string, isAdmin: bool, isApproved: bool)

  /** A streaming key owned by a user; `platform` is one of the declared choices. */
  datatype StreamKey = StreamKey(user: UserId, name: string, key: string, platform: string, isActive: bool)

  /** The four declared values of `Live.status`. */
  datatype Status = Pending | Running | Completed | Failed

  /**
   * A broadcast record. `videoFile` is the resolved path of the uploaded
   * file, empty when no file is attached; `streamKey` is a nullable
   * foreign key; `ffmpegPid` is the nullable integer column.
   */
  datatype Live = Live(
    user: UserId,
    title: string,
    videoFile: string,
    streamKey: Option<KeyId>,
    scheduledAt: Option<Time>,
    isScheduled: bool,
    status: Status,
    ffmpegPid: Option<int>)

  /** The three tables the core reads and writes, keyed by primary key. */
  datatype Db = Db(users: map<UserId, User>, keys: map<KeyId, StreamKey>, lives: map<LiveId, Live>)

  /** The code stored in the `status` column for each choice. */
  function StatusCode(s: Status): string
  {
    match s
    case Pending => "pending"
    case Running => "running"
    case Completed => "completed"
    case Failed => "failed"
  }

  const StatusChoices: seq<string> := ["pending", "running", "completed", "failed"]

  /** Reads a stored status code back; only the four declared codes are accepted. */
  function ParseStatus(code: string): (r: Option<Status>)
    ensures r.Some? <==> code in StatusChoices
    ensures r.Some? ==> StatusCode(r.value) == code
    ensures forall s: Status :: StatusCode(s) == code ==> r == Some(s)
  {
    if code == "pending" then Some(Pending)
    else if code == "running" then Some(Running)
    else if code == "completed" then Some(Completed)
    else if code == "failed" then Some(Failed)
    else None
  }

  /** Every status value is stored as one of the declared codes, and distinct
      statuses are stored as distinct codes. */
  lemma StatusCodeDeclared(s: Status, s': Status)
    ensures StatusCode(s) in StatusChoices
    ensures ParseStatus(StatusCode(s)) == Some(s)
    ensures StatusCode(s) == StatusCode(s') ==> s == s'
  {
  }

  /** Python truthiness of the nullable pid column: `None` and `0` are both "no pid". */
  predicate PidSet(pid: Option<int>)
  {
    pid.Some? && pid.value != 0
  }

  /** `Live.is_running`: the stored status code is "running". */
  function IsRunning(l: Live): (b: bool)
    ensures b <==> StatusCode(l.status) == "running"
  {
    l.status == Running
  }

  /** `Live.can_start`: the stored status code is "pending" and the owner is approved. */
  function CanStart(l: Live, owner: User): (b: bool)
    ensures b <==> StatusCode(l.status) == "pending" && owner.isApproved
    ensures b ==> !IsRunning(l)
  {
    l.status == Pending && owner.isApproved
  }

  /** A live the database creates from form data: the `status` default and a null pid. */
  function NewLive(user: UserId, title: string, videoFile: string, streamKey: Option<KeyId>,
                   scheduledAt: Option<Time>, isScheduled: bool): (l: Live)
    ensures l.status == Pending && l.ffmpegPid.None?
    ensures !IsRunning(l) && !PidSet(l.ffmpegPid)
    ensures l.user == user && l.title == title && l.videoFile == videoFile
    ensures l.streamKey == streamKey && l.scheduledAt == scheduledAt && l.isScheduled == isScheduled
  {
    Live(user, title, videoFile, streamKey, scheduledAt, isScheduled, Pending, None)
  }

  const PlatformChoices: seq<string> := ["YouTube", "Twitch", "Facebook", "Instagram", "TikTok", "Autre"]

  /** A streaming key created without explicit platform or flag. */
  function NewStreamKey(user: UserId, name: string, key: string): (k: StreamKey)
    ensures k.isActive
    ensures k.platform == PlatformChoices[0] && k.platform in PlatformChoices
    ensures k.user == user && k.name == name && k.key == key
  {
    StreamKey(user, name, key, "YouTube", true)
  }

  /** An account created without explicit flags: neither admin nor approved. */
  function NewUser(username: string, email: string): (u: User)
    ensures !u.isAdmin && !u.isApproved
    ensures u.username == username && u.email == email
  {
    User(username, email, false, false)
  }

  /**
   * The lifecycle invariant: a pid is recorded exactly while the live is
   * running. The start task writes the pid together with `running`, and the
   * stop task and the sweeps clear it together with `completed`; the
   * manual handlers do not keep it.
   */
  predicate PidMatchesStatus(l: Live)
  {
    l.ffmpegPid.Some? <==> l.status == Running
  }

  predicate AllPidsMatchStatus(lives: map<LiveId, Live>)
  {
    forall id :: id in lives ==> PidMatchesStatus(lives[id])
  }

  /** A new live satisfies the lifecycle invariant. */
  lemma NewLiveMatchesStatus(user: UserId, title: string, videoFile: string, streamKey: Option<KeyId>,
                             scheduledAt: Option<Time>, isScheduled: bool)
    ensures PidMatchesStatus(NewLive(user, title, videoFile, streamKey, scheduledAt, isScheduled))
  {
  }
}
