/**
 * The background tasks of streams/tasks.py: the transcoder command line,
 * `start_live_stream`, `stop_live_stream` and `check_scheduled_lives`.
 *
 * Operating-system effects are oracle inputs: whether `Popen` returns a
 * pid or raises, whether `os.kill` finds the process, and whether the task
 * queue accepts the notification jobs enqueued with `.delay`.
 */
module Tasks {
  import opened Wrappers
  import opened Models

  /** The fixed ingest endpoint every stream is pushed to. */
  const IngestPrefix: string := "rtmp://a.rtmp.youtube.com/live2/"

  /** Reads an argument list as consecutive (flag, value) pairs. */
  function Pairs(s: seq<string>): (ps: seq<(string, string)>)
    ensures |ps| == |s| / 2
    ensures forall k :: 0 <= k < |ps| ==> ps[k] == (s[2 * k], s[2 * k + 1])
  {
    seq(|s| / 2, k requires 0 <= k < |s| / 2 => (s[2 * k], s[2 * k + 1]))
  }

  /** Writes (flag, value) pairs out as one flat argument list. */
  function Flatten(ps: seq<(string, string)>): (s: seq<string>)
    ensures |s| == 2 * |ps|
  {
    seq(2 * |ps|, i requires 0 <= i < 2 * |ps| => if i % 2 == 0 then ps[i / 2].0 else ps[i / 2].1)
  }

  /** Reading a flattened option list back as pairs gives the pairs. */
  lemma PairsFlatten(ps: seq<(string, string)>)
    ensures Pairs(Flatten(ps)) == ps
  {
  }

  predicate IsFlag(a: string)
  {
    |a| >= 2 && a[0] == '-'
  }

  /** The sixteen option pairs between `-re` and the output URL. */
  function TranscodeOptions(video: string): seq<(string, string)>
  {
    [ ("-stream_loop", "-1"),
      ("-i", video),
      ("-c:v", "libx264"),
      ("-preset", "ultrafast"),
      ("-b:v", "500k"),
      ("-maxrate", "800k"),
      ("-bufsize", "1200k"),
      ("-s", "640x360"),
      ("-g", "60"),
      ("-keyint_min", "60"),
      ("-c:a", "aac"),
      ("-b:a", "96k"),
      ("-f", "flv"),
      ("-reconnect", "1"),
      ("-reconnect_streamed", "1"),
      ("-reconnect_delay_max", "2") ]
  }

  /**
   * Read as flag/value pairs, the options loop the input forever, take it
   * from the video path, and carry the bounded profile: 500k video (max
   * 800k, buffer 1200k) at 640x360 with GOP 60, 96k AAC audio, the FLV
   * muxer and reconnect settings. Every flag slot holds a flag and `-i`
   * appears once, so the video path is the only input.
   */
  lemma TranscodeProfile(video: string)
    ensures var ps := TranscodeOptions(video);
      && |ps| == 16
      && (forall k :: 0 <= k < |ps| ==> IsFlag(ps[k].0))
      && (forall k :: 0 <= k < |ps| && ps[k].0 == "-i" ==> k == 1 && ps[k].1 == video)
      && ps[0] == ("-stream_loop", "-1")
      && ("-c:v", "libx264") in ps && ("-preset", "ultrafast") in ps
      && ("-b:v", "500k") in ps && ("-maxrate", "800k") in ps
      && ("-bufsize", "1200k") in ps && ("-s", "640x360") in ps
      && ("-g", "60") in ps && ("-keyint_min", "60") in ps
      && ("-c:a", "aac") in ps && ("-b:a", "96k") in ps
      && ("-f", "flv") in ps
      && ("-reconnect", "1") in ps && ("-reconnect_streamed", "1") in ps
      && ("-reconnect_delay_max", "2") in ps
  {
  }

  /**
   * The transcoder invocation: `setsid`, the ffmpeg binary, `-re`, the
   * option pairs, and the output URL last. Its middle part reads back as
   * exactly the transcode options.
   */
  function FfmpegArgs(ffmpegPath: string, video: string, url: string): (r: seq<string>)
    ensures |r| == 36
    ensures r[0] == "setsid" && r[1] == ffmpegPath && r[2] == "-re" && r[35] == url
    ensures Pairs(r[3..35]) == TranscodeOptions(video)
  {
    var options := Flatten(TranscodeOptions(video));
    PairsFlatten(TranscodeOptions(video));
    var r := ["setsid", ffmpegPath, "-re"] + options + [url];
    assert r[3..35] == options;
    r
  }

  /** `str(live.stream_key)`: `StreamKey.__str__` is "<name> - <owner email>",
      and a null key prints as "None". A dangling foreign key raises. */
  function StreamKeyText(db: Db, key: Option<KeyId>): (t: Option<string>)
    ensures key.None? ==> t == Some("None")
    ensures key.Some? ==> (t.Some? <==> key.value in db.keys && db.keys[key.value].user in db.users)
    ensures key.Some? && t.Some? ==> t.value == db.keys[key.value].name + " - " + db.users[db.keys[key.value].user].email
  {
    match key
    case None => Some("None")
    case Some(k) =>
      if k in db.keys && db.keys[k].user in db.users
      then Some(db.keys[k].name + " - " + db.users[db.keys[k].user].email)
      else None
  }

  /** The output URL as the task builds it: the ingest prefix followed by the
      printed stream key; `None` when building it raises. */
  function IngestUrlAsWritten(db: Db, key: Option<KeyId>): (u: Option<string>)
    ensures u.Some? <==> StreamKeyText(db, key).Some?
    ensures u.Some? ==> u.value == IngestPrefix + StreamKeyText(db, key).value
  {
    match StreamKeyText(db, key)
    case None => None
    case Some(t) => Some(IngestPrefix + t)
  }

  /** With a key named "main" whose stored ingest URL is
      "rtmp://a.rtmp.youtube.com/live2/abcd", owned by "a@b.c", the URL the
      task builds carries the key's display text, and a live without a key
      streams to ".../live2/None". The corrected URL is the stored one, and a
      live without a key gets none. */
  lemma AsWrittenUrlCarriesDisplayText()
    ensures var db := Db(map[1 := User("alice", "a@b.c", false, true)],
                         map[7 := StreamKey(1, "main", IngestPrefix + "abcd", "YouTube", true)],
                         map[]);
      && IngestUrlAsWritten(db, Some(7)) == Some(IngestPrefix + "main - a@b.c")
      && IngestUrl(db, Some(7)) == Some(IngestPrefix + "abcd")
      && IngestUrlAsWritten(db, Some(7)) != IngestUrl(db, Some(7))
      && IngestUrlAsWritten(db, None) == Some(IngestPrefix + "None")
      && IngestUrl(db, None) == None
  {
    var db := Db(map[1 := User("alice", "a@b.c", false, true)],
                 map[7 := StreamKey(1, "main", IngestPrefix + "abcd", "YouTube", true)],
                 map[]);
    assert "main" + " - " + "a@b.c" == "main - a@b.c";
    assert StreamKeyText(db, Some(7)) == Some("main - a@b.c");
    assert (IngestPrefix + "main - a@b.c")[|IngestPrefix|] != (IngestPrefix + "abcd")[|IngestPrefix|];
  }

  /** The evidently intended URL: the ingest URL stored in the stream key's
      `key` field. A live without a resolvable key has no URL to stream to. */
  function IngestUrl(db: Db, key: Option<KeyId>): (u: Option<string>)
    ensures u.Some? <==> key.Some? && key.value in db.keys
    ensures u.Some? ==> u.value == db.keys[key.value].key
  {
    if key.Some? && key.value in db.keys then Some(db.keys[key.value].key) else None
  }

  /** The corrected URL depends on the key row's `key` field alone: renaming the
      key, changing its owner or the owner's email leaves it unchanged. */
  lemma IngestUrlReadsOnlyTheKey(db: Db, db': Db, key: Option<KeyId>)
    requires key.Some? ==> (key.value in db.keys <==> key.value in db'.keys)
    requires key.Some? && key.value in db.keys ==> db.keys[key.value].key == db'.keys[key.value].key
    ensures IngestUrl(db, key) == IngestUrl(db', key)
  {
  }

  /** What `Popen` does with the command: hands back a pid, or raises. */
  datatype Spawn = Spawned(pid: Pid) | SpawnRaised

  /** How a task ends: with a return value, or with an exception escaping. */
  datatype TaskOutcome = Returned(value: bool) | Raised

  /** The notification jobs a task enqueues with `.delay`. */
  datatype Notice = AdminStarted(live: LiveId) | StartError(live: LiveId)

  /** A run of `start_live_stream`: its outcome, the database after it, the
      command handed to `Popen` (if it got that far), and the jobs enqueued. */
  datatype StartRun = StartRun(outcome: TaskOutcome, db: Db, command: Option<seq<string>>, notices: seq<Notice>)

  /** The `except` branch: save the live as failed, then enqueue the error
      notification. As written, an unreachable queue makes that `.delay`
      raise out of the task; the corrected task also clears the pid and
      swallows the notification failure. */
  function FailStart(db: Db, id: LiveId, l: Live, corrected: bool, command: Option<seq<string>>,
                     brokerUp: bool): (r: StartRun)
    ensures r.db.users == db.users && r.db.keys == db.keys
    ensures r.db.lives == db.lives[id := l.(status := Failed, ffmpegPid := if corrected then None else l.ffmpegPid)]
    ensures r.command == command
    ensures r.outcome == (if brokerUp || corrected then Returned(false) else Raised)
    ensures r.notices == (if brokerUp then [StartError(id)] else [])
  {
    var failed := if corrected then l.(status := Failed, ffmpegPid := None) else l.(status := Failed);
    var db' := db.(lives := db.lives[id := failed]);
    if brokerUp then StartRun(Returned(false), db', command, [StartError(id)])
    else if corrected then StartRun(Returned(false), db', command, [])
    else StartRun(Raised, db', command, [])
  }

  /**
   * The body of `start_live_stream` once the live is found, for a given
   * output URL (`None` when building it raises). With `corrected` false it
   * is the task as written; with `corrected` true the failure branch clears
   * the pid and a notification that cannot be enqueued neither fails nor
   * rolls back the start.
   */
  function RunStart(db: Db, id: LiveId, url: Option<string>, ffmpegPath: string, spawn: Spawn,
                    brokerUp: bool, corrected: bool): (r: StartRun)
    requires id in db.lives
    ensures r.db.users == db.users && r.db.keys == db.keys && r.db.lives.Keys == db.lives.Keys
    ensures forall other :: other in db.lives && other != id ==> r.db.lives[other] == db.lives[other]
    ensures db.lives[id].status != Pending ==> r == StartRun(Returned(false), db, None, [])
    ensures r.command.Some? <==> db.lives[id].status == Pending && db.lives[id].videoFile != "" && url.Some?
    ensures r.command.Some? ==> r.command == Some(FfmpegArgs(ffmpegPath, db.lives[id].videoFile, url.value))
    ensures r.outcome == Returned(true) <==>
      r.command.Some? && spawn.Spawned? && (brokerUp || corrected)
    ensures r.outcome == Returned(true) ==>
      && r.db.lives[id] == db.lives[id].(status := Running, ffmpegPid := Some(spawn.pid as int))
      && r.notices == (if brokerUp then [AdminStarted(id)] else [])
    ensures r.outcome == Raised <==> db.lives[id].status == Pending && !brokerUp && !corrected
    ensures db.lives[id].status == Pending && r.outcome != Returned(true) ==>
      && r.db.lives[id].status == Failed
      && r.notices == (if brokerUp then [StartError(id)] else [])
    ensures db.lives[id].status == Pending && r.outcome != Returned(true) && corrected ==>
      r.db.lives[id] == db.lives[id].(status := Failed, ffmpegPid := None)
    ensures db.lives[id].status == Pending && r.outcome != Returned(true) && !corrected ==>
      r.db.lives[id] == db.lives[id].(status := Failed,
        ffmpegPid := if r.command.Some? && spawn.Spawned? then Some(spawn.pid as int) else db.lives[id].ffmpegPid)
  {
    var l := db.lives[id];
    if l.status != Pending then StartRun(Returned(false), db, None, [])
    else if l.videoFile == "" || url.None? then FailStart(db, id, l, corrected, None, brokerUp)
    else
      var cmd := FfmpegArgs(ffmpegPath, l.videoFile, url.value);
      match spawn
      case SpawnRaised => FailStart(db, id, l, corrected, Some(cmd), brokerUp)
      case Spawned(p) =>
        var started := l.(status := Running, ffmpegPid := Some(p as int));
        var db' := db.(lives := db.lives[id := started]);
        if brokerUp then StartRun(Returned(true), db', Some(cmd), [AdminStarted(id)])
        else if corrected then StartRun(Returned(true), db', Some(cmd), [])
        else FailStart(db, id, started, false, Some(cmd), false)
  }

  /**
   * `start_live_stream` as written. An unknown id raises (the handler reads
   * an unbound local); a non-pending live returns False untouched. A pending
   * live with a video, a printable key, a spawned pid and a reachable queue
   * is saved running with that pid and the task returns True. Any other
   * pending case is saved failed with its pid kept; when the queue is
   * unreachable the task raises, and if the spawn had succeeded the failed
   * live keeps the pid of the still-running transcoder.
   */
  function StartLiveStreamAsWritten(db: Db, id: LiveId, ffmpegPath: string, spawn: Spawn,
                                    brokerUp: bool): (r: StartRun)
    ensures id !in db.lives ==> r == StartRun(Raised, db, None, [])
    ensures id in db.lives && db.lives[id].status != Pending ==> r == StartRun(Returned(false), db, None, [])
    ensures r.db.users == db.users && r.db.keys == db.keys && r.db.lives.Keys == db.lives.Keys
    ensures forall other :: other in db.lives && other != id ==> r.db.lives[other] == db.lives[other]
    ensures r.command.Some? <==>
      id in db.lives && db.lives[id].status == Pending && db.lives[id].videoFile != ""
      && IngestUrlAsWritten(db, db.lives[id].streamKey).Some?
    ensures r.command.Some? ==>
      r.command == Some(FfmpegArgs(ffmpegPath, db.lives[id].videoFile, IngestUrlAsWritten(db, db.lives[id].streamKey).value))
    ensures r.outcome == Returned(true) <==> r.command.Some? && spawn.Spawned? && brokerUp
    ensures r.outcome == Returned(true) ==>
      && r.db.lives[id] == db.lives[id].(status := Running, ffmpegPid := Some(spawn.pid as int))
      && r.notices == [AdminStarted(id)]
    ensures r.outcome == Raised <==> id !in db.lives || (db.lives[id].status == Pending && !brokerUp)
    ensures id in db.lives && db.lives[id].status == Pending && r.outcome != Returned(true) ==>
      && r.db.lives[id] == db.lives[id].(status := Failed,
           ffmpegPid := if r.command.Some? && spawn.Spawned? then Some(spawn.pid as int) else db.lives[id].ffmpegPid)
      && r.notices == (if brokerUp then [StartError(id)] else [])
  {
    if id !in db.lives then StartRun(Raised, db, None, [])
    else RunStart(db, id, IngestUrlAsWritten(db, db.lives[id].streamKey), ffmpegPath, spawn, brokerUp, false)
  }

  /** With the queue unreachable after a successful spawn, the task as written
      leaves a failed live holding a pid: the lifecycle invariant breaks. */
  lemma BrokerDownLeavesFailedLiveWithPid()
    ensures var db := Db(map[1 := User("alice", "a@b.c", false, true)],
                         map[7 := StreamKey(1, "main", IngestPrefix + "abcd", "YouTube", true)],
                         map[3 := NewLive(1, "t", "/media/videos/v.mp4", Some(7), None, false)]);
      var r := StartLiveStreamAsWritten(db, 3, "/usr/bin/ffmpeg", Spawned(4242), false);
      && AllPidsMatchStatus(db.lives)
      && r.db.lives[3].status == Failed && r.db.lives[3].ffmpegPid == Some(4242)
      && !AllPidsMatchStatus(r.db.lives)
  {
  }

  /**
   * `start_live_stream` corrected: the output URL is the stream key's stored
   * ingest URL, the failure branch clears the pid, and notification jobs are
   * best effort. A pending live becomes running with the spawned pid exactly
   * when the video, the key and the spawn succeed, whether or not the queue
   * accepts the admin notification; every other pending case ends failed
   * with no pid and returns False. Nothing is spawned for an unknown or
   * non-pending live, and no other record changes.
   */
  function StartLiveStream(db: Db, id: LiveId, ffmpegPath: string, spawn: Spawn, brokerUp: bool): (r: StartRun)
    ensures id !in db.lives ==> r == StartRun(Raised, db, None, [])
    ensures id in db.lives && db.lives[id].status != Pending ==> r == StartRun(Returned(false), db, None, [])
    ensures r.db.users == db.users && r.db.keys == db.keys && r.db.lives.Keys == db.lives.Keys
    ensures forall other :: other in db.lives && other != id ==> r.db.lives[other] == db.lives[other]
    ensures r.command.Some? <==>
      id in db.lives && db.lives[id].status == Pending && db.lives[id].videoFile != ""
      && IngestUrl(db, db.lives[id].streamKey).Some?
    ensures r.command.Some? ==>
      r.command == Some(FfmpegArgs(ffmpegPath, db.lives[id].videoFile, IngestUrl(db, db.lives[id].streamKey).value))
    ensures r.outcome == Returned(true) <==> r.command.Some? && spawn.Spawned?
    ensures r.outcome == Returned(true) ==>
      && r.db.lives[id] == db.lives[id].(status := Running, ffmpegPid := Some(spawn.pid as int))
      && r.notices == (if brokerUp then [AdminStarted(id)] else [])
    ensures id in db.lives ==> r.outcome != Raised
    ensures id in db.lives && db.lives[id].status == Pending && r.outcome != Returned(true) ==>
      && r.outcome == Returned(false)
      && r.db.lives[id] == db.lives[id].(status := Failed, ffmpegPid := None)
      && r.notices == (if brokerUp then [StartError(id)] else [])
  {
    if id !in db.lives then StartRun(Raised, db, None, [])
    else RunStart(db, id, IngestUrl(db, db.lives[id].streamKey), ffmpegPath, spawn, brokerUp, true)
  }

  /** Starting a live keeps every record's pid in step with its status. */
  lemma StartPreservesPidInvariant(db: Db, id: LiveId, ffmpegPath: string, spawn: Spawn, brokerUp: bool)
    requires AllPidsMatchStatus(db.lives)
    ensures AllPidsMatchStatus(StartLiveStream(db, id, ffmpegPath, spawn, brokerUp).db.lives)
  {
  }

  /** What `os.kill` does: delivers the signal, finds no such process, or
      raises some other error (permission). */
  datatype Kill = Killed | NoSuchProcess | KillDenied

  /** A run of `stop_live_stream`: its return value, the database after it,
      and the pid it sent SIGKILL to, if any. */
  datatype StopRun = StopRun(ok: bool, db: Db, signalled: Option<int>)

  /**
   * `stop_live_stream`: only a running live with a (truthy) pid is stopped.
   * It is then completed with its pid cleared, whether or not the process
   * still existed; only an unexpected kill error makes it return False,
   * and then nothing is written.
   */
  function StopLiveStream(db: Db, id: LiveId, kill: Kill): (r: StopRun)
    ensures !r.ok ==> r.db == db
    ensures r.signalled.Some? <==> id in db.lives && db.lives[id].status == Running && PidSet(db.lives[id].ffmpegPid)
    ensures r.signalled.Some? ==> r.signalled == db.lives[id].ffmpegPid
    ensures r.ok <==> r.signalled.Some? && kill != KillDenied
    ensures r.ok ==> r.db == db.(lives := db.lives[id := db.lives[id].(status := Completed, ffmpegPid := None)])
  {
    if id !in db.lives then StopRun(false, db, None)
    else
      var l := db.lives[id];
      if l.status != Running || !PidSet(l.ffmpegPid) then StopRun(false, db, None)
      else if kill == KillDenied then StopRun(false, db, l.ffmpegPid)
      else StopRun(true, db.(lives := db.lives[id := l.(status := Completed, ffmpegPid := None)]), l.ffmpegPid)
  }

  /** Stopping a live keeps every record's pid in step with its status. */
  lemma StopPreservesPidInvariant(db: Db, id: LiveId, kill: Kill)
    requires AllPidsMatchStatus(db.lives)
    ensures AllPidsMatchStatus(StopLiveStream(db, id, kill).db.lives)
  {
  }

  /**
   * A successful start followed by a stop signals the spawned pid and leaves
   * the live completed with no pid: for the task as written when its URL
   * can be built and the queue is up, and for the corrected task whenever
   * the key resolves.
   */
  lemma StartThenStopCompletes(db: Db, id: LiveId, ffmpegPath: string, p: Pid, brokerUp: bool, kill: Kill)
    requires id in db.lives && db.lives[id].status == Pending && db.lives[id].videoFile != ""
    requires kill != KillDenied
    ensures IngestUrlAsWritten(db, db.lives[id].streamKey).Some? && brokerUp ==>
      var started := StartLiveStreamAsWritten(db, id, ffmpegPath, Spawned(p), brokerUp);
      var stopped := StopLiveStream(started.db, id, kill);
      && started.outcome == Returned(true) && stopped.ok && stopped.signalled == Some(p as int)
      && stopped.db.lives[id] == db.lives[id].(status := Completed, ffmpegPid := None)
    ensures IngestUrl(db, db.lives[id].streamKey).Some? ==>
      var started := StartLiveStream(db, id, ffmpegPath, Spawned(p), brokerUp);
      var stopped := StopLiveStream(started.db, id, kill);
      && started.outcome == Returned(true) && stopped.ok && stopped.signalled == Some(p as int)
      && stopped.db.lives[id] == db.lives[id].(status := Completed, ffmpegPid := None)
  {
  }

  /** The filter of `check_scheduled_lives`; a null `scheduled_at` never compares. */
  predicate IsDue(l: Live, now: Time)
  {
    l.isScheduled && l.status == Pending && l.scheduledAt.Some? && l.scheduledAt.value <= now
  }

  /** `check_scheduled_lives`: the ids it enqueues a start for. */
  function DueLives(lives: map<LiveId, Live>, now: Time): (due: set<LiveId>)
    ensures due <= lives.Keys
    ensures forall id :: id in due ==> lives[id].status == Pending && lives[id].isScheduled
    ensures forall id :: id in due ==> lives[id].scheduledAt.Some? && lives[id].scheduledAt.value <= now
    ensures forall id :: id in lives && IsDue(lives[id], now) ==> id in due
  {
    set id | id in lives && IsDue(lives[id], now)
  }

  /** A live that is due stays due as the clock advances, until it is started. */
  lemma DueLivesMonotonic(lives: map<LiveId, Live>, now: Time, later: Time)
    requires now <= later
    ensures DueLives(lives, now) <= DueLives(lives, later)
  {
  }

  /**
   * Every start the scheduler enqueues passes the pending check, and once it
   * has run the live is no longer due at any time, so the scheduler starts
   * a live once. This holds for the task as written, which the scheduler
   * enqueues, and for the corrected one; with the queue up both return True
   * exactly when the live ends running.
   */
  lemma StartedLiveLeavesDueSet(db: Db, id: LiveId, now: Time, later: Time, ffmpegPath: string,
                                spawn: Spawn, brokerUp: bool)
    requires id in DueLives(db.lives, now)
    ensures var r := StartLiveStreamAsWritten(db, id, ffmpegPath, spawn, brokerUp);
      && (brokerUp ==> r.outcome == Returned(r.db.lives[id].status == Running))
      && r.db.lives[id].status in {Running, Failed}
      && id !in DueLives(r.db.lives, later)
    ensures var r := StartLiveStream(db, id, ffmpegPath, spawn, brokerUp);
      && r.outcome == Returned(r.db.lives[id].status == Running)
      && r.db.lives[id].status in {Running, Failed}
      && id !in DueLives(r.db.lives, later)
  {
  }

  /**
   * Starting the same live twice spawns at most once: whatever the first run
   * did, the second finds the live no longer pending, returns False, builds
   * no command and writes nothing. This holds for the task as written and
   * for the corrected one.
   */
  lemma StartTwiceSpawnsOnce(db: Db, id: LiveId, ffmpegPath: string, spawn: Spawn, brokerUp: bool,
                             spawn': Spawn, brokerUp': bool)
    requires id in db.lives
    ensures var first := StartLiveStreamAsWritten(db, id, ffmpegPath, spawn, brokerUp);
      var second := StartLiveStreamAsWritten(first.db, id, ffmpegPath, spawn', brokerUp');
      second == StartRun(Returned(false), first.db, None, [])
    ensures var first := StartLiveStream(db, id, ffmpegPath, spawn, brokerUp);
      var second := StartLiveStream(first.db, id, ffmpegPath, spawn', brokerUp');
      second == StartRun(Returned(false), first.db, None, [])
  {
  }
}
