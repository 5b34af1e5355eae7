/**
 * The reconciliation script manage_ffmpeg.py: which processes count as
 * ffmpeg, the `check` sweep that demotes running lives whose transcoder
 * is gone, the `clean` sweep that terminates transcoders no running live
 * owns, `kill-all`, and the command dispatch.
 *
 * The process table is an input list; liveness and termination are
 * oracle functions of the pid.
 */
module Sweep {
  import opened Wrappers
  import opened Models
  import opened Text

  /** One entry of the process table: its pid and its name, which may be unreadable. */
  datatype Proc = Proc(pid: int, name: Option<string>)

  /** The six characters at `i` of `n` spell "ffmpeg" in any letter case. */
  predicate FfmpegAt(n: string, i: int)
  {
    0 <= i && i + 6 <= |n| && Lower(n[i..i + 6]) == "ffmpeg"
  }

  /** The name filter of `list_ffmpeg_processes`: a readable, non-empty name
      that contains "ffmpeg" case-insensitively. */
  function IsFfmpeg(p: Proc): (b: bool)
    ensures b <==> p.name.Some? && exists i :: FfmpegAt(p.name.value, i)
  {
    if p.name.None? || p.name.value == "" then false
    else
      var n := p.name.value;
      var b := Contains(Lower(n), "ffmpeg");
      assert b ==> exists i :: FfmpegAt(n, i) by {
        if b {
          var i :| SubstringAt(Lower(n), "ffmpeg", i);
          LowerSlice(n, i, i + 6);
          assert FfmpegAt(n, i);
        }
      }
      assert (exists i :: FfmpegAt(n, i)) ==> b by {
        if exists i :: FfmpegAt(n, i) {
          var i :| FfmpegAt(n, i);
          LowerSlice(n, i, i + 6);
          assert SubstringAt(Lower(n), "ffmpeg", i);
        }
      }
      b
  }

  /** Names as the process table reports them: upper case matches, other tools do not. */
  lemma IsFfmpegExamples()
    ensures IsFfmpeg(Proc(10, Some("FFmpeg")))
    ensures IsFfmpeg(Proc(11, Some("/opt/ffmpeg-6")))
    ensures !IsFfmpeg(Proc(12, Some("ffprobe")))
    ensures !IsFfmpeg(Proc(13, None))
  {
    assert FfmpegAt("FFmpeg", 0);
    assert FfmpegAt("/opt/ffmpeg-6", 5);
    assert forall i :: !FfmpegAt("ffprobe", i) by {
      forall i ensures !FfmpegAt("ffprobe", i) {
        if 0 <= i && i + 6 <= 7 {
          assert i == 0 || i == 1;
          assert "ffprobe"[i + 2] != 'm' && LowerChar("ffprobe"[i + 2]) == "ffprobe"[i + 2];
          assert Lower("ffprobe"[i..i + 6])[2] != 'm';
        }
      }
    }
  }

  /** `list_ffmpeg_processes`: the ffmpeg entries of the process table, in table order. */
  function FfmpegProcs(procs: seq<Proc>): (r: seq<Proc>)
    ensures |r| <= |procs|
    ensures forall p {:trigger p in r} :: p in r <==> p in procs && IsFfmpeg(p)
    decreases |procs|
  {
    if |procs| == 0 then []
    else
      var rest := FfmpegProcs(procs[..|procs| - 1]);
      var last := procs[|procs| - 1];
      assert procs == procs[..|procs| - 1] + [last];
      if IsFfmpeg(last) then rest + [last] else rest
  }

  /** The listing keeps table order: listing two runs of the table one after
      the other gives the listing of the whole table. */
  lemma {:induction false} FfmpegProcsAppend(a: seq<Proc>, b: seq<Proc>)
    ensures FfmpegProcs(a + b) == FfmpegProcs(a) + FfmpegProcs(b)
    decreases |b|
  {
    if |b| == 0 {
      assert a + b == a;
    } else {
      var init := b[..|b| - 1];
      var last := b[|b| - 1];
      var tail := if IsFfmpeg(last) then [last] else [];
      assert FfmpegProcs(b) == FfmpegProcs(init) + tail;
      assert FfmpegProcs(a + b) == FfmpegProcs(a + init) + tail by {
        var ab := a + b;
        assert ab[..|ab| - 1] == a + init;
      }
      FfmpegProcsAppend(a, init);
      assert FfmpegProcs(a) + FfmpegProcs(init) + tail == FfmpegProcs(a) + (FfmpegProcs(init) + tail);
    }
  }

  /** What `psutil` reports for a pid: a running process, one that is no
      longer running, or no such process. */
  datatype Probe = Alive | Exited | Gone

  /** The `check` step for one live. */
  function Reconcile(l: Live, probe: int -> Probe): (r: Live)
    ensures l.status != Running ==> r == l
    ensures l.status == Running && !PidSet(l.ffmpegPid) ==> r == l
    ensures l.status == Running && PidSet(l.ffmpegPid) ==>
      (probe(l.ffmpegPid.value) == Alive <==> r == l)
    ensures r != l ==> r == l.(status := Completed, ffmpegPid := None)
  {
    if l.status == Running && PidSet(l.ffmpegPid) && probe(l.ffmpegPid.value) != Alive
    then l.(status := Completed, ffmpegPid := None)
    else l
  }

  /** Running the `check` step twice on an unchanged process table changes nothing more. */
  lemma ReconcileIdempotent(l: Live, probe: int -> Probe)
    ensures Reconcile(Reconcile(l, probe), probe) == Reconcile(l, probe)
  {
  }

  /**
   * `check_live_processes`: every running live whose (truthy) pid probes as
   * exited or gone is completed with its pid cleared. Running lives with a
   * live process or no pid, and all other lives, are left as they are.
   */
  method CheckLiveProcesses(lives: map<LiveId, Live>, probe: int -> Probe) returns (r: map<LiveId, Live>)
    ensures r.Keys == lives.Keys
    ensures forall id :: id in lives ==> r[id] == Reconcile(lives[id], probe)
    ensures forall id :: id in lives && r[id] != lives[id] ==>
      lives[id].status == Running && r[id] == lives[id].(status := Completed, ffmpegPid := None)
    ensures AllPidsMatchStatus(lives) ==> AllPidsMatchStatus(r)
  {
    var remaining := set id | id in lives && lives[id].status == Running;
    r := lives;
    while remaining != {}
      invariant remaining <= lives.Keys
      invariant r.Keys == lives.Keys
      invariant forall id :: id in remaining ==> r[id] == lives[id]
      invariant forall id :: id in lives && id !in remaining ==> r[id] == Reconcile(lives[id], probe)
      decreases remaining
    {
      var id :| id in remaining;
      r := r[id := Reconcile(lives[id], probe)];
      remaining := remaining - {id};
    }
  }

  /** The pids the `clean` sweep protects: those of running lives with a truthy pid. */
  function RunningPids(lives: map<LiveId, Live>): (pids: set<int>)
    ensures forall id :: id in lives && lives[id].status == Running && PidSet(lives[id].ffmpegPid) ==>
      lives[id].ffmpegPid.value in pids
    ensures forall p :: p in pids ==>
      p != 0 && exists id :: id in lives && lives[id].status == Running && lives[id].ffmpegPid == Some(p)
  {
    set id | id in lives && lives[id].status == Running && PidSet(lives[id].ffmpegPid) :: lives[id].ffmpegPid.value
  }

  /** Some entry of `ps` has pid `x`. */
  predicate PidListed(ps: seq<Proc>, x: int)
  {
    exists k :: 0 <= k < |ps| && ps[k].pid == x
  }

  /** The pids of the listed processes that no running live owns, in list order. */
  function OrphanPids(ps: seq<Proc>, owned: set<int>): (r: seq<int>)
    ensures |r| <= |ps|
    ensures forall x :: x in r <==> x !in owned && PidListed(ps, x)
    decreases |ps|
  {
    if |ps| == 0 then []
    else
      var init := ps[..|ps| - 1];
      var last := ps[|ps| - 1];
      var rest := OrphanPids(init, owned);
      assert forall x :: PidListed(ps, x) <==> x == last.pid || PidListed(init, x) by {
        forall x ensures PidListed(ps, x) <==> x == last.pid || PidListed(init, x) {
          if PidListed(init, x) {
            var k :| 0 <= k < |init| && init[k].pid == x;
            assert ps[k] == init[k];
          }
          if PidListed(ps, x) && x != last.pid {
            var k :| 0 <= k < |ps| && ps[k].pid == x;
            assert init[k] == ps[k];
          }
        }
      }
      if last.pid in owned then rest else rest + [last.pid]
  }

  /** Extending the list by one entry extends the orphan list by at most that entry's pid. */
  lemma OrphanPidsStep(ps: seq<Proc>, i: nat, owned: set<int>)
    requires i < |ps|
    ensures OrphanPids(ps[..i + 1], owned) ==
      OrphanPids(ps[..i], owned) + (if ps[i].pid in owned then [] else [ps[i].pid])
  {
    assert ps[..i + 1][..i] == ps[..i];
  }

  /** The orphans of a prefix of the list are a prefix of the list's orphans. */
  lemma {:induction false} OrphanPidsPrefix(ps: seq<Proc>, i: nat, owned: set<int>)
    requires i <= |ps|
    ensures |OrphanPids(ps[..i], owned)| <= |OrphanPids(ps, owned)|
    ensures OrphanPids(ps, owned)[..|OrphanPids(ps[..i], owned)|] == OrphanPids(ps[..i], owned)
    decreases |ps|
  {
    if i < |ps| {
      var init := ps[..|ps| - 1];
      assert init[..i] == ps[..i];
      OrphanPidsPrefix(init, i, owned);
      assert ps[..|ps|] == ps;
      OrphanPidsStep(ps, |ps| - 1, owned);
    } else {
      assert ps[..i] == ps;
    }
  }

  /** What `proc.terminate()` does: signals the process, finds it gone
      (`NoSuchProcess`, which the script ignores), or is refused
      (`AccessDenied`, which the script does not catch). */
  datatype Terminate = Terminated | ProcessGone | TerminateDenied

  /** How many of the given `terminate` calls signalled their process. */
  function CountTerminated(pids: seq<int>, terminate: int -> Terminate): (n: nat)
    ensures n <= |pids|
    decreases |pids|
  {
    if |pids| == 0 then 0
    else CountTerminated(pids[..|pids| - 1], terminate) + (if terminate(pids[|pids| - 1]) == Terminated then 1 else 0)
  }

  /** Appending one pid adds its termination to the count. */
  lemma CountTerminatedStep(pids: seq<int>, pid: int, terminate: int -> Terminate)
    ensures CountTerminated(pids + [pid], terminate) ==
      CountTerminated(pids, terminate) + (if terminate(pid) == Terminated then 1 else 0)
  {
  }

  /** The `terminate` calls of a sweep loop: the pids it reached, how many it
      signalled, and whether an `AccessDenied` ended the script. */
  datatype Terminations = Terminations(attempted: seq<int>, count: nat, aborted: bool)

  /** Some pid of the list is refused termination. */
  predicate SomeDenied(pids: seq<int>, terminate: int -> Terminate)
  {
    exists k :: 0 <= k < |pids| && terminate(pids[k]) == TerminateDenied
  }

  /** A list extended by one pid has a refused pid exactly when the list
      had one or the new pid is refused. */
  lemma SomeDeniedSnoc(pids: seq<int>, pid: int, terminate: int -> Terminate)
    ensures SomeDenied(pids + [pid], terminate) <==> SomeDenied(pids, terminate) || terminate(pid) == TerminateDenied
  {
    var s := pids + [pid];
    if SomeDenied(s, terminate) {
      var k :| 0 <= k < |s| && terminate(s[k]) == TerminateDenied;
      if k < |pids| {
        assert s[k] == pids[k];
      }
    }
    if SomeDenied(pids, terminate) {
      var k :| 0 <= k < |pids| && terminate(pids[k]) == TerminateDenied;
      assert s[k] == pids[k];
    }
    assert s[|pids|] == pid;
  }

  /**
   * Calling `terminate` on each pid in turn until one is refused: the pids
   * reached are a prefix of the list that ends at a refused pid exactly when
   * the run aborted, and are the whole list otherwise.
   */
  function TerminateEach(pids: seq<int>, terminate: int -> Terminate): (r: Terminations)
    ensures |r.attempted| <= |pids| && r.attempted == pids[..|r.attempted|]
    ensures r.aborted <==> |r.attempted| > 0 && terminate(r.attempted[|r.attempted| - 1]) == TerminateDenied
    ensures !r.aborted ==> r.attempted == pids
    ensures r.count == CountTerminated(r.attempted, terminate)
    decreases |pids|
  {
    if |pids| == 0 then Terminations([], 0, false)
    else
      var init := pids[..|pids| - 1];
      var last := pids[|pids| - 1];
      var r := TerminateEach(init, terminate);
      assert pids == init + [last];
      if r.aborted then
        assert init[..|r.attempted|] == pids[..|r.attempted|];
        r
      else
        CountTerminatedStep(init, last, terminate);
        Terminations(pids, r.count + (if terminate(last) == Terminated then 1 else 0),
                     terminate(last) == TerminateDenied)
  }

  /** The run stops at the first refused pid: it aborts exactly when some pid
      of the list is refused, and no pid reached before the last is refused. */
  lemma {:induction false} TerminateEachFirstDenial(pids: seq<int>, terminate: int -> Terminate)
    ensures var r := TerminateEach(pids, terminate);
      && (r.aborted <==> SomeDenied(pids, terminate))
      && forall k :: 0 <= k < |r.attempted| - 1 ==> terminate(r.attempted[k]) != TerminateDenied
    decreases |pids|
  {
    if |pids| > 0 {
      var init := pids[..|pids| - 1];
      var last := pids[|pids| - 1];
      TerminateEachFirstDenial(init, terminate);
      assert pids == init + [last];
      SomeDeniedSnoc(init, last, terminate);
      var r := TerminateEach(init, terminate);
      if !r.aborted {
        assert forall k :: 0 <= k < |pids| - 1 ==> pids[k] == init[k];
      }
    }
  }

  /** Reaching one more pid after a run that was not refused. */
  lemma TerminateEachSnoc(pids: seq<int>, pid: int, terminate: int -> Terminate)
    requires !TerminateEach(pids, terminate).aborted
    ensures TerminateEach(pids + [pid], terminate) ==
      Terminations(pids + [pid], TerminateEach(pids, terminate).count + (if terminate(pid) == Terminated then 1 else 0),
                   terminate(pid) == TerminateDenied)
  {
    assert (pids + [pid])[..|pids|] == pids;
  }

  /** Once a prefix of the list was refused, the rest of the list is never reached. */
  lemma {:induction false} TerminateEachStopsAtDenial(pids: seq<int>, i: nat, terminate: int -> Terminate)
    requires i <= |pids| && TerminateEach(pids[..i], terminate).aborted
    ensures TerminateEach(pids, terminate) == TerminateEach(pids[..i], terminate)
    decreases |pids|
  {
    if i < |pids| {
      var init := pids[..|pids| - 1];
      assert init[..i] == pids[..i];
      TerminateEachStopsAtDenial(init, i, terminate);
    } else {
      assert pids[..i] == pids;
    }
  }

  /** Every ffmpeg process of the table whose pid is not owned is among the orphans. */
  lemma OrphansCoverUnowned(procs: seq<Proc>, owned: set<int>)
    ensures forall q :: q in procs && IsFfmpeg(q) && q.pid !in owned ==>
      q.pid in OrphanPids(FfmpegProcs(procs), owned)
  {
  }

  /** The loop of `kill_orphan_processes` over the listed ffmpeg processes:
      unowned ones are terminated in turn until one is refused. */
  method TerminateUnowned(ffmpeg: seq<Proc>, owned: set<int>, terminate: int -> Terminate)
    returns (r: Terminations)
    ensures r == TerminateEach(OrphanPids(ffmpeg, owned), terminate)
  {
    r := Terminations([], 0, false);
    ghost var orphans: seq<int> := [];
    var i := 0;
    while i < |ffmpeg| && !r.aborted
      invariant 0 <= i <= |ffmpeg|
      invariant orphans == OrphanPids(ffmpeg[..i], owned)
      invariant r == TerminateEach(orphans, terminate)
    {
      OrphanPidsStep(ffmpeg, i, owned);
      var pid := ffmpeg[i].pid;
      if pid !in owned {
        TerminateEachSnoc(orphans, pid, terminate);
        assert r.attempted == orphans;
        var outcome := terminate(pid);
        r := Terminations(r.attempted + [pid], r.count + (if outcome == Terminated then 1 else 0),
                          outcome == TerminateDenied);
        orphans := orphans + [pid];
      }
      assert orphans == OrphanPids(ffmpeg[..i + 1], owned);
      i := i + 1;
    }
    FinishSweep(ffmpeg, i, owned, terminate);
  }

  /** A sweep that stopped at entry `i`, refused or at the end of the list, has reached
      all it ever will. */
  lemma FinishSweep(ffmpeg: seq<Proc>, i: nat, owned: set<int>, terminate: int -> Terminate)
    requires i <= |ffmpeg|
    ensures i == |ffmpeg| || TerminateEach(OrphanPids(ffmpeg[..i], owned), terminate).aborted ==>
      TerminateEach(OrphanPids(ffmpeg, owned), terminate) == TerminateEach(OrphanPids(ffmpeg[..i], owned), terminate)
  {
    if i == |ffmpeg| {
      assert ffmpeg[..i] == ffmpeg;
    } else if TerminateEach(OrphanPids(ffmpeg[..i], owned), terminate).aborted {
      OrphanPidsPrefix(ffmpeg, i, owned);
      TerminateEachStopsAtDenial(OrphanPids(ffmpeg, owned), |OrphanPids(ffmpeg[..i], owned)|, terminate);
    }
  }

  /**
   * `kill_orphan_processes`: terminates, in turn, the ffmpeg processes whose
   * pid is not the stored pid of a running live, and counts those it
   * signalled. A refused termination ends the script.
   */
  method KillOrphanProcesses(procs: seq<Proc>, lives: map<LiveId, Live>, terminate: int -> Terminate)
    returns (r: Terminations)
    ensures r == TerminateEach(OrphanPids(FfmpegProcs(procs), RunningPids(lives)), terminate)
    ensures r.count <= |FfmpegProcs(procs)|
  {
    var ffmpeg := FfmpegProcs(procs);
    r := TerminateUnowned(ffmpeg, RunningPids(lives), terminate);
  }

  /** What `kill_orphan_processes` reaches: no stored pid of a running live is
      ever terminated, and without a refusal every unowned ffmpeg process is. */
  lemma OrphanSweepSparesRunning(procs: seq<Proc>, lives: map<LiveId, Live>, terminate: int -> Terminate)
    ensures var r := TerminateEach(OrphanPids(FfmpegProcs(procs), RunningPids(lives)), terminate);
      && (forall p :: p in r.attempted ==> p !in RunningPids(lives))
      && (!r.aborted ==> forall q :: q in procs && IsFfmpeg(q) && q.pid !in RunningPids(lives) ==> q.pid in r.attempted)
  {
    var owned := RunningPids(lives);
    var orphans := OrphanPids(FfmpegProcs(procs), owned);
    var r := TerminateEach(orphans, terminate);
    OrphansCoverUnowned(procs, owned);
    assert forall p :: p in r.attempted ==> p in orphans;
  }

  /** The pids of the listed processes, in list order. */
  function PidsOf(ps: seq<Proc>): (r: seq<int>)
    ensures |r| == |ps|
    ensures forall k :: 0 <= k < |ps| ==> r[k] == ps[k].pid
  {
    seq(|ps|, k requires 0 <= k < |ps| => ps[k].pid)
  }

  /** The bulk update of `kill_all_ffmpeg`: every running live becomes
      completed with no pid; no other live changes. */
  function CompleteRunning(lives: map<LiveId, Live>): (r: map<LiveId, Live>)
    ensures r.Keys == lives.Keys
    ensures forall id :: id in r ==> r[id].status != Running
    ensures forall id :: id in lives && lives[id].status == Running ==>
      r[id] == lives[id].(status := Completed, ffmpegPid := None)
    ensures forall id :: id in lives && lives[id].status != Running ==> r[id] == lives[id]
    ensures AllPidsMatchStatus(lives) ==> AllPidsMatchStatus(r)
  {
    map id | id in lives ::
      if lives[id].status == Running then lives[id].(status := Completed, ffmpegPid := None) else lives[id]
  }

  /** The effect of one run of the script: lives after it, the pids it asked
      to terminate, how many terminations signalled their process, and
      whether a refused termination ended it. */
  datatype SweepRun = SweepRun(lives: map<LiveId, Live>, terminated: seq<int>, count: nat, aborted: bool)

  /** A run that changes nothing and terminates nothing. */
  function Unchanged(lives: map<LiveId, Live>): SweepRun
  {
    SweepRun(lives, [], 0, false)
  }

  /**
   * `kill_all_ffmpeg`: terminate every ffmpeg process in turn, then complete
   * every running live. A refused termination ends the script before the
   * bulk update, leaving every live as it was.
   */
  function KillAllFfmpeg(procs: seq<Proc>, lives: map<LiveId, Live>, terminate: int -> Terminate): (r: SweepRun)
    ensures |r.terminated| <= |FfmpegProcs(procs)| && r.terminated == PidsOf(FfmpegProcs(procs))[..|r.terminated|]
    ensures r.aborted <==> SomeDenied(PidsOf(FfmpegProcs(procs)), terminate)
    ensures r.count == CountTerminated(r.terminated, terminate) && r.count <= |FfmpegProcs(procs)|
    ensures !r.aborted ==> forall q :: q in procs && IsFfmpeg(q) ==> q.pid in r.terminated
    ensures !r.aborted ==> r.lives == CompleteRunning(lives) && forall id :: id in r.lives ==> !IsRunning(r.lives[id])
    ensures r.aborted ==> r.lives == lives
    ensures r.aborted ==> |r.terminated| > 0 && terminate(r.terminated[|r.terminated| - 1]) == TerminateDenied
    ensures forall k :: 0 <= k < |r.terminated| - 1 ==> terminate(r.terminated[k]) != TerminateDenied
  {
    var pids := PidsOf(FfmpegProcs(procs));
    var t := TerminateEach(pids, terminate);
    TerminateEachFirstDenial(pids, terminate);
    assert !t.aborted ==> forall q :: q in procs && IsFfmpeg(q) ==> q.pid in t.attempted by {
      if !t.aborted {
        forall q | q in procs && IsFfmpeg(q) ensures q.pid in pids {
          var ffmpeg := FfmpegProcs(procs);
          assert q in ffmpeg;
          var k :| 0 <= k < |ffmpeg| && ffmpeg[k] == q;
          assert pids[k] == q.pid;
        }
      }
    }
    SweepRun(if t.aborted then lives else CompleteRunning(lives), t.attempted, t.count, t.aborted)
  }

  /** The `kill-all` confirmation accepts exactly "y" and "Y". */
  lemma ConfirmationIsY(confirm: string)
    ensures Lower(confirm) == "y" <==> confirm == "y" || confirm == "Y"
  {
  }

  /**
   * `main`: with no command the usage text is shown; `list` only reports;
   * `check` and `clean` run their sweeps; `kill-all` runs only when the
   * typed confirmation lower-cases to "y"; any other command changes
   * nothing. `argv[0]` is the script name.
   */
  method RunCommand(argv: seq<string>, confirm: string, procs: seq<Proc>, lives: map<LiveId, Live>,
                    probe: int -> Probe, terminate: int -> Terminate) returns (r: SweepRun)
    ensures |argv| < 2 ==> r == Unchanged(lives)
    ensures |argv| >= 2 && argv[1] !in {"check", "clean", "kill-all"} ==> r == Unchanged(lives)
    ensures |argv| >= 2 && argv[1] == "check" ==>
      r.terminated == [] && r.count == 0 && !r.aborted && forall id :: id in lives ==> id in r.lives && r.lives[id] == Reconcile(lives[id], probe)
    ensures |argv| >= 2 && argv[1] == "clean" ==>
      var t := TerminateEach(OrphanPids(FfmpegProcs(procs), RunningPids(lives)), terminate);
      r == SweepRun(lives, t.attempted, t.count, t.aborted)
    ensures |argv| >= 2 && argv[1] == "kill-all" && Lower(confirm) == "y" ==>
      r == KillAllFfmpeg(procs, lives, terminate)
    ensures |argv| >= 2 && argv[1] == "kill-all" && Lower(confirm) != "y" ==> r == Unchanged(lives)
    ensures r.lives.Keys == lives.Keys
    ensures AllPidsMatchStatus(lives) ==> AllPidsMatchStatus(r.lives)
  {
    if |argv| < 2 {
      return Unchanged(lives);
    }
    var command := argv[1];
    if command == "list" {
      r := Unchanged(lives);
    } else if command == "check" {
      var checked := CheckLiveProcesses(lives, probe);
      r := SweepRun(checked, [], 0, false);
    } else if command == "clean" {
      var t := KillOrphanProcesses(procs, lives, terminate);
      r := SweepRun(lives, t.attempted, t.count, t.aborted);
    } else if command == "kill-all" {
      if Lower(confirm) == "y" {
        r := KillAllFfmpeg(procs, lives, terminate);
      } else {
        r := Unchanged(lives);
      }
    } else {
      r := Unchanged(lives);
    }
  }
}
