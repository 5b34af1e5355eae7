/**
 * The request handlers of streams/views.py that change or summarise
 * state: the simulated manual start/stop of a live, the approval and
 * admin flags of accounts, and the user listing with its statistics.
 * Authentication decorators, templates and flash messages are plumbing.
 */
module Views {
  import opened Wrappers
  import opened Models
  import opened Text

  /** What a handler answers: a JSON body, a redirect to a named page, or 404. */
  datatype Response = Json(success: bool, message: string) | Redirect(page: string) | NotFound

  /** A handler's answer and the database after it. */
  datatype ViewRun = ViewRun(response: Response, db: Db)

  /** `get_object_or_404(Live, id=live_id, user=request.user)`. */
  predicate OwnsLive(db: Db, requester: UserId, id: LiveId)
  {
    id in db.lives && db.lives[id].user == requester
  }

  /**
   * `start_live`: the owner's live moves to running when `can_start` holds,
   * and only its status changes; the transcoder is not launched, so no pid
   * is recorded. `login_required` guarantees the requester's account exists.
   */
  function StartLive(db: Db, requester: UserId, id: LiveId): (r: ViewRun)
    requires requester in db.users
    ensures !OwnsLive(db, requester, id) ==> r == ViewRun(NotFound, db)
    ensures OwnsLive(db, requester, id) && !CanStart(db.lives[id], db.users[requester]) ==>
      r == ViewRun(Json(false, "Live non démarré"), db)
    ensures OwnsLive(db, requester, id) && CanStart(db.lives[id], db.users[requester]) ==>
      && r.response == Json(true, "Live démarré avec succès")
      && r.db == db.(lives := db.lives[id := db.lives[id].(status := Running)])
      && r.db.lives[id].ffmpegPid == db.lives[id].ffmpegPid
  {
    if !OwnsLive(db, requester, id) then ViewRun(NotFound, db)
    else
      var l := db.lives[id];
      if !CanStart(l, db.users[l.user]) then ViewRun(Json(false, "Live non démarré"), db)
      else ViewRun(Json(true, "Live démarré avec succès"), db.(lives := db.lives[id := l.(status := Running)]))
  }

  /** The simulated start leaves a fresh live running with no pid, outside the
      lifecycle invariant the background task keeps. */
  lemma StartLiveRecordsNoPid(db: Db, requester: UserId, id: LiveId)
    requires requester in db.users && db.users[requester].isApproved
    requires OwnsLive(db, requester, id) && db.lives[id].status == Pending && db.lives[id].ffmpegPid.None?
    ensures var r := StartLive(db, requester, id);
      r.response.Json? && r.response.success && IsRunning(r.db.lives[id]) && !PidMatchesStatus(r.db.lives[id])
  {
  }

  /**
   * `stop_live`: the owner's running live becomes completed; its pid column
   * is left as it was.
   */
  function StopLive(db: Db, requester: UserId, id: LiveId): (r: ViewRun)
    ensures !OwnsLive(db, requester, id) ==> r == ViewRun(NotFound, db)
    ensures OwnsLive(db, requester, id) && !IsRunning(db.lives[id]) ==>
      r == ViewRun(Json(false, "Live non en cours"), db)
    ensures OwnsLive(db, requester, id) && IsRunning(db.lives[id]) ==>
      && r.response == Json(true, "Live arrêté avec succès")
      && r.db == db.(lives := db.lives[id := db.lives[id].(status := Completed)])
      && r.db.lives[id].ffmpegPid == db.lives[id].ffmpegPid
  {
    if !OwnsLive(db, requester, id) then ViewRun(NotFound, db)
    else
      var l := db.lives[id];
      if !IsRunning(l) then ViewRun(Json(false, "Live non en cours"), db)
      else ViewRun(Json(true, "Live arrêté avec succès"), db.(lives := db.lives[id := l.(status := Completed)]))
  }

  /** A manual start followed by a manual stop by the owner completes a startable live. */
  lemma StartThenStopLive(db: Db, requester: UserId, id: LiveId)
    requires requester in db.users && OwnsLive(db, requester, id) && CanStart(db.lives[id], db.users[requester])
    ensures var started := StartLive(db, requester, id);
      var stopped := StopLive(started.db, requester, id);
      && stopped.response == Json(true, "Live arrêté avec succès")
      && stopped.db.lives[id] == db.lives[id].(status := Completed)
  {
  }

  /** Replaces one account's record, answering with the redirect to the user list. */
  function UpdateUser(db: Db, uid: UserId, f: User -> User): (r: ViewRun)
    ensures uid !in db.users ==> r == ViewRun(NotFound, db)
    ensures uid in db.users ==>
      r == ViewRun(Redirect("admin_users"), db.(users := db.users[uid := f(db.users[uid])]))
  {
    if uid !in db.users then ViewRun(NotFound, db)
    else ViewRun(Redirect("admin_users"), db.(users := db.users[uid := f(db.users[uid])]))
  }

  /** `approve_user`: the account becomes approved; nothing else changes. */
  function ApproveUser(db: Db, uid: UserId): (r: ViewRun)
    ensures uid !in db.users ==> r == ViewRun(NotFound, db)
    ensures uid in db.users ==>
      && r.response == Redirect("admin_users")
      && r.db == db.(users := db.users[uid := db.users[uid].(isApproved := true)])
  {
    UpdateUser(db, uid, (u: User) => u.(isApproved := true))
  }

  /** `reject_user`: the account becomes unapproved; nothing else changes. */
  function RejectUser(db: Db, uid: UserId): (r: ViewRun)
    ensures uid !in db.users ==> r == ViewRun(NotFound, db)
    ensures uid in db.users ==>
      && r.response == Redirect("admin_users")
      && r.db == db.(users := db.users[uid := db.users[uid].(isApproved := false)])
  {
    UpdateUser(db, uid, (u: User) => u.(isApproved := false))
  }

  /** `toggle_admin`: the account's admin flag is negated; nothing else changes. */
  function ToggleAdmin(db: Db, uid: UserId): (r: ViewRun)
    ensures uid !in db.users ==> r == ViewRun(NotFound, db)
    ensures uid in db.users ==>
      && r.response == Redirect("admin_users")
      && r.db == db.(users := db.users[uid := db.users[uid].(isAdmin := !db.users[uid].isAdmin)])
      && r.db.users[uid].isAdmin != db.users[uid].isAdmin
  {
    UpdateUser(db, uid, (u: User) => u.(isAdmin := !u.isAdmin))
  }

  /** Approving twice is approving once. */
  lemma ApproveIdempotent(db: Db, uid: UserId)
    ensures ApproveUser(ApproveUser(db, uid).db, uid).db == ApproveUser(db, uid).db
  {
  }

  /** Rejecting after approving leaves the account as if only rejected. */
  lemma RejectOverridesApprove(db: Db, uid: UserId)
    ensures RejectUser(ApproveUser(db, uid).db, uid).db == RejectUser(db, uid).db
  {
  }

  /** Toggling the admin flag twice restores the original database. */
  lemma ToggleAdminTwice(db: Db, uid: UserId)
    ensures ToggleAdmin(ToggleAdmin(db, uid).db, uid).db == db
  {
  }

  /** Approval is what opens the manual start of an owner's pending live. */
  lemma ApprovalEnablesStart(db: Db, uid: UserId, id: LiveId)
    requires uid in db.users && OwnsLive(db, uid, id) && db.lives[id].status == Pending
    ensures var approved := ApproveUser(db, uid).db;
      StartLive(approved, uid, id).response == Json(true, "Live démarré avec succès")
    ensures var rejected := RejectUser(db, uid).db;
      StartLive(rejected, uid, id).response == Json(false, "Live non démarré")
  {
  }

  /** Keeps, in order, the rows that satisfy `keep`. */
  function Filter(rows: seq<User>, keep: User -> bool): (r: seq<User>)
    ensures |r| <= |rows|
    ensures forall u {:trigger u in r} :: u in r <==> u in rows && keep(u)
    decreases |rows|
  {
    if |rows| == 0 then []
    else
      var rest := Filter(rows[..|rows| - 1], keep);
      var last := rows[|rows| - 1];
      assert rows == rows[..|rows| - 1] + [last];
      if keep(last) then rest + [last] else rest
  }

  /** Filtering keeps row order: filtering two runs of rows one after the
      other gives the filter of all of them. */
  lemma {:induction false} FilterAppend(a: seq<User>, b: seq<User>, keep: User -> bool)
    ensures Filter(a + b, keep) == Filter(a, keep) + Filter(b, keep)
    decreases |b|
  {
    if |b| == 0 {
      assert a + b == a;
    } else {
      var init := b[..|b| - 1];
      var last := b[|b| - 1];
      var tail := if keep(last) then [last] else [];
      assert Filter(b, keep) == Filter(init, keep) + tail;
      assert Filter(a + b, keep) == Filter(a + init, keep) + tail by {
        var ab := a + b;
        assert ab[..|ab| - 1] == a + init;
      }
      FilterAppend(a, init, keep);
      assert Filter(a, keep) + Filter(init, keep) + tail == Filter(a, keep) + (Filter(init, keep) + tail);
    }
  }

  /** Filtering by one predicate and then by another is filtering once by
      both, rows kept in the same order. */
  lemma {:induction false} FilterTwice(rows: seq<User>, first: User -> bool, second: User -> bool, both: User -> bool)
    requires forall u :: both(u) == (first(u) && second(u))
    ensures Filter(Filter(rows, first), second) == Filter(rows, both)
    decreases |rows|
  {
    if |rows| > 0 {
      var init := rows[..|rows| - 1];
      var last := rows[|rows| - 1];
      var head := Filter(init, first);
      var tail := if first(last) then [last] else [];
      assert Filter(rows, first) == head + tail;
      FilterAppend(head, tail, second);
      assert Filter(tail, second) == if both(last) then [last] else [] by {
        if first(last) {
          assert tail[..0] == [];
        }
      }
      FilterTwice(init, first, second, both);
    }
  }

  /** A row and its complement split the rows between them. */
  lemma {:induction false} FilterComplement(rows: seq<User>, keep: User -> bool, drop: User -> bool)
    requires forall u :: drop(u) == !keep(u)
    ensures |Filter(rows, keep)| + |Filter(rows, drop)| == |rows|
    decreases |rows|
  {
    if |rows| > 0 {
      FilterComplement(rows[..|rows| - 1], keep, drop);
    }
  }

  predicate IsPendingUser(u: User) { !u.isApproved }
  predicate IsApprovedUser(u: User) { u.isApproved }
  predicate IsAdminUser(u: User) { u.isAdmin }

  /** The search box: the text occurs, ignoring case, in the username or the email. */
  predicate MatchesSearch(u: User, search: string)
  {
    IContains(u.username, search) || IContains(u.email, search)
  }

  /** Whether an account is listed: it matches the search when one is given,
      and the status selector. */
  predicate Listed(u: User, search: string, statusFilter: string)
  {
    (search == "" || MatchesSearch(u, search)) && MatchesStatus(u, statusFilter)
  }

  /** The status selector; an unrecognised value keeps every row. */
  predicate MatchesStatus(u: User, statusFilter: string)
  {
    if statusFilter == "pending" then IsPendingUser(u)
    else if statusFilter == "approved" then IsApprovedUser(u)
    else if statusFilter == "admin" then IsAdminUser(u)
    else true
  }

  datatype Stats = Stats(total: nat, pending: nat, approved: nat, admin: nat)

  /** The rendered user list and the statistics shown above it. */
  datatype AdminPage = AdminPage(users: seq<User>, stats: Stats)

  /**
   * `admin_users`: the listing keeps, in the order the rows are given, the
   * accounts that match the search (when one is given) and the status
   * selector. The statistics count the whole table, whatever the search or
   * selector: all accounts, the unapproved, the approved and the admins.
   */
  function AdminUsers(rows: seq<User>, search: string, statusFilter: string): (r: AdminPage)
    ensures forall u :: u in r.users <==>
      u in rows && (search == "" || MatchesSearch(u, search)) && MatchesStatus(u, statusFilter)
    ensures r.stats.total == |rows|
    ensures r.stats.pending + r.stats.approved == r.stats.total
    ensures r.stats.admin <= r.stats.total
    ensures search == "" && statusFilter == "pending" ==> |r.users| == r.stats.pending
    ensures search == "" && statusFilter == "approved" ==> |r.users| == r.stats.approved
    ensures search == "" && statusFilter == "admin" ==> |r.users| == r.stats.admin
    ensures r.users == Filter(rows, (u: User) => Listed(u, search, statusFilter))
    ensures r.stats.pending == |Filter(rows, IsPendingUser)| && r.stats.approved == |Filter(rows, IsApprovedUser)|
    ensures r.stats.admin == |Filter(rows, IsAdminUser)|
  {
    var searched := if search == "" then rows else Filter(rows, (u: User) => MatchesSearch(u, search));
    var listed := Filter(searched, (u: User) => MatchesStatus(u, statusFilter));
    var pending := Filter(rows, IsPendingUser);
    var approved := Filter(rows, IsApprovedUser);
    FilterComplement(rows, IsPendingUser, IsApprovedUser);
    var stats := Stats(|rows|, |pending|, |approved|, |Filter(rows, IsAdminUser)|);
    assert statusFilter == "pending" ==> listed == Filter(searched, IsPendingUser) by {
      if statusFilter == "pending" {
        FilterSameKeep(searched, (u: User) => MatchesStatus(u, statusFilter), IsPendingUser);
      }
    }
    assert statusFilter == "approved" ==> listed == Filter(searched, IsApprovedUser) by {
      if statusFilter == "approved" {
        FilterSameKeep(searched, (u: User) => MatchesStatus(u, statusFilter), IsApprovedUser);
      }
    }
    assert statusFilter == "admin" ==> listed == Filter(searched, IsAdminUser) by {
      if statusFilter == "admin" {
        FilterSameKeep(searched, (u: User) => MatchesStatus(u, statusFilter), IsAdminUser);
      }
    }
    assert listed == Filter(rows, (u: User) => Listed(u, search, statusFilter)) by {
      if search == "" {
        FilterSameKeep(rows, (u: User) => MatchesStatus(u, statusFilter), (u: User) => Listed(u, search, statusFilter));
      } else {
        FilterTwice(rows, (u: User) => MatchesSearch(u, search), (u: User) => MatchesStatus(u, statusFilter),
                    (u: User) => Listed(u, search, statusFilter));
      }
    }
    AdminPage(listed, stats)
  }

  /** Two predicates that agree on every row select the same rows. */
  lemma {:induction false} FilterSameKeep(rows: seq<User>, keep: User -> bool, keep': User -> bool)
    requires forall u :: keep(u) == keep'(u)
    ensures Filter(rows, keep) == Filter(rows, keep')
    decreases |rows|
  {
    if |rows| > 0 {
      FilterSameKeep(rows[..|rows| - 1], keep, keep');
    }
  }
}
