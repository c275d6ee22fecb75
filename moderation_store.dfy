/**
 * The moderation store: the client-side cache of users, reports, messages and
 * per-user statistics, the admin actions that change it and record an audit
 * trail, and the selectors the dashboard and the report list read.
 */
module Moderation {
  import opened Wrappers
  import opened Seqs
  import opened Types
  import opened ModerationDerived
  import Api

  // ---------------------------------------------------------------- building the cache

  /** The user map: each fetched user set under its id, in fetch order. */
  method BuildUsersMap(us: seq<User>) returns (m: map<string, User>)
    ensures m == Keyed(us, UserId)
  {
    m := map[];
    var i := 0;
    while i < |us|
      invariant 0 <= i <= |us|
      invariant m == Keyed(us[..i], UserId)
    {
      assert us[..i + 1][..i] == us[..i];
      m := m[us[i].id := us[i]];
      i := i + 1;
    }
    assert us[..i] == us;
  }

  /** The report map: each fetched report, enhanced, set under its id, in fetch order. */
  method BuildReportsMap(rs: seq<Report>) returns (m: map<string, Report>)
    ensures m == ReportsMap(rs)
  {
    m := map[];
    var i := 0;
    while i < |rs|
      invariant 0 <= i <= |rs|
      invariant m == ReportsMap(rs[..i])
    {
      assert EnhanceAll(rs[..i + 1]) == EnhanceAll(rs[..i]) + [Enhance(rs[i])];
      assert EnhanceAll(rs[..i + 1])[..i] == EnhanceAll(rs[..i]);
      m := m[rs[i].id := Enhance(rs[i])];
      i := i + 1;
    }
    assert rs[..i] == rs;
  }

  /** The statistics map: each fetched user's statistics set under the user's id, in fetch order. */
  method BuildStats(us: seq<User>, rs: seq<Report>) returns (m: map<string, UserModerationStats>)
    ensures m == StatsMap(us, rs)
  {
    m := map[];
    var i := 0;
    while i < |us|
      invariant 0 <= i <= |us|
      invariant m == StatsMap(us[..i], rs)
    {
      assert us[..i + 1][..i] == us[..i];
      m := m[us[i].id := StatsFor(us[i], rs)];
      i := i + 1;
    }
    assert us[..i] == us;
  }

  /**
   * `Array.from(m.values())`: every value of a map keyed by its values' ids,
   * each once. The order (the map's insertion order) is not modelled.
   */
  method ValuesOf<T(==)>(m: map<string, T>, id: T -> string) returns (vs: seq<T>)
    requires forall k :: k in m ==> id(m[k]) == k
    ensures multiset(vs) == multiset(m.Values)
  {
    vs := [];
    var rest := m.Keys;
    while rest != {}
      invariant rest <= m.Keys
      invariant multiset(vs) == multiset(set k | k in m && k !in rest :: m[k])
      decreases |rest|
    {
      var k :| k in rest;
      var done := set j | j in m && j !in rest :: m[j];
      assert m[k] !in done;
      assert (set j | j in m && j !in rest - {k} :: m[j]) == done + {m[k]};
      vs := vs + [m[k]];
      rest := rest - {k};
    }
    assert (set k | k in m && k !in rest :: m[k]) == m.Values;
  }

  // ---------------------------------------------------------------- the store

  class ModerationStore {
    var users: map<string, User>
    var reports: map<string, Report>
    var messages: map<string, Message>
    var statsByUser: map<string, UserModerationStats>
    /** Newest first. */
    var auditLogs: seq<AuditLog>
    var loading: bool
    var error: Option<string>
    var dataLoaded: bool

    /** Every cached entry is stored under its own id. */
    ghost predicate Valid()
      reads this
    {
      && (forall k :: k in users ==> users[k].id == k)
      && KeyedById(reports)
      && (forall k :: k in messages ==> messages[k].id == k)
      && (forall k :: k in statsByUser ==> statsByUser[k].userId == k)
    }

    /** Nothing loaded, nothing logged, no error. */
    predicate IsInitial()
      reads this
    {
      && users == map[] && reports == map[] && messages == map[] && statsByUser == map[]
      && auditLogs == [] && !loading && error == None && !dataLoaded
    }

    constructor ()
      ensures Valid() && IsInitial()
    {
      users := map[];
      reports := map[];
      messages := map[];
      statsByUser := map[];
      auditLogs := [];
      loading := false;
      error := None;
      dataLoaded := false;
    }

    /**
     * Loads users and reports, given the backend's replies to both calls. A
     * users failure is reported before a reports failure, and either leaves
     * the cache as it was. On success the users, the enhanced reports and the
     * statistics are replaced; messages are never loaded.
     */
    method LoadData(usersReply: Reply<seq<User>>, reportsReply: Reply<seq<Report>>)
      requires Valid()
      modifies this
      ensures Valid()
      ensures !loading && messages == old(messages) && auditLogs == old(auditLogs)
      ensures usersReply.Err? ==> error == Some(usersReply.message)
      ensures usersReply.Ok? && reportsReply.Err? ==> error == Some(reportsReply.message)
      ensures usersReply.Err? || reportsReply.Err? ==>
        && users == old(users) && reports == old(reports) && statsByUser == old(statsByUser)
        && dataLoaded == old(dataLoaded)
      ensures usersReply.Ok? && reportsReply.Ok? ==>
        var us, rs := usersReply.data.GetOr([]), reportsReply.data.GetOr([]);
        && error == None && dataLoaded
        && users == Keyed(us, UserId)
        && reports == ReportsMap(rs)
        && statsByUser == StatsMap(us, rs)
    {
      loading := true;
      error := None;
      if usersReply.Err? {
        error := Some(usersReply.message);
        loading := false;
        return;
      }
      if reportsReply.Err? {
        error := Some(reportsReply.message);
        loading := false;
        return;
      }
      var us := usersReply.data.GetOr([]);
      var rs := reportsReply.data.GetOr([]);
      var usersMap := BuildUsersMap(us);
      var reportsMap := BuildReportsMap(rs);
      var stats := BuildStats(us, rs);
      ReportsMapDerived(rs);
      users := usersMap;
      reports := reportsMap;
      statsByUser := stats;
      loading := false;
      dataLoaded := true;
    }

    /**
     * Reloads the reports only; the statistics are not recomputed. A failed
     * call is swallowed and changes nothing.
     */
    method RefreshReports(reply: Reply<seq<Report>>)
      requires Valid()
      modifies this
      ensures Valid()
      ensures reports == if reply.Ok? then ReportsMap(reply.data.GetOr([])) else old(reports)
      ensures users == old(users) && messages == old(messages) && statsByUser == old(statsByUser)
      ensures auditLogs == old(auditLogs) && loading == old(loading) && error == old(error) && dataLoaded == old(dataLoaded)
    {
      if reply.Ok? {
        var rs := reply.data.GetOr([]);
        var reportsMap := BuildReportsMap(rs);
        ReportsMapDerived(rs);
        reports := reportsMap;
      }
    }

    /**
     * Reloads the users only; the statistics keep the user records they were
     * computed with. A failed call is swallowed and changes nothing.
     */
    method RefreshUsers(reply: Reply<seq<User>>)
      requires Valid()
      modifies this
      ensures Valid()
      ensures users == if reply.Ok? then Keyed(reply.data.GetOr([]), UserId) else old(users)
      ensures reports == old(reports) && messages == old(messages) && statsByUser == old(statsByUser)
      ensures auditLogs == old(auditLogs) && loading == old(loading) && error == old(error) && dataLoaded == old(dataLoaded)
    {
      if reply.Ok? {
        var usersMap := BuildUsersMap(reply.data.GetOr([]));
        users := usersMap;
      }
    }

    /** Puts a new entry, with the given id and time, at the head of the audit trail. */
    method AddAuditLog(adminId: string, adminEmail: string, action: string, targetType: string,
                       targetId: string, note: Option<string>, logId: string, now: int)
      requires Valid()
      modifies this
      ensures Valid()
      ensures auditLogs == [AuditLog(logId, adminId, adminEmail, action, targetType, targetId, note, now)] + old(auditLogs)
      ensures users == old(users) && reports == old(reports) && messages == old(messages) && statsByUser == old(statsByUser)
      ensures loading == old(loading) && error == old(error) && dataLoaded == old(dataLoaded)
    {
      auditLogs := [AuditLog(logId, adminId, adminEmail, action, targetType, targetId, note, now)] + auditLogs;
    }

    /**
     * Resolves a report, given the backend's outcome. On failure the error is
     * recorded and nothing else changes. On success the cached report, if any,
     * is marked resolved, and the action is logged even when the report was
     * not cached.
     */
    method ResolveReport(reportId: string, note: Option<string>, reply: Outcome, now: int, logId: string, logTime: int)
      returns (ok: bool)
      requires Valid()
      modifies this
      ensures Valid()
      ensures ok <==> reply.Success?
      ensures !ok ==> error == Some(reply.message) && reports == old(reports) && auditLogs == old(auditLogs)
      ensures ok ==>
        && error == old(error)
        && reports == (if reportId in old(reports) then old(reports)[reportId := MarkResolved(old(reports)[reportId], note, now)] else old(reports))
        && auditLogs == [Entry(logId, "RESOLVE_REPORT", "REPORT", reportId, note, logTime)] + old(auditLogs)
      ensures users == old(users) && messages == old(messages) && statsByUser == old(statsByUser)
      ensures loading == old(loading) && dataLoaded == old(dataLoaded)
    {
      if reply.Failure? {
        error := Some(reply.message);
        return false;
      }
      if reportId in reports {
        reports := reports[reportId := MarkResolved(reports[reportId], note, now)];
      }
      AddAuditLog(AdminId, AdminEmail, "RESOLVE_REPORT", "REPORT", reportId, note, logId, logTime);
      return true;
    }

    /**
     * Rejects a report. There is no backend call: the cached report, if any,
     * is marked rejected locally, the action is logged, and the result is
     * always success.
     */
    method RejectReport(reportId: string, note: Option<string>, now: int, logId: string, logTime: int) returns (ok: bool)
      requires Valid()
      modifies this
      ensures Valid()
      ensures ok
      ensures reports == if reportId in old(reports) then old(reports)[reportId := MarkRejected(old(reports)[reportId], note, now)] else old(reports)
      ensures auditLogs == [Entry(logId, "REJECT_REPORT", "REPORT", reportId, note, logTime)] + old(auditLogs)
      ensures users == old(users) && messages == old(messages) && statsByUser == old(statsByUser)
      ensures loading == old(loading) && error == old(error) && dataLoaded == old(dataLoaded)
    {
      if reportId in reports {
        reports := reports[reportId := MarkRejected(reports[reportId], note, now)];
      }
      AddAuditLog(AdminId, AdminEmail, "REJECT_REPORT", "REPORT", reportId, note, logId, logTime);
      return true;
    }

    /**
     * Deletes a report, given the backend's outcome. On success the report
     * leaves the cache; no audit entry is written.
     */
    method DeleteReport(reportId: string, reply: Outcome) returns (ok: bool)
      requires Valid()
      modifies this
      ensures Valid()
      ensures ok <==> reply.Success?
      ensures !ok ==> error == Some(reply.message) && reports == old(reports)
      ensures ok ==> error == old(error) && reports == old(reports) - {reportId}
      ensures users == old(users) && messages == old(messages) && statsByUser == old(statsByUser)
      ensures auditLogs == old(auditLogs) && loading == old(loading) && dataLoaded == old(dataLoaded)
    {
      if reply.Failure? {
        error := Some(reply.message);
        return false;
      }
      reports := reports - {reportId};
      return true;
    }

    /**
     * Sets a message's moderation status locally (no backend call) and logs a
     * hide or unhide action; always succeeds.
     */
    method SetMessageModeration(messageId: string, status: ModerationStatus, logId: string, now: int)
      returns (ok: bool)
      requires Valid()
      modifies this
      ensures Valid()
      ensures ok
      ensures messages == if messageId in old(messages)
        then old(messages)[messageId := old(messages)[messageId].(moderationStatus := Some(status))]
        else old(messages)
      ensures auditLogs == [Entry(logId, MessageAction(status), "MESSAGE", messageId, None, now)] + old(auditLogs)
      ensures users == old(users) && reports == old(reports) && statsByUser == old(statsByUser)
      ensures loading == old(loading) && error == old(error) && dataLoaded == old(dataLoaded)
    {
      if messageId in messages {
        messages := messages[messageId := messages[messageId].(moderationStatus := Some(status))];
      }
      AddAuditLog(AdminId, AdminEmail, MessageAction(status), "MESSAGE", messageId, None, logId, now);
      return true;
    }

    /**
     * Sets a user's status. `DELETED` calls the delete endpoint, every other
     * status the (empty) update endpoint; `called` is the endpoint used. On
     * success the cached statistics, if any, take the status, the action is
     * logged, and the users are refreshed with `refreshReply`.
     */
    method SetUserStatus(userId: string, status: UserStatus, note: Option<string>, reply: Outcome,
                         refreshReply: Reply<seq<User>>, logId: string, now: int)
      returns (ok: bool, called: Api.Endpoint)
      requires Valid()
      modifies this
      ensures Valid()
      ensures called == if status == Deleted then Api.DeleteUser(userId) else Api.UpdateUser(userId)
      ensures ok <==> reply.Success?
      ensures !ok ==>
        && error == Some(reply.message) && users == old(users)
        && statsByUser == old(statsByUser) && auditLogs == old(auditLogs)
      ensures ok ==>
        && error == old(error)
        && statsByUser == (if userId in old(statsByUser) then old(statsByUser)[userId := old(statsByUser)[userId].(status := status)] else old(statsByUser))
        && auditLogs == [Entry(logId, UserStatusAction(status), "USER", userId, note, now)] + old(auditLogs)
        && users == (if refreshReply.Ok? then Keyed(refreshReply.data.GetOr([]), UserId) else old(users))
      ensures reports == old(reports) && messages == old(messages)
      ensures loading == old(loading) && dataLoaded == old(dataLoaded)
    {
      called := if status == Deleted then Api.DeleteUser(userId) else Api.UpdateUser(userId);
      if reply.Failure? {
        error := Some(reply.message);
        return false, called;
      }
      if userId in statsByUser {
        statsByUser := statsByUser[userId := statsByUser[userId].(status := status)];
      }
      AddAuditLog(AdminId, AdminEmail, UserStatusAction(status), "USER", userId, note, logId, now);
      RefreshUsers(refreshReply);
      return true, called;
    }

    method ClearError()
      requires Valid()
      modifies this
      ensures Valid()
      ensures error == None
      ensures users == old(users) && reports == old(reports) && messages == old(messages) && statsByUser == old(statsByUser)
      ensures auditLogs == old(auditLogs) && loading == old(loading) && dataLoaded == old(dataLoaded)
    {
      error := None;
    }

    /** Back to the initial state: nothing cached, nothing logged. */
    method ResetStore()
      modifies this
      ensures Valid() && IsInitial()
    {
      users := map[];
      reports := map[];
      messages := map[];
      statsByUser := map[];
      auditLogs := [];
      loading := false;
      error := None;
      dataLoaded := false;
    }

    // -------------------------------------------------------------- selectors

    /** The cached statistics of a user, which are about that user, or `None`. */
    function GetUserModeration(userId: string): (s: Option<UserModerationStats>)
      reads this
      ensures s.Some? <==> userId in statsByUser
      ensures s.Some? ==> s.value == statsByUser[userId]
      ensures Valid() && s.Some? ==> s.value.userId == userId
    {
      if userId in statsByUser then Some(statsByUser[userId]) else None
    }

    /** The cached report with this id, or `None`. */
    function GetReportById(reportId: string): (r: Option<Report>)
      reads this
      ensures r.Some? <==> reportId in reports
      ensures r.Some? ==> r.value == reports[reportId]
      ensures Valid() && r.Some? ==> r.value.id == reportId
    {
      if reportId in reports then Some(reports[reportId]) else None
    }

    /**
     * The report list: every cached report the filters keep, each once, newest
     * first.
     */
    method GetFilteredReports(filters: ReportFilters) returns (out: seq<Report>)
      requires Valid()
      ensures SortedDesc(out, CreatedAt)
      ensures multiset(out) == multiset(Where(reports.Values, Matching(filters, users)))
    {
      var all := ValuesOf(reports, ReportId);
      var kept := Filter(all, Matching(filters, users));
      FilterOfSet(all, reports.Values, Matching(filters, users));
      out := SortDesc(kept, CreatedAt);
    }

    /**
     * The dashboard: how many cached reports are open; up to ten users with at
     * least one report, most reported first, none left out who has more
     * reports than the last one shown; up to ten open reports, newest first,
     * none left out newer than the last one shown.
     */
    method GetDashboardSummary() returns (summary: DashboardSummary)
      requires Valid()
      ensures summary.openReportsCount == |Where(reports.Values, IsOpen)|
      ensures
        var top, candidates := summary.topReportedUsers, Where(statsByUser.Values, HasReports);
        && SortedDesc(top, ReportsReceived)
        && |top| == (if |candidates| <= 10 then |candidates| else 10)
        && multiset(top) <= multiset(candidates)
        && forall s :: s in candidates && s !in top ==> |top| == 10 && s.reportsReceived <= top[9].reportsReceived
      ensures
        var recent, candidates := summary.recentOpenReports, Where(reports.Values, IsOpen);
        && SortedDesc(recent, CreatedAt)
        && |recent| == (if |candidates| <= 10 then |candidates| else 10)
        && multiset(recent) <= multiset(candidates)
        && forall r :: r in candidates && r !in recent ==> |recent| == 10 && r.createdAt <= recent[9].createdAt
    {
      var allReports := ValuesOf(reports, ReportId);
      var openReports := Filter(allReports, IsOpen);
      FilterOfSet(allReports, reports.Values, IsOpen);
      var recent := Take(SortDesc(openReports, CreatedAt), 10);
      TopOfSet(allReports, reports.Values, IsOpen, CreatedAt, 10);

      var allStats := ValuesOf(statsByUser, StatsUserId);
      var top := Take(SortDesc(Filter(allStats, HasReports), ReportsReceived), 10);
      TopOfSet(allStats, statsByUser.Values, HasReports, ReportsReceived, 10);

      summary := DashboardSummary(|openReports|, top, recent);
    }
  }
}
