/**
 * What the moderation cache derives from the backend's users and reports: the
 * enhanced reports, the per-user statistics, and the predicates its selectors
 * filter and sort by. Everything here is a pure function of its arguments.
 */
module ModerationDerived {
  import opened Wrappers
  import opened Strings
  import opened Seqs
  import opened Types

  // ---------------------------------------------------------------- keys

  function UserId(u: User): string { u.id }
  function ReportId(r: Report): string { r.id }
  function StatsUserId(s: UserModerationStats): string { s.userId }
  function CreatedAt(r: Report): int { r.createdAt }
  function ReportsReceived(s: UserModerationStats): int { s.reportsReceived }

  /** The normalised id of the user a report is about. */
  function TargetId(r: Report): string { RefId(r.target) }

  /** The normalised id of the user who filed a report. */
  function SenderId(r: Report): string { RefId(r.sender) }

  // ---------------------------------------------------------------- reports

  /**
   * A report as the cache keeps it: `status` derived from `isResolved`, and
   * `targetType` always `USER`; every other field as the backend sent it.
   */
  function Enhance(r: Report): (e: Report)
    ensures e.status == Some(if r.isResolved then Resolved else Open)
    ensures e.targetType == Some(UserTarget)
    ensures e.(status := r.status, targetType := r.targetType) == r
  {
    r.(status := Some(if r.isResolved then Resolved else Open), targetType := Some(UserTarget))
  }

  function EnhanceAll(rs: seq<Report>): (es: seq<Report>)
    ensures |es| == |rs|
    ensures forall i :: 0 <= i < |rs| ==> es[i] == Enhance(rs[i])
  {
    seq(|rs|, i requires 0 <= i < |rs| => Enhance(rs[i]))
  }

  /** The report map `loadData` and `refreshReports` build from a fetched list. */
  function ReportsMap(rs: seq<Report>): map<string, Report> {
    Keyed(EnhanceAll(rs), ReportId)
  }

  /**
   * Every cached report is keyed by its own id, is one of the fetched reports
   * with its status derived (`RESOLVED` exactly when resolved, `OPEN`
   * otherwise) and its target type `USER`; and every fetched id is cached.
   */
  lemma ReportsMapDerived(rs: seq<Report>)
    ensures ReportsMap(rs).Keys == set r | r in rs :: r.id
    ensures forall k :: k in ReportsMap(rs) ==>
      var e := ReportsMap(rs)[k];
      && e.id == k
      && e.status == Some(if e.isResolved then Resolved else Open)
      && e.targetType == Some(UserTarget)
      && exists i :: 0 <= i < |rs| && e == Enhance(rs[i])
  {
    ReportsMapKeys(rs);
    ReportsMapValues(rs);
  }

  lemma ReportsMapKeys(rs: seq<Report>)
    ensures ReportsMap(rs).Keys == set r | r in rs :: r.id
  {
    var es := EnhanceAll(rs);
    assert ReportsMap(rs).Keys == set r | r in es :: ReportId(r);
    forall i | 0 <= i < |rs|
      ensures rs[i].id in ReportsMap(rs).Keys
    {
      assert es[i] in es && ReportId(es[i]) == rs[i].id;
    }
  }

  lemma ReportsMapValues(rs: seq<Report>)
    ensures forall k :: k in ReportsMap(rs) ==>
      var e := ReportsMap(rs)[k];
      && e.id == k
      && e.status == Some(if e.isResolved then Resolved else Open)
      && e.targetType == Some(UserTarget)
      && exists i :: 0 <= i < |rs| && e == Enhance(rs[i])
  {
    var es := EnhanceAll(rs);
    forall k | k in ReportsMap(rs)
      ensures exists i :: 0 <= i < |rs| && ReportsMap(rs)[k] == Enhance(rs[i])
    {
      assert ReportsMap(rs)[k] in es;
      var i :| 0 <= i < |es| && es[i] == ReportsMap(rs)[k];
    }
  }

  // ---------------------------------------------------------------- statistics

  /** "This report is about user `uid`." */
  function Targets(uid: string): Report -> bool {
    r => TargetId(r) == uid
  }

  /** "This report is about user `uid` and not resolved." */
  function TargetsOpen(uid: string): Report -> bool {
    r => TargetId(r) == uid && !r.isResolved
  }

  function Unresolved(r: Report): bool { !r.isResolved }

  /** Positions of reports about `uid`. */
  function Against(rs: seq<Report>, uid: string): set<int> {
    set i | 0 <= i < |rs| && TargetId(rs[i]) == uid
  }

  /** Positions of unresolved reports about `uid`. */
  function OpenAgainst(rs: seq<Report>, uid: string): set<int> {
    set i | 0 <= i < |rs| && TargetId(rs[i]) == uid && !rs[i].isResolved
  }

  /**
   * The statistics `loadData` computes for one user: the reports about the
   * user (by normalised target id), the unresolved ones among them, the newest
   * report's time, and a status that only tells deleted from active. What the
   * counts mean is stated by `StatsReceived`, `StatsOpen` and `StatsLastReported`.
   */
  function StatsFor(u: User, rs: seq<Report>): (s: UserModerationStats)
    ensures s.userId == u.id && s.user == Some(u)
    ensures s.status == if Flag(u.isDelete) then Deleted else Active
    ensures s.reportedMessagesCount == 0 && s.toxicityStrikes == 0
  {
    var userReports := Filter(rs, Targets(u.id));
    var openReports := Filter(userReports, Unresolved);
    var last := if |userReports| > 0 then Some(SortDesc(userReports, CreatedAt)[0].createdAt) else None;
    UserModerationStats(
      u.id, Some(u), |userReports|, |openReports|, 0, last, 0,
      if Flag(u.isDelete) then Deleted else Active)
  }

  /** A user's received count is the number of reports about the user. */
  lemma StatsReceived(u: User, rs: seq<Report>)
    ensures StatsFor(u, rs).reportsReceived == |Against(rs, u.id)|
  {
    var p := Targets(u.id);
    assert StatsFor(u, rs).reportsReceived == |Filter(rs, p)|;
    FilterCount(rs, p);
    assert Against(rs, u.id) == Positions(rs, p);
  }

  /**
   * A user's open count is the number of unresolved reports about the user;
   * so open never exceeds received.
   */
  lemma StatsOpen(u: User, rs: seq<Report>)
    ensures StatsFor(u, rs).openReports == |OpenAgainst(rs, u.id)|
    ensures StatsFor(u, rs).openReports <= StatsFor(u, rs).reportsReceived
  {
    var p, q, both := Targets(u.id), Unresolved, TargetsOpen(u.id);
    assert StatsFor(u, rs).openReports == |Filter(Filter(rs, p), q)|;
    FilterFilter(rs, p, q, both);
    FilterCount(rs, both);
    assert OpenAgainst(rs, u.id) == Positions(rs, both);
    StatsReceived(u, rs);
    assert OpenAgainst(rs, u.id) <= Against(rs, u.id);
    SubsetCard(OpenAgainst(rs, u.id), Against(rs, u.id));
  }

  lemma SubsetCard(a: set<int>, b: set<int>)
    requires a <= b
    ensures |a| <= |b|
  {
    assert b == a + (b - a);
  }

  /**
   * The last-reported time is absent exactly when no report is about the
   * user, and otherwise is the largest creation time among those reports.
   */
  lemma StatsLastReported(u: User, rs: seq<Report>)
    ensures StatsFor(u, rs).lastReportedAt.None? <==> Against(rs, u.id) == {}
    ensures StatsFor(u, rs).lastReportedAt.Some? ==>
      var t := StatsFor(u, rs).lastReportedAt.value;
      && (exists i :: i in Against(rs, u.id) && rs[i].createdAt == t)
      && (forall i :: i in Against(rs, u.id) ==> rs[i].createdAt <= t)
  {
    StatsReceived(u, rs);
    StatsOpen(u, rs);
    var userReports := Filter(rs, Targets(u.id));
    if |userReports| > 0 {
      LatestIsMax(rs, u.id, userReports);
    }
  }

  /**
   * The first report after sorting a user's reports by non-increasing time is
   * the newest report about the user.
   */
  lemma LatestIsMax(rs: seq<Report>, uid: string, userReports: seq<Report>)
    requires userReports == Filter(rs, Targets(uid)) && |userReports| > 0
    ensures
      var t := SortDesc(userReports, CreatedAt)[0].createdAt;
      && (exists i :: i in Against(rs, uid) && rs[i].createdAt == t)
      && (forall i :: i in Against(rs, uid) ==> rs[i].createdAt <= t)
  {
    var sorted := SortDesc(userReports, CreatedAt);
    FilterMultiset(rs, Targets(uid));
    assert multiset(sorted) == multiset(userReports);
    assert sorted[0] in multiset(sorted);
    var first := sorted[0];
    assert first in rs && TargetId(first) == uid;
    var i0 :| 0 <= i0 < |rs| && rs[i0] == first;
    assert i0 in Against(rs, uid);
    forall i | i in Against(rs, uid)
      ensures rs[i].createdAt <= first.createdAt
    {
      assert rs[i] in userReports;
      assert rs[i] in multiset(sorted);
      var j :| 0 <= j < |sorted| && sorted[j] == rs[i];
      assert j == 0 || CreatedAt(sorted[0]) >= CreatedAt(sorted[j]);
    }
  }

  /**
   * The statistics map `loadData` builds: one entry per loaded user id,
   * computed for the user the user map keeps under that id (the last one
   * fetched with that id).
   */
  function StatsMap(us: seq<User>, rs: seq<Report>): (m: map<string, UserModerationStats>)
    ensures m.Keys == Keyed(us, UserId).Keys
    ensures forall k :: k in m ==> m[k] == StatsFor(Keyed(us, UserId)[k], rs)
  {
    if us == [] then map[]
    else
      var init := us[..|us| - 1];
      var last := us[|us| - 1];
      assert us == init + [last];
      StatsMap(init, rs)[last.id := StatsFor(last, rs)]
  }

  /**
   * Statistics depend on a report's target only through its normalised id: a
   * report list whose references are written the other way (bare id or embedded
   * user) gives the same statistics.
   */
  lemma StatsIgnoreReferenceForm(u: User, rs: seq<Report>, rs': seq<Report>)
    requires |rs| == |rs'|
    requires forall i :: 0 <= i < |rs| ==>
      TargetId(rs'[i]) == TargetId(rs[i]) && rs'[i].isResolved == rs[i].isResolved && rs'[i].createdAt == rs[i].createdAt
    ensures StatsFor(u, rs) == StatsFor(u, rs')
  {
    StatsReceived(u, rs);
    StatsOpen(u, rs);
    StatsReceived(u, rs');
    StatsOpen(u, rs');
    StatsLastReported(u, rs);
    StatsLastReported(u, rs');
    var a, b := StatsFor(u, rs), StatsFor(u, rs');
    assert Against(rs, u.id) == Against(rs', u.id);
    assert OpenAgainst(rs, u.id) == OpenAgainst(rs', u.id);
    if a.lastReportedAt.Some? {
      var i :| i in Against(rs, u.id) && rs[i].createdAt == a.lastReportedAt.value;
      var j :| j in Against(rs', u.id) && rs'[j].createdAt == b.lastReportedAt.value;
      assert a.lastReportedAt.value >= rs[j].createdAt;
      assert b.lastReportedAt.value >= rs'[i].createdAt;
    }
  }

  /** "This report is about user `uid` and counted as open on the dashboard." */
  function OpenFor(uid: string): Report -> bool {
    r => TargetId(r) == uid && IsOpen(r)
  }

  /**
   * Right after a load whose reports have pairwise different ids, the
   * statistics and the report cache agree: a user's open count is the number
   * of cached reports about the user that the dashboard counts as open.
   */
  lemma OpenStatsMatchCache(u: User, rs: seq<Report>)
    requires forall i, j :: 0 <= i < j < |rs| ==> rs[i].id != rs[j].id
    ensures StatsFor(u, rs).openReports == |Where(ReportsMap(rs).Values, OpenFor(u.id))|
  {
    var es := EnhanceAll(rs);
    var at := OpenAgainst(rs, u.id);
    StatsOpen(u, rs);
    CachedOpenAreEnhanced(u.id, rs);
    ElementsAtCount(es, at);
  }

  /** The cached open reports about a user are the enhanced open reports fetched for the user. */
  lemma CachedOpenAreEnhanced(uid: string, rs: seq<Report>)
    requires forall i, j :: 0 <= i < j < |rs| ==> rs[i].id != rs[j].id
    ensures forall i, j :: i in OpenAgainst(rs, uid) && j in OpenAgainst(rs, uid) && EnhanceAll(rs)[i] == EnhanceAll(rs)[j] ==> i == j
    ensures Where(ReportsMap(rs).Values, OpenFor(uid)) == ElementsAt(EnhanceAll(rs), OpenAgainst(rs, uid))
  {
    var es := EnhanceAll(rs);
    var at := OpenAgainst(rs, uid);
    forall i, j | i in at && j in at && es[i] == es[j]
      ensures i == j
    {
      assert es[i].id == rs[i].id && es[j].id == rs[j].id;
    }
    CachedOpenFetched(uid, rs);
    FetchedOpenCached(uid, rs);
  }

  lemma CachedOpenFetched(uid: string, rs: seq<Report>)
    ensures Where(ReportsMap(rs).Values, OpenFor(uid)) <= ElementsAt(EnhanceAll(rs), OpenAgainst(rs, uid))
  {
    var es := EnhanceAll(rs);
    forall r | r in Where(ReportsMap(rs).Values, OpenFor(uid))
      ensures r in ElementsAt(es, OpenAgainst(rs, uid))
    {
      ReportsMapDerived(rs);
      var k :| k in ReportsMap(rs) && ReportsMap(rs)[k] == r;
      var i :| 0 <= i < |rs| && r == Enhance(rs[i]);
      assert es[i] == r;
      assert i in OpenAgainst(rs, uid);
    }
  }

  lemma FetchedOpenCached(uid: string, rs: seq<Report>)
    requires forall i, j :: 0 <= i < j < |rs| ==> rs[i].id != rs[j].id
    ensures ElementsAt(EnhanceAll(rs), OpenAgainst(rs, uid)) <= Where(ReportsMap(rs).Values, OpenFor(uid))
  {
    var es := EnhanceAll(rs);
    forall i | 0 <= i < |es| ensures es[i].id == rs[i].id {}
    KeyedUnique(es, ReportId);
    forall i | i in OpenAgainst(rs, uid)
      ensures es[i] in Where(ReportsMap(rs).Values, OpenFor(uid))
    {
      assert ReportsMap(rs)[ReportId(es[i])] == es[i];
    }
  }

  /** A user no report is about has no received and no open reports, and no last report time. */
  lemma UnreportedUserStats(u: User, rs: seq<Report>)
    requires forall r :: r in rs ==> TargetId(r) != u.id
    ensures StatsFor(u, rs).reportsReceived == 0 && StatsFor(u, rs).openReports == 0
    ensures StatsFor(u, rs).lastReportedAt == None
  {
    StatsReceived(u, rs);
    StatsOpen(u, rs);
    StatsLastReported(u, rs);
    assert Against(rs, u.id) == {};
  }

  // ---------------------------------------------------------------- selectors

  /** Counted as open on the dashboard: status `OPEN` or `UNDER_REVIEW`. */
  predicate IsOpen(r: Report) {
    r.status == Some(Open) || r.status == Some(UnderReview)
  }

  /** Listed among the top reported users: at least one report received. */
  predicate HasReports(s: UserModerationStats) {
    s.reportsReceived > 0
  }

  /**
   * The search of the report list: the lower-cased query occurs in the
   * lower-cased report id, the username of the reporter or of the target (as
   * found in the user map by normalised id), or the content.
   */
  predicate MatchesSearch(r: Report, query: string, users: map<string, User>) {
    var q := Lower(query);
    || Contains(Lower(r.id), q)
    || (SenderId(r) in users && Contains(Lower(users[SenderId(r)].username), q))
    || (TargetId(r) in users && Contains(Lower(users[TargetId(r)].username), q))
    || Contains(Lower(r.content), q)
  }

  /**
   * What the report list keeps: a report whose status and target type the
   * filters admit, and, when a non-empty search is given, that matches it.
   * The reason-code filter is never consulted.
   */
  predicate MatchesFilters(r: Report, f: ReportFilters, users: map<string, User>) {
    && Admits(f.status, r.status)
    && Admits(f.targetType, r.targetType)
    && (f.search.None? || f.search.value == "" || MatchesSearch(r, f.search.value, users))
  }

  /** The reason-code field of the filters makes no difference to what is kept. */
  lemma ReasonCodeIgnored(r: Report, f: ReportFilters, code: Option<Choice<ReasonCode>>, users: map<string, User>)
    ensures MatchesFilters(r, f, users) == MatchesFilters(r, f.(reasonCode := code), users)
  {
  }

  /** Empty filters keep every report. */
  lemma EmptyFiltersKeepAll(r: Report, users: map<string, User>)
    ensures MatchesFilters(r, ReportFilters(None, None, None, None), users)
  {
  }

  /** The search and filter test as a value, for filtering a list of reports. */
  function Matching(f: ReportFilters, users: map<string, User>): Report -> bool {
    r => MatchesFilters(r, f, users)
  }

  // ---------------------------------------------------------------- report actions

  /** A report as `resolveReport` leaves it: resolved, with the note and the time of the change. */
  function MarkResolved(r: Report, note: Option<string>, now: int): (e: Report)
    ensures e.isResolved && e.status == Some(Resolved) && !IsOpen(e)
    ensures e.resolutionNote == note && e.updatedAt == now
    ensures e.(isResolved := r.isResolved, status := r.status, resolutionNote := r.resolutionNote, updatedAt := r.updatedAt) == r
  {
    r.(isResolved := true, status := Some(Resolved), resolutionNote := note, updatedAt := now)
  }

  /**
   * A report as `rejectReport` leaves it: status `REJECTED`, with the note and
   * the time of the change; `isResolved` is left as it was.
   */
  function MarkRejected(r: Report, note: Option<string>, now: int): (e: Report)
    ensures e.status == Some(Rejected) && !IsOpen(e) && e.isResolved == r.isResolved
    ensures e.resolutionNote == note && e.updatedAt == now
    ensures e.(status := r.status, resolutionNote := r.resolutionNote, updatedAt := r.updatedAt) == r
  {
    r.(status := Some(Rejected), resolutionNote := note, updatedAt := now)
  }

  /**
   * A rejection is local only: the backend still holds the report unresolved,
   * so the next load shows it as `OPEN` again.
   */
  lemma RejectionUndoneByReload(r: Report, note: Option<string>, now: int)
    requires !r.isResolved
    ensures IsOpen(Enhance(r)) && !IsOpen(MarkRejected(r, note, now))
    ensures Enhance(MarkRejected(r, note, now)).status == Some(Open)
  {
  }

  /** Every map entry is stored under its own id. */
  predicate KeyedById(m: map<string, Report>) {
    forall k :: k in m ==> m[k].id == k
  }

  /**
   * Replacing an open report by one that is not open, under the same id,
   * lowers the number of open reports by exactly one.
   */
  lemma {:induction false} ClosingLowersOpenCount(m: map<string, Report>, id: string, e: Report)
    requires KeyedById(m) && id in m && IsOpen(m[id])
    requires e.id == id && !IsOpen(e)
    ensures |Where(m[id := e].Values, IsOpen)| == |Where(m.Values, IsOpen)| - 1
  {
    var before, after := Where(m.Values, IsOpen), Where(m[id := e].Values, IsOpen);
    assert m[id] in before;
    forall r | r in after
      ensures r in before - {m[id]}
    {
      var k :| k in m[id := e] && m[id := e][k] == r;
      assert k != id;
    }
    forall r | r in before - {m[id]}
      ensures r in after
    {
      var k :| k in m && m[k] == r;
      assert k != id;
      assert m[id := e][k] == r;
    }
    assert after == before - {m[id]};
  }

  /** Removing an open report lowers the number of open reports by exactly one. */
  lemma {:induction false} RemovingLowersOpenCount(m: map<string, Report>, id: string)
    requires KeyedById(m) && id in m && IsOpen(m[id])
    ensures |Where((m - {id}).Values, IsOpen)| == |Where(m.Values, IsOpen)| - 1
  {
    var before, after := Where(m.Values, IsOpen), Where((m - {id}).Values, IsOpen);
    assert m[id] in before;
    forall r | r in after
      ensures r in before - {m[id]}
    {
      var k :| k in m - {id} && (m - {id})[k] == r;
      assert m[k] == r && k != id;
    }
    forall r | r in before - {m[id]}
      ensures r in after
    {
      var k :| k in m && m[k] == r;
      assert k != id;
      assert (m - {id})[k] == r;
    }
    assert after == before - {m[id]};
  }

  // ---------------------------------------------------------------- audit trail

  const AdminId: string := "current-admin"
  const AdminEmail: string := "admin@skillexchange.com"

  /** The action recorded when a message's moderation status is set. */
  function MessageAction(status: ModerationStatus): (a: string)
    ensures a == "HIDE_MESSAGE" <==> status == HiddenAdmin
    ensures a == "UNHIDE_MESSAGE" <==> status != HiddenAdmin
  {
    if status == HiddenAdmin then "HIDE_MESSAGE" else "UNHIDE_MESSAGE"
  }

  const UserStatusActionPrefix: string := "SET_USER_STATUS_"

  /** The action recorded when a user's status is set: the prefix, then the status value. */
  function UserStatusAction(status: UserStatus): (a: string)
    ensures |a| > |UserStatusActionPrefix| && a[..|UserStatusActionPrefix|] == UserStatusActionPrefix
    ensures ParseUserStatus(a[|UserStatusActionPrefix|..]) == Some(status)
  {
    var a := UserStatusActionPrefix + UserStatusName(status);
    assert a[|UserStatusActionPrefix|..] == UserStatusName(status);
    UserStatusNameRoundTrip(status);
    a
  }

  /** Different statuses are recorded as different actions. */
  lemma UserStatusActionInjective(s: UserStatus, t: UserStatus)
    requires UserStatusAction(s) == UserStatusAction(t)
    ensures s == t
  {
    assert Some(s) == ParseUserStatus(UserStatusAction(t)[|UserStatusActionPrefix|..]);
  }

  /** An audit entry recorded by the moderation actions, always for the fixed admin. */
  function Entry(logId: string, action: string, targetType: string, targetId: string, note: Option<string>, now: int): AuditLog {
    AuditLog(logId, AdminId, AdminEmail, action, targetType, targetId, note, now)
  }
}
