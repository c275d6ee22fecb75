/**
 * The records and enumerations the admin dashboard exchanges with its backend
 * and keeps in its stores. Timestamps are integers (milliseconds); optional
 * TypeScript properties are `Option`s.
 */
module Types {
  import opened Wrappers

  // ---------------------------------------------------------------- enumerations

  datatype ReportStatus = Open | UnderReview | Resolved | Rejected

  datatype TargetType = UserTarget | MessageTarget

  datatype ReasonCode = Harassment | Spam | Hate | Scam | Violence | Other

  datatype UserStatus = Active | Suspended | Banned | Deleted

  datatype ModerationStatus = Visible | HiddenAuto | HiddenAdmin

  /** Pairwise distinct elements. */
  predicate Distinct<T(==)>(s: seq<T>) {
    forall i, j :: 0 <= i < j < |s| ==> s[i] != s[j]
  }

  /** `ReportStatus` is closed: exactly these four values. */
  function AllReportStatuses(): (all: seq<ReportStatus>)
    ensures |all| == 4 && Distinct(all)
  {
    [Open, UnderReview, Resolved, Rejected]
  }

  /** Every `ReportStatus` value is listed. */
  lemma ReportStatusListed(s: ReportStatus)
    ensures s in AllReportStatuses()
  {
    match s
    case Open => assert AllReportStatuses()[0] == s;
    case UnderReview => assert AllReportStatuses()[1] == s;
    case Resolved => assert AllReportStatuses()[2] == s;
    case Rejected => assert AllReportStatuses()[3] == s;
  }

  /** `TargetType` is closed: exactly these two values. */
  function AllTargetTypes(): (all: seq<TargetType>)
    ensures |all| == 2 && Distinct(all)
  {
    [UserTarget, MessageTarget]
  }

  /** Every `TargetType` value is listed. */
  lemma TargetTypeListed(t: TargetType)
    ensures t in AllTargetTypes()
  {
    match t
    case UserTarget => assert AllTargetTypes()[0] == t;
    case MessageTarget => assert AllTargetTypes()[1] == t;
  }

  /** `ReasonCode` is closed: exactly these six values. */
  function AllReasonCodes(): (all: seq<ReasonCode>)
    ensures |all| == 6 && Distinct(all)
  {
    [Harassment, Spam, Hate, Scam, Violence, Other]
  }

  /** Every `ReasonCode` value is listed. */
  lemma ReasonCodeListed(c: ReasonCode)
    ensures c in AllReasonCodes()
  {
    match c
    case Harassment => assert AllReasonCodes()[0] == c;
    case Spam => assert AllReasonCodes()[1] == c;
    case Hate => assert AllReasonCodes()[2] == c;
    case Scam => assert AllReasonCodes()[3] == c;
    case Violence => assert AllReasonCodes()[4] == c;
    case Other => assert AllReasonCodes()[5] == c;
  }

  /** `UserStatus` is closed: exactly these four values. */
  function AllUserStatuses(): (all: seq<UserStatus>)
    ensures |all| == 4 && Distinct(all)
  {
    [Active, Suspended, Banned, Deleted]
  }

  /** Every `UserStatus` value is listed. */
  lemma UserStatusListed(s: UserStatus)
    ensures s in AllUserStatuses()
  {
    match s
    case Active => assert AllUserStatuses()[0] == s;
    case Suspended => assert AllUserStatuses()[1] == s;
    case Banned => assert AllUserStatuses()[2] == s;
    case Deleted => assert AllUserStatuses()[3] == s;
  }

  /** `ModerationStatus` is closed: exactly these three values. */
  function AllModerationStatuses(): (all: seq<ModerationStatus>)
    ensures |all| == 3 && Distinct(all)
  {
    [Visible, HiddenAuto, HiddenAdmin]
  }

  /** Every `ModerationStatus` value is listed. */
  lemma ModerationStatusListed(m: ModerationStatus)
    ensures m in AllModerationStatuses()
  {
    match m
    case Visible => assert AllModerationStatuses()[0] == m;
    case HiddenAuto => assert AllModerationStatuses()[1] == m;
    case HiddenAdmin => assert AllModerationStatuses()[2] == m;
  }

  /** The string value of a `UserStatus` member. */
  function UserStatusName(s: UserStatus): string {
    match s
    case Active => "ACTIVE"
    case Suspended => "SUSPENDED"
    case Banned => "BANNED"
    case Deleted => "DELETED"
  }

  /** Reads a `UserStatus` back from its string value. */
  function ParseUserStatus(name: string): Option<UserStatus> {
    if name == "ACTIVE" then Some(Active)
    else if name == "SUSPENDED" then Some(Suspended)
    else if name == "BANNED" then Some(Banned)
    else if name == "DELETED" then Some(Deleted)
    else None
  }

  /** Every status name reads back as the status it names, so no two statuses share a name. */
  lemma UserStatusNameRoundTrip(s: UserStatus)
    ensures ParseUserStatus(UserStatusName(s)) == Some(s)
  {
  }

  // ---------------------------------------------------------------- records

  /** A backend user. The optional profile fields the core never reads are not modelled. */
  datatype User = User(
    id: string,
    username: string,
    email: string,
    isDelete: Option<bool>,
    isAdmin: Option<bool>)

  /** `isDelete` / `isAdmin` are set only when present and `true`. */
  predicate Flag(b: Option<bool>) {
    b == Some(true)
  }

  /** A report's `senderID` / `targetID`: a bare user id or an embedded user. */
  datatype UserRef = ById(id: string) | Embedded(user: User)

  /** `typeof ref === "string" ? ref : ref._id`. */
  function RefId(ref: UserRef): string {
    match ref
    case ById(id) => id
    case Embedded(u) => u.id
  }

  /** Both forms of a reference to the same user normalise to the same id. */
  lemma RefFormsAgree(u: User)
    ensures RefId(Embedded(u)) == RefId(ById(u.id)) == u.id
  {
  }

  /**
   * A report. `isDeleted` and `isResolved` always come from the backend;
   * `status`, `targetType`, `reasonCode`, `resolutionNote` and the rest are
   * optional extensions filled in on the client.
   */
  datatype Report = Report(
    id: string,
    sender: UserRef,
    target: UserRef,
    content: string,
    evidence: Option<string>,
    isDeleted: bool,
    isResolved: bool,
    createdAt: int,
    updatedAt: int,
    status: Option<ReportStatus>,
    targetType: Option<TargetType>,
    reasonCode: Option<ReasonCode>,
    resolutionNote: Option<string>,
    resolvedByAdminId: Option<string>,
    targetMessageId: Option<string>)

  /** A chat message, with the client-side moderation status. */
  datatype Message = Message(
    id: string,
    chatId: string,
    sender: UserRef,
    content: string,
    createdAt: int,
    toxicityScore: Option<int>,
    moderationStatus: Option<ModerationStatus>)

  /** Per-user figures derived from the report set. */
  datatype UserModerationStats = UserModerationStats(
    userId: string,
    user: Option<User>,
    reportsReceived: nat,
    openReports: nat,
    reportedMessagesCount: nat,
    lastReportedAt: Option<int>,
    toxicityStrikes: nat,
    status: UserStatus)

  /** One entry of the client-side audit trail. */
  datatype AuditLog = AuditLog(
    id: string,
    adminId: string,
    adminEmail: string,
    action: string,
    targetType: string,
    targetId: string,
    note: Option<string>,
    createdAt: int)

  datatype DashboardSummary = DashboardSummary(
    openReportsCount: nat,
    topReportedUsers: seq<UserModerationStats>,
    recentOpenReports: seq<Report>)

  /** A filter value: the `"ALL"` sentinel or one enumeration member. */
  datatype Choice<T> = All | Only(value: T)

  /** Every field is optional; an absent field and `"ALL"` both mean "no constraint". */
  datatype ReportFilters = ReportFilters(
    status: Option<Choice<ReportStatus>>,
    targetType: Option<Choice<TargetType>>,
    reasonCode: Option<Choice<ReasonCode>>,
    search: Option<string>)

  /** `!f || f === "ALL" || v === f`. */
  predicate Admits<T(==)>(f: Option<Choice<T>>, v: Option<T>) {
    match f
    case None => true
    case Some(All) => true
    case Some(Only(x)) => v == Some(x)
  }

  /** An absent field or `"ALL"` admits every value; `Only(x)` admits exactly `x`. */
  lemma AdmitsMeaning<T>(f: Option<Choice<T>>, v: Option<T>)
    ensures (f == None || f == Some(All)) ==> Admits(f, v)
    ensures forall x :: f == Some(Only(x)) ==> (Admits(f, v) <==> v == Some(x))
  {
  }

  // ---------------------------------------------------------------- wire format

  /** A parsed JSON value (numbers are integers in this model). */
  datatype Json =
    | JNull
    | JBool(b: bool)
    | JNum(n: int)
    | JStr(s: string)
    | JArr(items: seq<Json>)
    | JObj(fields: map<string, Json>)

  /** `{ message?, data?, error? }`: what every API call resolves to. */
  datatype ApiResponse<T> = ApiResponse(message: Option<Json>, data: Option<T>, error: Option<Json>)

  /**
   * What a store sees of an `ApiResponse`: `Err` when its `error` is truthy,
   * otherwise `Ok` with the (possibly absent) data.
   */
  datatype Reply<T> = Ok(data: Option<T>) | Err(message: string)

  /** The outcome of a backend call whose data the caller ignores. */
  datatype Outcome = Success | Failure(message: string)
}
