/** The activity log: the wrapper around `res.json` that appends an entry
    for a successful request by a signed-in user, and the admin listing
    of entries. */
module ActivityLogger {
  import opened Collections
  import opened Text
  import opened Domain
  import opened Database

  /** The `action` enum of the log schema. */
  const Actions: seq<string> := ["login", "logout", "create_post", "update_post", "delete_post",
                                 "create_comment", "update_comment", "delete_comment",
                                 "view_post", "admin_action", "other"]

  /** The `resourceType` enum of the log schema. */
  const ResourceTypes: seq<string> := ["blog", "comment", "user", "auth", "other"]

  /** What the wrapper reads from the request: the attached user, the
      `:id` parameter, the method, the original URL, the client address
      and its user agent. */
  datatype RequestInfo = RequestInfo(
    user: Option<User>,
    paramsId: Option<string>,
    httpMethod: string,
    url: string,
    ip: string,
    userAgent: string)

  /** Only responses below 400 to a request with a user are logged. */
  predicate ShouldLog(user: Option<User>, status: nat) {
    user.Some? && status < 400
  }

  /** `params.id` when set, else the `_id` of the payload's `data`. */
  function ResourceIdOf(paramsId: Option<string>, dataId: Option<string>): (r: Option<string>)
    ensures Truthy(paramsId) ==> r == paramsId
    ensures !Truthy(paramsId) && Truthy(dataId) ==> r == dataId
    ensures !Truthy(paramsId) && !Truthy(dataId) ==> r.None?
  {
    if Truthy(paramsId) then paramsId else if Truthy(dataId) then dataId else None
  }

  /** `${method} ${originalUrl}`, when both are set. */
  function DetailsOf(httpMethod: string, url: string): (r: Option<string>)
    ensures r.Some? <==> httpMethod != "" && url != ""
    ensures r.Some? ==> r.value == httpMethod + " " + url
  {
    if httpMethod != "" && url != "" then Some(httpMethod + " " + url) else None
  }

  /** The entry built for a logged request at tick `now`. */
  function BuildEntry(req: RequestInfo, action: string, resourceType: string, dataId: Option<string>, now: nat): (e: LogEntry)
    requires req.user.Some?
    ensures e.user == req.user.value.id && e.action == action && e.resourceType == resourceType
    ensures e.resourceId == ResourceIdOf(req.paramsId, dataId)
    ensures e.details == DetailsOf(req.httpMethod, req.url)
    ensures e.createdAt == now
  {
    LogEntry(req.user.value.id, action, resourceType, ResourceIdOf(req.paramsId, dataId),
             DetailsOf(req.httpMethod, req.url), req.ip, req.userAgent, now)
  }

  /** `ActivityLog.create` accepts the entry: both enums hold and the
      resource id casts to an ObjectId. */
  predicate Storable(e: LogEntry) {
    && e.action in Actions
    && e.resourceType in ResourceTypes
    && (e.resourceId.Some? ==> IsObjectIdText(e.resourceId.value))
  }

  /** The stored entry: the resource id as cast, in lower case. */
  function Cast(e: LogEntry): (r: LogEntry)
    ensures r.resourceId.Some? <==> e.resourceId.Some?
    ensures r.resourceId.Some? ==> r.resourceId.value == Lower(e.resourceId.value)
    ensures r.(resourceId := e.resourceId) == e
  {
    e.(resourceId := if e.resourceId.Some? then Some(Lower(e.resourceId.value)) else None)
  }

  /** `logActivity(action, resourceType)` at the moment the handler
      answers with `status`: an entry is appended when the request is
      logged and the entry is storable; a failed create is swallowed,
      and nothing else changes either way. */
  method LogActivity(st: Store, req: RequestInfo, action: string, resourceType: string, status: nat, dataId: Option<string>)
    returns (logged: bool)
    requires st.Valid()
    modifies st
    ensures st.Valid()
    ensures logged <==> ShouldLog(req.user, status) && Storable(BuildEntry(req, action, resourceType, dataId, old(st.clock)))
    ensures logged ==> st.logs == old(st.logs) + [Cast(BuildEntry(req, action, resourceType, dataId, old(st.clock)))]
    ensures !logged ==> st.logs == old(st.logs)
    ensures st.users == old(st.users) && st.blogs == old(st.blogs) && st.comments == old(st.comments)
  {
    if !ShouldLog(req.user, status) {
      return false;
    }
    var e := BuildEntry(req, action, resourceType, dataId, st.clock);
    if !Storable(e) {
      return false;
    }
    st.AppendLog(Cast(e));
    logged := true;
  }

  /** Any `:id` parameter that is not an ObjectId's text, a slug on the
      blog routes say, makes the create fail, so that request leaves no
      entry whatever its action. */
  lemma SlugParameterNotLogged(req: RequestInfo, action: string, resourceType: string, dataId: Option<string>, now: nat)
    requires req.user.Some? && req.paramsId.Some? && req.paramsId.value != ""
    requires !IsObjectIdText(req.paramsId.value)
    ensures !Storable(BuildEntry(req, action, resourceType, dataId, now))
  {
    assert BuildEntry(req, action, resourceType, dataId, now).resourceId == req.paramsId;
  }

  /** One page of `getUserActivityLogs`; `pages` is absent when the limit
      is 0 (`Math.ceil(total / 0)` is not a number of pages). */
  datatype LogPage = LogPage(items: seq<LogEntry>, total: nat, page: int, pages: Option<nat>)

  predicate LogMatch(userId: Option<string>, action: Option<string>, e: LogEntry) {
    && (Truthy(userId) ==> e.user == Lower(userId.value))
    && (Truthy(action) ==> e.action == action.value)
  }

  function LogMatcher(userId: Option<string>, action: Option<string>): LogEntry -> bool {
    (e: LogEntry) => LogMatch(userId, action, e)
  }

  /** The entries the query selects, in natural order. */
  function MatchingLogs(logs: seq<LogEntry>, userId: Option<string>, action: Option<string>): (r: seq<LogEntry>)
    ensures forall i :: 0 <= i < |r| ==> r[i] in logs && LogMatch(userId, action, r[i])
    ensures forall k :: 0 <= k < |logs| && LogMatch(userId, action, logs[k]) ==> logs[k] in r
    ensures Increasing(logs, LogTime) ==> Increasing(r, LogTime)
  {
    assert Increasing(logs, LogTime) ==> Increasing(Filter(logs, LogMatcher(userId, action)), LogTime) by {
      if Increasing(logs, LogTime) {
        FilterKeepsIncreasing(logs, LogMatcher(userId, action), LogTime);
      }
    }
    Filter(logs, LogMatcher(userId, action))
  }

  /** `getUserActivityLogs`, with `limit` and `page` already parsed (the
      defaults 50 and 1 apply when they are absent). A user filter that
      is not an ObjectId, or a negative skip, fails with 500. */
  function GetUserActivityLogs(logs: seq<LogEntry>, userId: Option<string>, action: Option<string>, limit: nat, page: int)
    : (r: Reply<LogPage>)
    requires Increasing(logs, LogTime)
    ensures r.status == 500 <==> (Truthy(userId) && !IsObjectIdText(userId.value)) || (limit >= 1 && page < 1)
    ensures r.status != 500 ==> r.status == 200 && r.data.Some?
    ensures r.data.Some? ==> r.data.value.total == |MatchingLogs(logs, userId, action)| && r.data.value.page == page
    ensures r.data.Some? ==> Decreasing(r.data.value.items, LogTime)
    ensures r.data.Some? ==> forall i :: 0 <= i < |r.data.value.items| ==> r.data.value.items[i] in MatchingLogs(logs, userId, action)
    ensures r.data.Some? && limit == 0 ==>
              r.data.value.items == NewestFirst(MatchingLogs(logs, userId, action), LogTime) && r.data.value.pages.None?
    ensures r.data.Some? && limit >= 1 ==>
              |r.data.value.items| <= limit && r.data.value.pages == Some(Pages(r.data.value.total, limit))
    ensures r.data.Some? && limit >= 1 ==> page >= 1
    ensures r.data.Some? && limit >= 1 && page >= 1 ==>
              |r.data.value.items| == PageSize(|MatchingLogs(logs, userId, action)|, page, limit)
    ensures r.data.Some? && limit >= 1 && page >= 1 && |r.data.value.items| > 0 ==>
              Skip(page, limit) + |r.data.value.items| <= |MatchingLogs(logs, userId, action)|
    ensures r.data.Some? && limit >= 1 && page >= 1 ==> forall i :: 0 <= i < |r.data.value.items| ==>
              r.data.value.items[i] == MatchingLogs(logs, userId, action)
                                       [|MatchingLogs(logs, userId, action)| - 1 - (Skip(page, limit) + i)]
  {
    if Truthy(userId) && !IsObjectIdText(userId.value) then Fail(500, "Error fetching activity logs")
    else if limit >= 1 && page < 1 then Fail(500, "Error fetching activity logs")
    else
      var found := MatchingLogs(logs, userId, action);
      if limit == 0 then
        Reply(200, "", Some(LogPage(NewestFirst(found, LogTime), |found|, page, None)))
      else
        Reply(200, "", Some(LogPage(NewestPage(found, LogTime, page, limit), |found|, page, Some(Pages(|found|, limit)))))
  }
}
