/** GET /api/subscription: the caller's usage snapshot (plan, status, story
    and video counts, storage used, limits, period end). */
module SubscriptionRoute {
  import opened Wrappers
  import opened Http
  import opened Postgrest
  import opened SubscriptionPlans
  import opened StoryService
  import opened SubscriptionServer

  /** The JSON body. `limits` is absent when the stored plan names no tier
      (`undefined` is dropped when serialised). */
  datatype Snapshot = Snapshot(
    plan: string,
    status: string,
    storyCount: nat,
    videoCount: nat,
    storageUsedMb: int,
    limits: Option<PlanLimits>,
    currentPeriodEnd: Option<int>)

  /** What the database reports along the way: an error of the row lookup,
      an error of the story count, whether the video query returned no
      data. */
  datatype SnapshotQueries = SnapshotQueries(
    rowError: Option<DbError>,
    countError: Option<string>,
    videoQueryFailed: bool)

  /** The handler's answer and the `subscriptions` table after it. */
  datatype SnapshotOutcome = SnapshotOutcome(response: Response<Snapshot>, rows: SubscriptionTable)

  /** The snapshot of one row and the caller's stories. */
  function SnapshotOf(row: SubscriptionRow, stories: seq<Story>, u: string, videoQueryFailed: bool): (s: Snapshot)
    ensures s.plan == row.plan && s.status == row.status && s.storageUsedMb == row.storageUsedMb
    ensures s.currentPeriodEnd == row.currentPeriodEnd
    ensures s.limits == GetLimitsForPlan(row.plan)
    ensures s.storyCount == StoryCount(stories, u)
    ensures s.videoCount == (if videoQueryFailed then 0 else VideoCount(stories, u))
    ensures s.videoCount <= s.storyCount
  {
    Snapshot(row.plan, row.status, StoryCount(stories, u),
             if videoQueryFailed then 0 else VideoCount(stories, u),
             row.storageUsedMb, GetLimitsForPlan(row.plan), row.currentPeriodEnd)
  }

  /** What the handler does. A lookup error other than PGRST116 is answered
      with 500; with PGRST116 the lookup counts as finding nothing. */
  function SubscriptionGet(rows: SubscriptionTable, stories: seq<Story>, admin: Option<AdminClient>,
                           user: Option<string>, q: SnapshotQueries): (out: SnapshotOutcome)
    ensures forall v :: v in rows && (user.None? || v != user.value) ==> v in out.rows && out.rows[v] == rows[v]
    ensures out.rows.Keys == rows.Keys || (user.Some? && out.rows.Keys == rows.Keys + {user.value})
    ensures out.response.Ok? ==>
              user.Some? && user.value in out.rows
              && out.response.value.plan == out.rows[user.value].plan
              && out.response.value.status == out.rows[user.value].status
              && out.response.value.storageUsedMb == out.rows[user.value].storageUsedMb
              && out.response.value.storyCount == StoryCount(stories, user.value)
    ensures !out.response.Ok? ==> out.response.Status() == 401 || out.response.Status() == 500
  {
    if user.None? then SnapshotOutcome(Fail(401, "Unauthorized"), rows)
    else if q.rowError.Some? && q.rowError.value.code != "PGRST116" then
      SnapshotOutcome(Fail(500, q.rowError.value.message), rows)
    else
      var u := user.value;
      var found := q.rowError.None? && u in rows;
      if !found && admin.None? then SnapshotOutcome(Unhandled(AdminNotConfigured), rows)
      else
        var ensured := if found then rows else Ensured(rows, u, NoDefaults);
        if q.countError.Some? then SnapshotOutcome(Fail(500, q.countError.value), ensured)
        else SnapshotOutcome(Ok(SnapshotOf(ensured[u], stories, u, q.videoQueryFailed)), ensured)
  }

  /** The handler, run against the tables; it writes only through the
      ensure call and never touches `stories`. */
  method Get(store: SubscriptionStore, table: StoryTable, admin: Option<AdminClient>,
             user: Option<string>, q: SnapshotQueries) returns (resp: Response<Snapshot>)
    requires store.Valid()
    modifies store
    ensures store.Valid()
    ensures SubscriptionGet(old(store.rows), table.rows, admin, user, q) == SnapshotOutcome(resp, store.rows)
  {
    if user.None? {
      return Fail(401, "Unauthorized");
    }
    if q.rowError.Some? && q.rowError.value.code != "PGRST116" {
      return Fail(500, q.rowError.value.message);
    }
    var u := user.value;
    var row;
    if q.rowError.None? && u in store.rows {
      row := store.rows[u];
    } else {
      var ensured := store.EnsureSubscription(admin, u, NoDefaults);
      if ensured.Failure? {
        return Unhandled(ensured.error);
      }
      row := ensured.value;
    }
    if q.countError.Some? {
      return Fail(500, q.countError.value);
    }
    resp := Ok(SnapshotOf(row, table.rows, u, q.videoQueryFailed));
  }

  /** Without a caller: 401 and no write. A lookup error other than
      PGRST116: 500 with its message and no write. */
  lemma SnapshotGuards(rows: SubscriptionTable, stories: seq<Story>, admin: Option<AdminClient>,
                       user: Option<string>, q: SnapshotQueries)
    requires user.None? || (q.rowError.Some? && q.rowError.value.code != "PGRST116")
    ensures var out := SubscriptionGet(rows, stories, admin, user, q);
            && out.rows == rows
            && out.response == (if user.None? then Fail(401, "Unauthorized") else Fail(500, q.rowError.value.message))
  {
  }

  /** The only write is the ensure of a missing row: the table afterwards
      is the table before, or the table with the caller's row ensured. */
  lemma SnapshotWritesOnlyEnsure(rows: SubscriptionTable, stories: seq<Story>, admin: Option<AdminClient>,
                                 u: string, q: SnapshotQueries)
    ensures var out := SubscriptionGet(rows, stories, admin, Some(u), q).rows;
            out == rows || out == Ensured(rows, u, NoDefaults)
    ensures q.rowError.None? && u in rows ==> SubscriptionGet(rows, stories, admin, Some(u), q).rows == rows
  {
  }

  /** A successful snapshot reports the caller's row (ensured when missing)
      and counts: the limits of its plan, all the caller's stories, and of
      those the videos, never more than the stories. A new caller sees the
      free plan, inactive status and no storage used. */
  lemma SnapshotContents(rows: SubscriptionTable, stories: seq<Story>, admin: Option<AdminClient>,
                         u: string, q: SnapshotQueries)
    requires SubscriptionGet(rows, stories, admin, Some(u), q).response.Ok?
    ensures var out := SubscriptionGet(rows, stories, admin, Some(u), q);
            var s := out.response.value;
            && u in out.rows
            && s.plan == out.rows[u].plan && s.status == out.rows[u].status
            && s.storageUsedMb == out.rows[u].storageUsedMb
            && s.limits == GetLimitsForPlan(s.plan)
            && s.storyCount == |OwnedBy(stories, u)|
            && s.videoCount <= s.storyCount
            && (u !in rows ==> s.plan == "free" && s.status == "inactive" && s.storageUsedMb == 0
                               && s.limits == Some(Limits(Free)))
  {
    GetLimitsForTier(Free);
  }
}
