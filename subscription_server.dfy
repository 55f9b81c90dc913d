/** The server-side subscription helpers: the admin-client guard, the
    `subscriptions` table with its ensure (upsert) and lookup, the limits of a
    stored plan name, the video-URL classifier and the usage counts built on
    it. */
module SubscriptionServer {
  import opened Wrappers
  import opened JsStrings
  import opened JsArrays
  import opened SubscriptionPlans
  import opened StoryService

  /** The service-role database client, present only when it is configured. */
  datatype AdminClient = AdminClient(url: string, serviceRoleKey: string)

  const AdminNotConfigured := "Supabase admin client is not configured"

  /** requireSupabaseAdmin: the client, or the not-configured error. */
  function RequireSupabaseAdmin(admin: Option<AdminClient>): (r: Result<AdminClient, string>)
    ensures r.Failure? <==> admin.None?
    ensures r.Failure? ==> r.error == AdminNotConfigured
    ensures r.Success? ==> r.value == admin.value
  {
    match admin
    case None => Failure(AdminNotConfigured)
    case Some(client) => Success(client)
  }

  /** A row of `subscriptions`. `plan` is the stored text, which need not
      name a tier; times are integers. */
  datatype SubscriptionRow = SubscriptionRow(
    userId: string,
    stripeCustomerId: Option<string>,
    stripeSubscriptionId: Option<string>,
    plan: string,
    status: string,
    currentPeriodEnd: Option<int>,
    storageUsedMb: int)

  /** `subscriptions` is unique on `user_id`: a map from user to row. */
  type SubscriptionTable = map<string, SubscriptionRow>

  /** Every row is stored under its own user id. */
  ghost predicate KeyedByUser(t: SubscriptionTable) {
    forall u :: u in t ==> t[u].userId == u
  }

  /** `.eq('user_id', u).maybeSingle()` on the table. */
  function RowOf(t: SubscriptionTable, u: string): (r: Option<SubscriptionRow>)
    ensures r.None? <==> u !in t
    ensures r.Some? ==> r.value == t[u]
  {
    if u in t then Some(t[u]) else None
  }

  /** The columns a caller of ensureSubscription may put over the defaults. */
  datatype EnsureDefaults = EnsureDefaults(plan: Option<string>, status: Option<string>)

  /** What every caller in the application passes: nothing. */
  const NoDefaults := EnsureDefaults(None, None)

  /** The table after ensureSubscription's upsert on `user_id`: the row gets
      the supplied plan and status (`'free'`/`'inactive'` unless overridden)
      whether or not it existed; an existing row keeps every other column,
      and a new row starts with no payment-provider ids, no period end and no
      storage used. */
  function Ensured(t: SubscriptionTable, u: string, d: EnsureDefaults): (t': SubscriptionTable)
    ensures u in t' && t'.Keys == t.Keys + {u}
    ensures t'[u].userId == u
    ensures t'[u].plan == (if d.plan.Some? then d.plan.value else "free")
    ensures t'[u].status == (if d.status.Some? then d.status.value else "inactive")
    ensures u in t ==> t'[u].stripeCustomerId == t[u].stripeCustomerId
                       && t'[u].stripeSubscriptionId == t[u].stripeSubscriptionId
                       && t'[u].currentPeriodEnd == t[u].currentPeriodEnd
                       && t'[u].storageUsedMb == t[u].storageUsedMb
    ensures u !in t ==> t'[u].stripeCustomerId.None? && t'[u].stripeSubscriptionId.None?
                        && t'[u].currentPeriodEnd.None? && t'[u].storageUsedMb == 0
    ensures forall v :: v in t && v != u ==> t'[v] == t[v]
  {
    var plan := d.plan.GetOr("free");
    var status := d.status.GetOr("inactive");
    if u in t then t[u := t[u].(userId := u, plan := plan, status := status)]
    else t[u := SubscriptionRow(u, None, None, plan, status, None, 0)]
  }

  /** Ensuring twice with the same defaults is ensuring once. */
  lemma EnsuredIdempotent(t: SubscriptionTable, u: string, d: EnsureDefaults)
    ensures Ensured(Ensured(t, u, d), u, d) == Ensured(t, u, d)
  {
    var t1 := Ensured(t, u, d);
    var t2 := Ensured(t1, u, d);
    assert t2[u] == t1[u];
    assert t2.Keys == t1.Keys;
  }

  /** Ensuring keeps every row stored under its own user id. */
  lemma EnsuredKeyedByUser(t: SubscriptionTable, u: string, d: EnsureDefaults)
    requires KeyedByUser(t)
    ensures KeyedByUser(Ensured(t, u, d))
  {
  }

  /** Ensuring over an existing premium row without defaults demotes it:
      the upsert writes its default plan on conflict too. */
  lemma EnsureOverwritesPlan(t: SubscriptionTable, u: string)
    requires u in t && t[u].plan == "premium" && t[u].status == "active"
    ensures Ensured(t, u, NoDefaults)[u].plan == "free"
    ensures Ensured(t, u, NoDefaults)[u].status == "inactive"
  {
  }

  /** The `subscriptions` table. */
  class SubscriptionStore {
    var rows: SubscriptionTable

    ghost predicate Valid()
      reads this
    {
      KeyedByUser(rows)
    }

    constructor (initial: SubscriptionTable)
      requires KeyedByUser(initial)
      ensures Valid() && rows == initial
    {
      rows := initial;
    }

    /** ensureSubscription: upserts the row of `u` and returns it; throws
        when the admin client is not configured. */
    method EnsureSubscription(admin: Option<AdminClient>, u: string, d: EnsureDefaults)
      returns (r: Result<SubscriptionRow, string>)
      requires Valid()
      modifies this
      ensures Valid()
      ensures admin.None? ==> r == Failure(AdminNotConfigured) && rows == old(rows)
      ensures admin.Some? ==> rows == Ensured(old(rows), u, d) && r == Success(rows[u])
    {
      var client := RequireSupabaseAdmin(admin);
      if client.Failure? {
        return Failure(client.error);
      }
      EnsuredKeyedByUser(rows, u, d);
      rows := Ensured(rows, u, d);
      r := Success(rows[u]);
    }

    /** getSubscriptionByUser: the row of `u`, or null when there is none. */
    method GetSubscriptionByUser(admin: Option<AdminClient>, u: string)
      returns (r: Result<Option<SubscriptionRow>, string>)
      requires Valid()
      ensures admin.None? ==> r == Failure(AdminNotConfigured)
      ensures admin.Some? ==> r.Success?
      ensures admin.Some? ==> (r.value.None? <==> u !in rows)
      ensures admin.Some? && r.value.Some? ==> r.value.value == rows[u] && r.value.value.userId == u
    {
      var client := RequireSupabaseAdmin(admin);
      if client.Failure? {
        return Failure(client.error);
      }
      r := Success(RowOf(rows, u));
    }
  }

  /** getLimitsForPlan: `LIMITS[plan]`, which is undefined for a stored plan
      that names no tier. */
  function GetLimitsForPlan(plan: string): (r: Option<PlanLimits>)
    ensures r.Some? <==> exists t :: TierName(t) == plan
    ensures forall t :: TierName(t) == plan ==> r == Some(Limits(t))
  {
    match ParseTier(plan)
    case Some(t) => Some(Limits(t))
    case None => None
  }

  /** The limits of a tier are found under its name. */
  lemma GetLimitsForTier(t: PlanTier)
    ensures GetLimitsForPlan(TierName(t)) == Some(Limits(t))
  {
  }

  /** isVideoUrl: a present, non-empty URL whose lower-cased form ends in
      `.webm` or `.mp4` or contains `/video`. */
  function IsVideoUrl(url: Option<string>): (r: bool)
    ensures url.None? || url == Some("") ==> !r
    ensures r <==> url.Some? && (EndsWith(Lower(url.value), ".webm") || EndsWith(Lower(url.value), ".mp4")
                                 || exists i :: OccursAt(Lower(url.value), "/video", i))
  {
    if url.None? || url.value == "" then false
    else
      var l := Lower(url.value);
      EndsWith(l, ".webm") || EndsWith(l, ".mp4") || Includes(l, "/video")
  }

  /** The classification ignores ASCII case. */
  lemma IsVideoUrlCaseInsensitive(u: string)
    ensures IsVideoUrl(Some(u)) == IsVideoUrl(Some(Lower(u)))
  {
    LowerIdempotent(u);
  }

  /** Upper-case extensions and path segments are recognised. */
  lemma IsVideoUrlUpperCase()
    ensures IsVideoUrl(Some("a.MP4"))
    ensures IsVideoUrl(Some("h/Video/1"))
  {
    assert Lower("a.MP4") == "a.mp4";
    assert Lower("h/Video/1") == "h/video/1";
    assert OccursAt("h/video/1", "/video", 1);
  }

  /** `.mp4` must end the URL, and `video` must follow a slash. */
  lemma IsVideoUrlNotVideo()
    ensures !IsVideoUrl(Some("a.mp4.png"))
    ensures !IsVideoUrl(Some("Videos.PNG"))
  {
    var l := Lower("a.mp4.png");
    assert l[|l| - 1] == 'g';
    EndsInOtherLetter("a.mp4.png");
    var m := Lower("Videos.PNG");
    assert m[|m| - 1] == 'g';
    EndsInOtherLetter("Videos.PNG");
  }

  /** A URL without a slash whose lower-cased form ends in neither `4` nor
      `m` is not a video. */
  lemma EndsInOtherLetter(u: string)
    requires '/' !in u && |Lower(u)| > 0
    requires Lower(u)[|Lower(u)| - 1] != '4' && Lower(u)[|Lower(u)| - 1] != 'm'
    ensures !IsVideoUrl(Some(u))
  {
    NoSlashNoVideo(u);
    var l := Lower(u);
    if |l| >= 4 { assert l[|l| - 4..][3] == l[|l| - 1]; }
    if |l| >= 5 { assert l[|l| - 5..][4] == l[|l| - 1]; }
  }

  /** A URL without a slash is a video only by its extension. */
  lemma NoSlashNoVideo(u: string)
    requires '/' !in u
    ensures IsVideoUrl(Some(u)) <==> EndsWith(Lower(u), ".webm") || EndsWith(Lower(u), ".mp4")
  {
    var l := Lower(u);
    forall i | 0 <= i && i + 6 <= |l|
      ensures !OccursAt(l, "/video", i)
    {
      assert u[i] in u;
      assert l[i..i + 6][0] == l[i] != '/';
    }
  }

  /** A story whose image URL is classified as a video. */
  predicate IsVideoStory(s: Story) {
    IsVideoUrl(s.imageUrl)
  }

  /** The number of stories of `u` (the exact count of `.eq('user_id', u)`). */
  function StoryCount(stories: seq<Story>, u: string): (n: nat)
    ensures n <= |stories|
    ensures n == |stories| <==> forall s :: s in stories ==> s.userId == u
    ensures n == 0 <==> forall s :: s in stories ==> s.userId != u
  {
    FilterLengthAll(stories, OwnerIs(u));
    OwnedByEmpty(stories, u);
    |OwnedBy(stories, u)|
  }

  /** `u` owns no story exactly when its filter is empty. */
  lemma OwnedByEmpty(stories: seq<Story>, u: string)
    ensures OwnedBy(stories, u) == [] <==> forall s :: s in stories ==> s.userId != u
  {
    var r := OwnedBy(stories, u);
    if r != [] {
      assert r[0] in r;
    }
  }

  /** The number of stories of `u` whose image URL is a video. */
  function VideoCount(stories: seq<Story>, u: string): (n: nat)
    ensures n <= StoryCount(stories, u)
  {
    |Filter(OwnedBy(stories, u), IsVideoStory)|
  }

  /** Appending a story of `u` adds one to its story count, and one to its
      video count exactly when the story is a video; other users' counts do
      not move. */
  lemma CountsAfterAppend(stories: seq<Story>, s: Story, v: string)
    ensures StoryCount(stories + [s], v) == StoryCount(stories, v) + (if s.userId == v then 1 else 0)
    ensures VideoCount(stories + [s], v)
            == VideoCount(stories, v) + (if s.userId == v && IsVideoStory(s) then 1 else 0)
  {
    FilterAppend(stories, [s], OwnerIs(v));
    var owned := OwnedBy(stories, v);
    if s.userId == v {
      assert Filter([s], OwnerIs(v)) == [s];
      FilterAppend(owned, [s], IsVideoStory);
    } else {
      assert Filter([s], OwnerIs(v)) == [];
      assert OwnedBy(stories + [s], v) == owned;
    }
  }
}
