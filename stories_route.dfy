/** POST /api/stories: creates a story after checking the caller's story
    count, and for a video its video count, against the plan's limits. */
module StoriesRoute {
  import opened Wrappers
  import opened Http
  import opened SubscriptionPlans
  import opened StoryService
  import opened SubscriptionServer
  import opened JsArrays

  /** The request body. A title is falsy when absent or empty; `imageUrl`
      keeps an empty string, which is falsy but not null. */
  datatype StoryBody = StoryBody(
    title: Option<string>,
    description: Option<string>,
    imageUrl: Option<string>,
    releaseAt: Option<int>)

  /** What the database reports along the way: an error of the story count,
      whether the video query returned no data, an error of the insert. */
  datatype StoryQueries = StoryQueries(
    countError: Option<string>,
    videoQueryFailed: bool,
    insertError: Option<string>)

  /** No database fault. */
  const NoFaults := StoryQueries(None, false, None)

  /** The handler's answer and both tables after it. */
  datatype StoriesOutcome = StoriesOutcome(
    response: Response<Story>,
    subscriptions: SubscriptionTable,
    stories: seq<Story>)

  /** `image_url && isVideoUrl(image_url)`. */
  predicate IsVideoUpload(imageUrl: Option<string>) {
    imageUrl.Some? && imageUrl.value != "" && IsVideoUrl(imageUrl)
  }

  /** The number of the caller's videos as the handler sees it: zero when
      the query returns no data. */
  function SeenVideoCount(stories: seq<Story>, u: string, q: StoryQueries): nat {
    if q.videoQueryFailed then 0 else VideoCount(stories, u)
  }

  /** The row the handler inserts: the caller as owner, null description and
      image when absent, and the current time as release time when none is
      given. `newId` and `now` are the values the database fills in. */
  function NewStory(body: StoryBody, u: string, newId: string, now: int): (s: Story)
    requires body.title.Some?
    ensures s.id == newId && s.userId == u && s.title == body.title.value && s.createdAt == now
    ensures s.description == body.description && s.imageUrl == body.imageUrl
    ensures s.releaseAt == Some(if body.releaseAt.Some? then body.releaseAt.value else now)
  {
    Story(newId, u, body.title.value, body.description, body.imageUrl, now, Some(body.releaseAt.GetOr(now)))
  }

  /** What the handler does. */
  function StoriesPost(subs: SubscriptionTable, stories: seq<Story>, admin: Option<AdminClient>,
                       user: Option<string>, body: StoryBody, q: StoryQueries,
                       newId: string, now: int): (out: StoriesOutcome)
    ensures forall v :: v in subs && (user.None? || v != user.value) ==>
              v in out.subscriptions && out.subscriptions[v] == subs[v]
    ensures out.subscriptions.Keys == subs.Keys
            || (user.Some? && out.subscriptions.Keys == subs.Keys + {user.value})
    ensures !out.response.Ok? ==> out.stories == stories
    ensures out.response.Ok? ==>
              user.Some? && out.stories == stories + [out.response.value]
              && out.response.value.id == newId && out.response.value.userId == user.value
              && user.value in out.subscriptions && GetLimitsForPlan(out.subscriptions[user.value].plan).Some?
              && StoryCount(stories, user.value) < GetLimitsForPlan(out.subscriptions[user.value].plan).value.stories
  {
    if admin.None? then StoriesOutcome(Unhandled(AdminNotConfigured), subs, stories)
    else if user.None? then StoriesOutcome(Fail(401, "Unauthorized"), subs, stories)
    else if body.title.None? || body.title.value == "" then StoriesOutcome(Fail(400, "Title is required"), subs, stories)
    else
      var u := user.value;
      var ensured := if u in subs then subs else Ensured(subs, u, NoDefaults);
      var limits := GetLimitsForPlan(ensured[u].plan);
      if q.countError.Some? then StoriesOutcome(Fail(500, q.countError.value), ensured, stories)
      else if limits.None? then StoriesOutcome(Unhandled("limits is undefined"), ensured, stories)
      else if StoryCount(stories, u) >= limits.value.stories then
        StoriesOutcome(Fail(403, "Story limit reached for your plan"), ensured, stories)
      else if IsVideoUpload(body.imageUrl) && SeenVideoCount(stories, u, q) >= limits.value.videos then
        StoriesOutcome(Fail(403, "Video limit reached for your plan"), ensured, stories)
      else if q.insertError.Some? then StoriesOutcome(Fail(500, q.insertError.value), ensured, stories)
      else
        var s := NewStory(body, u, newId, now);
        StoriesOutcome(Ok(s), ensured, stories + [s])
  }

  /** The handler, run against the two tables. */
  method Post(subs: SubscriptionStore, table: StoryTable, admin: Option<AdminClient>,
              user: Option<string>, body: StoryBody, q: StoryQueries, newId: string, now: int)
    returns (resp: Response<Story>)
    requires subs.Valid()
    modifies subs, table
    ensures subs.Valid()
    ensures StoriesPost(old(subs.rows), old(table.rows), admin, user, body, q, newId, now)
            == StoriesOutcome(resp, subs.rows, table.rows)
  {
    var client := RequireSupabaseAdmin(admin);
    if client.Failure? {
      return Unhandled(client.error);
    }
    if user.None? {
      return Fail(401, "Unauthorized");
    }
    if body.title.None? || body.title.value == "" {
      return Fail(400, "Title is required");
    }
    var u := user.value;
    var row;
    var existing := RowOf(subs.rows, u);
    if existing.Some? {
      row := existing.value;
    } else {
      var ensured := subs.EnsureSubscription(admin, u, NoDefaults);
      row := ensured.value;
    }
    var limits := GetLimitsForPlan(row.plan);
    if q.countError.Some? {
      return Fail(500, q.countError.value);
    }
    if limits.None? {
      return Unhandled("limits is undefined");
    }
    var count := StoryCount(table.rows, u);
    if count >= limits.value.stories {
      return Fail(403, "Story limit reached for your plan");
    }
    if IsVideoUpload(body.imageUrl) {
      var videoCount := SeenVideoCount(table.rows, u, q);
      if videoCount >= limits.value.videos {
        return Fail(403, "Video limit reached for your plan");
      }
    }
    if q.insertError.Some? {
      return Fail(500, q.insertError.value);
    }
    var s := NewStory(body, u, newId, now);
    table.rows := table.rows + [s];
    resp := Ok(s);
  }

  /** A missing admin client, a missing caller or a falsy title is answered
      before anything is read or written: the admin check first, then
      authentication, then the title. */
  lemma StoriesGuards(subs: SubscriptionTable, stories: seq<Story>, admin: Option<AdminClient>,
                      user: Option<string>, body: StoryBody, q: StoryQueries, newId: string, now: int)
    requires admin.None? || user.None? || body.title.None? || body.title == Some("")
    ensures var out := StoriesPost(subs, stories, admin, user, body, q, newId, now);
            && out.subscriptions == subs && out.stories == stories
            && out.response == (if admin.None? then Unhandled(AdminNotConfigured)
                                else if user.None? then Fail(401, "Unauthorized")
                                else Fail(400, "Title is required"))
  {
  }

  /** The story gate: with a tier on the caller's row (the stored one, or
      the free row ensured for a first-time caller, who may already own
      stories) and the count available, the request is refused with the
      story-limit 403 exactly when the caller already has as many stories as
      the tier allows. */
  lemma StoryLimitGate(subs: SubscriptionTable, stories: seq<Story>, admin: Option<AdminClient>,
                       u: string, body: StoryBody, q: StoryQueries, newId: string, now: int, t: PlanTier)
    requires admin.Some? && body.title.Some? && body.title.value != "" && q.countError.None?
    requires (if u in subs then subs[u] else Ensured(subs, u, NoDefaults)[u]).plan == TierName(t)
    ensures StoriesPost(subs, stories, admin, Some(u), body, q, newId, now).response
            == Fail(403, "Story limit reached for your plan")
            <==> StoryCount(stories, u) >= Limits(t).stories
  {
    GetLimitsForTier(t);
  }

  /** The video gate: past the story gate, the request is refused with the
      video-limit 403 exactly when the new image is a video and the caller
      already has as many videos as the tier allows; a first-time caller is
      held to the limits of the free row ensured for them. */
  lemma VideoLimitGate(subs: SubscriptionTable, stories: seq<Story>, admin: Option<AdminClient>,
                       u: string, body: StoryBody, newId: string, now: int, t: PlanTier, insertError: Option<string>)
    requires admin.Some? && body.title.Some? && body.title.value != ""
    requires (if u in subs then subs[u] else Ensured(subs, u, NoDefaults)[u]).plan == TierName(t)
    requires StoryCount(stories, u) < Limits(t).stories
    ensures StoriesPost(subs, stories, admin, Some(u), body, StoryQueries(None, false, insertError), newId, now).response
            == Fail(403, "Video limit reached for your plan")
            <==> IsVideoUpload(body.imageUrl) && VideoCount(stories, u) >= Limits(t).videos
  {
    GetLimitsForTier(t);
  }

  /** A story whose image is absent, empty or not a video never meets the
      video limit. */
  lemma NonVideoNotVideoGated(subs: SubscriptionTable, stories: seq<Story>, admin: Option<AdminClient>,
                              user: Option<string>, body: StoryBody, q: StoryQueries, newId: string, now: int)
    requires !IsVideoUrl(body.imageUrl)
    ensures StoriesPost(subs, stories, admin, user, body, q, newId, now).response
            != Fail(403, "Video limit reached for your plan")
  {
  }

  /** The branch that creates a story: every gate before it passed. */
  lemma CreatedBranch(subs: SubscriptionTable, stories: seq<Story>, admin: Option<AdminClient>,
                      u: string, body: StoryBody, q: StoryQueries, newId: string, now: int)
    requires StoriesPost(subs, stories, admin, Some(u), body, q, newId, now).response.Ok?
    ensures body.title.Some?
    ensures var out := StoriesPost(subs, stories, admin, Some(u), body, q, newId, now);
            var lim := GetLimitsForPlan(out.subscriptions[u].plan);
            && u in out.subscriptions && lim.Some?
            && out.response == Ok(NewStory(body, u, newId, now))
            && out.stories == stories + [NewStory(body, u, newId, now)]
            && StoryCount(stories, u) < lim.value.stories
            && (IsVideoUpload(body.imageUrl) ==> SeenVideoCount(stories, u, q) < lim.value.videos)
  {
  }

  /** Appending one story of `u` that passed both gates keeps both counts
      within the limits. */
  lemma AppendWithinLimits(stories: seq<Story>, s: Story, u: string, lim: PlanLimits)
    requires s.userId == u && StoryCount(stories, u) < lim.stories
    requires IsVideoStory(s) ==> VideoCount(stories, u) < lim.videos
    ensures StoryCount(stories + [s], u) <= lim.stories
    ensures IsVideoStory(s) ==> VideoCount(stories + [s], u) <= lim.videos
  {
    CountsAfterAppend(stories, s, u);
  }

  /** A created story is appended as the only change to `stories`; the
      caller then owns at most as many stories as the tier allows and, when
      the new story is a video, at most as many videos (given the video
      query answered). */
  lemma CreatedWithinLimits(subs: SubscriptionTable, stories: seq<Story>, admin: Option<AdminClient>,
                            u: string, body: StoryBody, q: StoryQueries, newId: string, now: int)
    requires !q.videoQueryFailed
    requires StoriesPost(subs, stories, admin, Some(u), body, q, newId, now).response.Ok?
    ensures var out := StoriesPost(subs, stories, admin, Some(u), body, q, newId, now);
            && body.title.Some?
            && out.response.value == NewStory(body, u, newId, now)
            && out.stories == stories + [out.response.value]
            && u in out.subscriptions
            && exists t :: out.subscriptions[u].plan == TierName(t)
                           && StoryCount(out.stories, u) <= Limits(t).stories
                           && (IsVideoStory(out.response.value) ==> VideoCount(out.stories, u) <= Limits(t).videos)
  {
    CreatedBranch(subs, stories, admin, u, body, q, newId, now);
    var out := StoriesPost(subs, stories, admin, Some(u), body, q, newId, now);
    var s := NewStory(body, u, newId, now);
    var t := ParseTier(out.subscriptions[u].plan).value;
    AppendWithinLimits(stories, s, u, Limits(t));
  }

  /** On the free tier (a stored free row, or none, which the handler
      ensures as free) a first story is accepted and a second one refused. */
  lemma FreeTierOneStory(subs: SubscriptionTable, admin: Option<AdminClient>, u: string,
                         body: StoryBody, newId: string, now: int, first: Story)
    requires admin.Some? && body.title == Some("My first story") && body.imageUrl.None?
    requires (u in subs ==> subs[u].plan == "free") && first.userId == u
    ensures StoriesPost(subs, [], admin, Some(u), body, NoFaults, newId, now).response.Ok?
    ensures StoriesPost(subs, [first], admin, Some(u), body, NoFaults, newId, now).response
            == Fail(403, "Story limit reached for your plan")
  {
    GetLimitsForTier(Free);
    assert StoryCount([first], u) == 1 by {
      assert Filter([first], OwnerIs(u)) == [first];
    }
  }
}
