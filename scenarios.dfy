/** Properties that follow a user across several handlers. */
module Scenarios {
  import opened Wrappers
  import opened Http
  import opened SubscriptionPlans
  import opened StoryService
  import opened SubscriptionServer
  import opened StoriesRoute
  import opened StripeWebhook

  /** A free user who already has a story is refused a second one; after a
      subscription-updated event that names the user and the premium plan
      with an active status, the same request is accepted. */
  lemma UpgradeLiftsStoryLimit(t: SubscriptionTable, stories: seq<Story>, admin: Option<AdminClient>, u: string,
                               e: StripeEvent, r: RetrievedSubscription, body: StoryBody, newId: string, now: int)
    requires u != "" && u in t && t[u].plan == "free"
    requires StoryCount(stories, u) == 1
    requires admin.Some? && body.title.Some? && body.title.value != "" && body.imageUrl.None?
    requires e.eventType == SubscriptionUpdated && e.data.ProviderSubscription? && e.data.status == "active"
    requires e.data.metadata == map["userId" := u, "plan" := "premium"]
    ensures StoriesPost(t, stories, admin, Some(u), body, NoFaults, newId, now).response
            == Fail(403, "Story limit reached for your plan")
    ensures var upgraded := ApplyEvent(t, e, Success(r)).value;
            && upgraded[u].plan == "premium"
            && StoriesPost(upgraded, stories, admin, Some(u), body, NoFaults, newId, now).response.Ok?
  {
    GetLimitsForTier(Free);
    GetLimitsForTier(Premium);
    assert Lookup(e.data.metadata, "userId") == Some(u);
    assert Lookup(e.data.metadata, "plan") == Some("premium");
    var upgraded := ApplyEvent(t, e, Success(r)).value;
    assert upgraded[u].plan == "premium";
  }
}
