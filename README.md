# StoryBeyond subscription entitlements in Dafny

This project models the subscription entitlement engine of StoryBeyond, a
Next.js application where a user writes stories, attaches images or video
recordings, and delivers them to recipients. A free or premium plan caps how
many stories and videos a user may create and how much storage they may use.
Stripe checkout sessions and webhooks move a user between plans. The model
also covers the small pure rules around that engine.

Each TypeScript source file in the model has its own Dafny module:

- `subscription_plans.dfy` (`SubscriptionPlans`): the two tiers, the `LIMITS`
  table, the `plans` list and `getPlanDefinition`.
- `subscription_server.dfy` (`SubscriptionServer`) holds:
  - the admin-client guard;
  - the `subscriptions` table as a class over a map keyed by user, with
    `ensureSubscription` (an upsert) and `getSubscriptionByUser`;
  - `getLimitsForPlan` and `isVideoUrl`;
  - the story and video counts the handlers compute.
- The request handlers:
  - `storage_route.dfy` for POST `/api/subscription/storage`;
  - `stories_route.dfy` for POST `/api/stories`;
  - `subscription_route.dfy` for GET `/api/subscription`;
  - `stripe_webhook.dfy` for POST `/api/stripe/webhook`;
  - `checkout_session.dfy` for the checkout-session handler.

  Each handler is written twice:
  - as a method that changes the tables step by step, the way the handler
    does;
  - as a function from the old tables to the response and the new tables.

  The method's postcondition states that it agrees with the function.
  Lemmas about the function state the guard order, the quota gates and the
  writes.
- `story_service.dfy` (`StoryService`): the story listings (filters and
  orders), and the `stories` table with create, partial update and delete.
- `recipient_service.dfy` (`RecipientService`):
  - the `story_recipients` table with its replace-all write and listing;
  - the `recipients` table update with its stripped payload;
  - the payload of `createRecipient`.
- `upload.dfy` (`Upload`): the extension and path chosen for an upload.
- `story_form.dfy` (`StoryForm`):
  - the form's title check and release-time choice;
  - the recipient-selection updates;
  - the writes a submit makes.
- `sidebar.dfy` (`Sidebar`): the active-route rule.
- `marketing_nav.dfy` (`MarketingNav`): the greeting's first name.
- `scenarios.dfy` (`Scenarios`): a property that spans the webhook and the
  story handler.
- Helper modules:
  - `Wrappers`: `Option` and `Result`;
  - `Http`: the handler response, where `Unhandled` is an exception the
    framework turns into a 500;
  - `Postgrest`: `.maybeSingle()` and its PGRST116 error;
  - `JsStrings`: `toLowerCase`, `startsWith`, `endsWith`, `includes`,
    `trim`, `split`;
  - `JsArrays`: `filter`, `Array.from(new Set(...))`.

Behaviour the model follows from the code as written:

- `ensureSubscription` upserts with `plan: 'free'` and `status: 'inactive'`,
  even on conflict. Every handler that calls it therefore resets an existing
  row to the free plan:
  - the checkout handler always does;
  - the others do only when the row was not found.

  `SubscriptionServer.EnsureOverwritesPlan` and
  `CheckoutSession.CheckoutDemotesExistingRow` state this.
- The storage handler rejects only a zero or non-numeric size. A negative
  size passes, and committing it lowers the recorded usage
  (`StorageRoute.NegativeBytesLowerUsage`).
- The webhook writes `'pro'` when an active subscription has no plan in its
  metadata. No tier is named `'pro'`, so later quota checks for that user
  throw (`StripeWebhook.ProIsNoTier`).
- The checkout handler puts the user id and plan in
  `subscription_data.metadata`, not in the session's own metadata. The
  webhook's `checkout.session.completed` branch reads the session's
  metadata, so it writes nothing for sessions this handler creates. The
  subscription-updated event that follows does the work
  (`Scenarios.UpgradeLiftsStoryLimit`).
- The checkout handler uses `supabase` and `admin` without defining them.
  The model follows the evident intent: the user comes from the session, and
  the customer id is written with the admin client. Both clients are
  parameters.

## Model

| member | source | states |
|---|---|---|
| SubscriptionPlans.ParseTier | src/lib/subscriptionPlans.ts:1 | a plan name reads back as a tier exactly when it is one of the two tier names |
| SubscriptionPlans.ParseTierName | src/lib/subscriptionPlans.ts:1 | every tier's name reads back as that tier |
| SubscriptionPlans.LimitsValues | src/lib/subscriptionPlans.ts:12-27 | free allows 1 story, 1 video and 500 MB with recipients and delivery off; premium allows 10000, 2000 and 102400 MB with both on |
| SubscriptionPlans.LimitsOrdered | src/lib/subscriptionPlans.ts:12-27 | premium is at least free on every number and enables every feature free enables; every tier allows at least one story, one video and some storage |
| SubscriptionPlans.FindByTier | src/lib/subscriptionPlans.ts:46-48 | `find` succeeds exactly when some definition has the tier, and returns the first such one |
| SubscriptionPlans.GetPlanDefinition | src/lib/subscriptionPlans.ts:46-48 | the lookup is defined exactly when `plans` has the tier |
| SubscriptionPlans.PlansOnePerTier | src/lib/subscriptionPlans.ts:29-48 | `plans` has exactly one definition per tier, so `getPlanDefinition(t)` is defined and has tier `t` |
| SubscriptionServer.RequireSupabaseAdmin | src/lib/subscriptionServer.ts:16-21 | fails with the not-configured message exactly when the admin client is absent, otherwise returns it |
| SubscriptionServer.Ensured | src/lib/subscriptionServer.ts:23-40 | after the upsert the user has a row with plan `free` and status `inactive` (or the given defaults) even if one existed; an existing row keeps its ids, period end and storage; a new row starts with none and zero storage; other users' rows are unchanged |
| SubscriptionServer.EnsuredIdempotent | src/lib/subscriptionServer.ts:27-35 | ensuring twice with the same defaults gives the same table as ensuring once |
| SubscriptionServer.EnsuredKeyedByUser | src/lib/subscriptionServer.ts:27-35 | the upsert on `user_id` keeps every row stored under its own user |
| SubscriptionServer.EnsureOverwritesPlan | src/lib/subscriptionServer.ts:27-35 | an existing active premium row is set back to free and inactive |
| SubscriptionServer.SubscriptionStore.EnsureSubscription | src/lib/subscriptionServer.ts:23-40 | throws without the admin client and changes nothing; otherwise the table becomes the ensured table and the returned row is the user's row in it |
| SubscriptionServer.SubscriptionStore.GetSubscriptionByUser | src/lib/subscriptionServer.ts:42-47 | throws without the admin client; otherwise returns null exactly when the user has no row, and that row otherwise |
| SubscriptionServer.GetLimitsForPlan | src/lib/subscriptionServer.ts:49-51 | defined exactly when the stored plan names a tier, and then it is that tier's LIMITS entry |
| SubscriptionServer.GetLimitsForTier | src/lib/subscriptionServer.ts:49-51 | the limits of a tier are found under its name |
| SubscriptionServer.IsVideoUrl | src/lib/subscriptionServer.ts:53-56 | null and empty are not videos; otherwise a URL is a video exactly when its lower-cased form ends in `.webm` or `.mp4` or contains `/video` |
| SubscriptionServer.IsVideoUrlCaseInsensitive | src/lib/subscriptionServer.ts:55 | a URL and its lower-cased form get the same answer |
| SubscriptionServer.IsVideoUrlUpperCase | src/lib/subscriptionServer.ts:55 | `a.MP4` and `h/Video/1` are videos |
| SubscriptionServer.IsVideoUrlNotVideo | src/lib/subscriptionServer.ts:55 | `a.mp4.png` and `Videos.PNG` are not videos |
| SubscriptionServer.EndsInOtherLetter | src/lib/subscriptionServer.ts:55 | a URL without a slash whose lower-cased form ends in neither `4` nor `m` is not a video |
| SubscriptionServer.NoSlashNoVideo | src/lib/subscriptionServer.ts:55 | a URL without a slash is a video only by its extension |
| SubscriptionServer.VideoCount | src/app/api/subscription/route.ts:41-43 | the caller's video count never exceeds their story count |
| SubscriptionServer.StoryCount | src/app/api/stories/route.ts:30-34 | the exact count of the user's stories: at most the table's size, the whole table exactly when every story is the user's, and zero exactly when none is |
| SubscriptionServer.CountsAfterAppend | src/app/api/stories/route.ts:30-58 | appending a story adds one to its owner's story count, and one to its owner's video count exactly when the story is a video; other users' counts do not change |
| Postgrest.MaybeSingle | src/lib/subscriptionServer.ts:44 | no row gives null, one row gives that row, several rows give an error |
| StorageRoute.CeilMb | src/app/api/subscription/storage/route.ts:22 | the charge is the least whole number of MiB that holds the bytes |
| StorageRoute.CeilMbExamples | src/app/api/subscription/storage/route.ts:22 | 1 byte and 1048576 bytes charge 1, 1048577 bytes charge 2 |
| StorageRoute.CeilMbPositive | src/app/api/subscription/storage/route.ts:22 | any positive size charges at least 1 MiB |
| StorageRoute.StoragePost | src/app/api/subscription/storage/route.ts:6-50 | other users' rows are never changed and the only key that may appear is the caller's; a 200 needs a caller, a numeric size and a row whose plan has limits, with usage plus a check-only charge within the ceiling |
| StorageRoute.Post | src/app/api/subscription/storage/route.ts:6-50 | the handler's response and table agree with the outcome function, and the table stays keyed by user |
| StorageRoute.StorageGuards | src/app/api/subscription/storage/route.ts:12-21 | no user gives 401; a zero, missing or non-numeric size gives 400; neither changes the table |
| StorageRoute.StorageLimitGate | src/app/api/subscription/storage/route.ts:31-37 | for a stored row, or the free row ensured for a first-time caller, the request is refused with 403 exactly when usage (zero for a new row) plus the charge exceeds the tier's ceiling, so landing on the ceiling is allowed |
| StorageRoute.CheckOnlyNeverCharges | src/app/api/subscription/storage/route.ts:39-47 | a check-only request never changes any usage; a row ensured on the way starts at zero |
| StorageRoute.StorageCommit | src/app/api/subscription/storage/route.ts:30-49 | a successful commit sets the caller's usage to the old usage (0 for a new row) plus the charge, within the tier's ceiling, and changes no other column or user |
| StorageRoute.NegativeBytesLowerUsage | src/app/api/subscription/storage/route.ts:19-22 | a negative size passes the guard and lowers the stored usage |
| StorageRoute.FreeCeilingExample | src/app/api/subscription/storage/route.ts:22-37 | a new free user may store exactly 500 MiB, and one byte more is refused |
| StoriesRoute.NewStory | src/app/api/stories/route.ts:50-56 | the inserted row belongs to the caller; description and image default to null, and the release time defaults to now |
| StoriesRoute.StoriesPost | src/app/api/stories/route.ts:7-65 | other users' rows are never changed and only the caller's row may appear; a refusal leaves `stories` alone; a success appends exactly the returned story, owned by the caller with the new id, after its story count was below its tier's limit |
| StoriesRoute.Post | src/app/api/stories/route.ts:7-65 | the handler's response and both tables agree with the outcome function |
| StoriesRoute.StoriesGuards | src/app/api/stories/route.ts:9-23 | a missing admin client throws, then no user gives 401, then a falsy title gives 400; none of them writes |
| StoriesRoute.StoryLimitGate | src/app/api/stories/route.ts:25-36 | for a stored row, or the free row ensured for a first-time caller who may already own stories, the request is refused with the story-limit 403 exactly when the caller's story count is at least the tier's limit |
| StoriesRoute.VideoLimitGate | src/app/api/stories/route.ts:41-48 | past the story gate, the request is refused with the video-limit 403 exactly when the new image is a video and the caller's video count is at least the limit, also for a first-time caller held to the ensured free row |
| StoriesRoute.NonVideoNotVideoGated | src/app/api/stories/route.ts:41 | an absent, empty or non-video image never meets the video limit |
| StoriesRoute.CreatedBranch | src/app/api/stories/route.ts:30-64 | a created story passed both gates: the row's plan has limits, the story count was below them, and so was the seen video count for a video |
| StoriesRoute.AppendWithinLimits | src/app/api/stories/route.ts:34-58 | appending a story that passed both gates keeps the story count, and the video count for a video, within the limits |
| StoriesRoute.CreatedWithinLimits | src/app/api/stories/route.ts:30-64 | a successful request appends exactly the new row; the caller then has at most the tier's number of stories, and at most its number of videos when the new story is a video |
| StoriesRoute.FreeTierOneStory | src/app/api/stories/route.ts:34-36 | on the free tier, whether the free row is stored or ensured on the way, a first story is accepted and a second refused |
| SubscriptionRoute.SnapshotOf | src/app/api/subscription/route.ts:45-53 | the snapshot carries the row's plan, status, usage and period end, the limits of the plan, the caller's story count, and a video count no larger than it |
| SubscriptionRoute.SubscriptionGet | src/app/api/subscription/route.ts:7-54 | other users' rows are never changed and only the caller's row may appear; a snapshot reports the plan, status and usage of the caller's row after the call and the caller's story count; every refusal is 401 or 500 |
| SubscriptionRoute.Get | src/app/api/subscription/route.ts:7-54 | the handler's response and table agree with the outcome function |
| SubscriptionRoute.SnapshotGuards | src/app/api/subscription/route.ts:13-25 | no user gives 401; a lookup error other than PGRST116 gives 500 with its message; neither writes |
| SubscriptionRoute.SnapshotWritesOnlyEnsure | src/app/api/subscription/route.ts:17-27 | the only possible write is the ensure of the caller's row, and there is none when the row is found |
| SubscriptionRoute.SnapshotContents | src/app/api/subscription/route.ts:27-53 | a successful snapshot reports the caller's row with the limits of its plan and the caller's story count; a new caller sees free, inactive and zero usage |
| StripeWebhook.Logged | src/app/api/stripe/webhook/route.ts:35-44 | the event log has the event's id afterwards; a first delivery is recorded and a replay keeps the first record |
| StripeWebhook.LoggedIdempotent | src/app/api/stripe/webhook/route.ts:35-44 | logging the same event twice equals logging it once |
| StripeWebhook.WebhookEventLog.Record | src/app/api/stripe/webhook/route.ts:35-44 | the log becomes the logged log |
| StripeWebhook.CustomerOwner | src/app/api/stripe/webhook/route.ts:8-12 | the reverse lookup finds a user exactly when one row carries the customer id |
| StripeWebhook.FindUserIdByCustomer | src/app/api/stripe/webhook/route.ts:8-12 | the loop over the table returns the single owner of the customer id, or nothing |
| StripeWebhook.CollectOwners | src/app/api/stripe/webhook/route.ts:10 | the scan returns every user whose row carries the customer id, each exactly once |
| StripeWebhook.ResolveUser | src/app/api/stripe/webhook/route.ts:73-77 | a truthy metadata `userId` wins; without one and without a customer no user is resolved |
| StripeWebhook.NextPlan | src/app/api/stripe/webhook/route.ts:78-79 | canceled or deleted gives `free`; otherwise the metadata plan, or `'pro'` when there is none |
| StripeWebhook.ProIsNoTier | src/app/api/stripe/webhook/route.ts:78 | `'pro'` names no tier, so a row with it has no limits |
| StripeWebhook.CheckoutWrite | src/app/api/stripe/webhook/route.ts:54-66 | the upsert gives the user's row the session's customer and subscription id, the plan, and the retrieved status and period end, keeping storage; other rows are unchanged |
| StripeWebhook.SubscriptionWrite | src/app/api/stripe/webhook/route.ts:80-89 | the update writes plan, status, period end, customer and subscription id (null on deletion) to the user's row only, and nothing when there is no row |
| StripeWebhook.ApplyEvent | src/app/api/stripe/webhook/route.ts:46-95 | the event fails exactly when it is an applicable checkout whose subscription cannot be retrieved, with the provider's error; otherwise no row disappears, storage is untouched, only a checkout can add a row, and an event of another type changes nothing |
| StripeWebhook.WebhookPost | src/app/api/stripe/webhook/route.ts:14-98 | logged records are never changed and at most the verified event's id is added; only a 200 changes the table, and only after the event was logged; no row disappears and no usage changes |
| StripeWebhook.Post | src/app/api/stripe/webhook/route.ts:14-98 | the handler's response, log and table agree with the outcome function |
| StripeWebhook.ApplyToStore | src/app/api/stripe/webhook/route.ts:46-95 | the event's effect on the table agrees with the event function, and a thrown error leaves the table unchanged |
| StripeWebhook.WebhookGuards | src/app/api/stripe/webhook/route.ts:15-31 | no provider client or secret gives 500 and a failed signature gives 400; neither table changes |
| StripeWebhook.WebhookLogsEveryEvent | src/app/api/stripe/webhook/route.ts:33-97 | every verified event is logged, a replay keeps the first record, processing continues anyway, and the answer is `received` unless retrieving a checkout's subscription throws |
| StripeWebhook.CheckoutCompletedWrites | src/app/api/stripe/webhook/route.ts:47-68 | a completed checkout writes only with a user, a subscription id and a plan, and then stores the session's values on that user's row |
| StripeWebhook.SubscriptionChangeWrites | src/app/api/stripe/webhook/route.ts:70-92 | an updated or deleted event writes only to the resolved user's row: the plan follows nextPlan, and the subscription id is cleared on deletion and kept on update |
| StripeWebhook.WebhookNeverWritesStorage | src/app/api/stripe/webhook/route.ts:54-89 | no event changes `storage_used_mb` |
| StripeWebhook.CustomerOwnerStable | src/app/api/stripe/webhook/route.ts:8-12 | rewriting the owner's row with the same customer id keeps the reverse lookup's answer |
| StripeWebhook.ApplyEventIdempotent | src/app/api/stripe/webhook/route.ts:46-95 | processing the same event twice leaves the same table as processing it once |
| StripeWebhook.WebhookReplay | src/app/api/stripe/webhook/route.ts:33-97 | redelivering an event through the whole handler changes neither the log nor the table |
| CheckoutSession.PriceIdFor | src/lib/serverPricing.ts:3-6 | only `premium` has a price id, the configured one |
| CheckoutSession.ResolveCoupon | src/app/api/create-checkout-session/route.ts:60-77 | a voucher resolves exactly when one active coupon has the code and it carries a provider coupon id; several matches give the database error |
| CheckoutSession.Handler | src/app/api/create-checkout-session/route.ts:10-108 | the handler's response, table and provider calls agree with the outcome function |
| CheckoutSession.GuardFailure | src/app/api/create-checkout-session/route.ts:11-40 | the request gets past the checks exactly when it is a POST, the provider is configured, a caller is signed in, the plan is non-empty and it has a price id |
| CheckoutSession.CheckoutHandler | src/app/api/create-checkout-session/route.ts:10-108 | other users' rows are never changed and only the caller's row may appear; a failed check writes nothing and calls no provider; a session is only requested for a POST by the caller, with the customer id stored on the caller's row, one unit of the premium price, and the caller and plan as metadata; a 200 needs a session |
| CheckoutSession.CustomerStage | src/app/api/create-checkout-session/route.ts:43-58 | a customer is created for the caller exactly when the row has no customer id, and only that column of that row can change; a failed creation throws with nothing written and no session; a session uses the customer id now on the row |
| CheckoutSession.SessionStage | src/app/api/create-checkout-session/route.ts:60-101 | nothing is written; a session is requested exactly unless a given voucher fails to resolve, which answers 400; the session carries the customer, one unit of the price, promotion codes, the caller and plan, and the resolved coupon |
| CheckoutSession.SessionResponse | src/app/api/create-checkout-session/route.ts:97-107 | 200 with the URL exactly when a session with a truthy URL was created; every other answer is 500, with a thrown error's own message when it has one |
| CheckoutSession.CustomerStep | src/app/api/create-checkout-session/route.ts:46-107 | with the caller's row ensured, the customer step's response, table and provider calls agree with the customer stage of the outcome function |
| CheckoutSession.RequestSession | src/app/api/create-checkout-session/route.ts:60-107 | the voucher and session step agrees with the session stage of the outcome function and writes nothing |
| CheckoutSession.ReachesSessionStage | src/app/api/create-checkout-session/route.ts:43-58 | past the checks and with the admin client, the session is requested for the ensured row with its stored customer id, or with the new one stored on it |
| CheckoutSession.CheckoutGuardOrder | src/app/api/create-checkout-session/route.ts:11-33 | the guards run in order: a non-POST gives 405, no provider 500, no user 401, no plan 400; none writes or calls the provider |
| CheckoutSession.NoPriceNoCheckout | src/app/api/create-checkout-session/route.ts:35-40 | a plan without a price id gives 400 before any write; `free` never has one |
| CheckoutSession.CustomerBackfill | src/app/api/create-checkout-session/route.ts:43-58 | a customer is created and stored exactly when the row has no customer id; the session uses the stored or new id |
| CheckoutSession.VoucherGate | src/app/api/create-checkout-session/route.ts:60-77 | with a code, a session is requested exactly when the voucher resolves, and it carries that coupon; otherwise the answer is 400, "Invalid voucher code" when no coupon matches |
| CheckoutSession.SessionRequestShape | src/app/api/create-checkout-session/route.ts:79-101 | the session has the success and cancel URLs under the app URL (default `http://localhost:3000`), one unit of the price, and the user and plan as metadata; the answer is its URL, or 500 without one |
| CheckoutSession.CheckoutDemotesExistingRow | src/app/api/create-checkout-session/route.ts:42-44 | a premium user starting another checkout is first written back to free and inactive |
| StoryService.OwnedBy | src/services/storyService.ts:17 | the result holds exactly the rows of the user |
| StoryService.SortBy | src/services/storyService.ts:19 | the result is ordered by the key and is a permutation of the input |
| StoryService.ListStoriesByUser | src/services/storyService.ts:13-22 | exactly the user's stories released by now, newest first, each as often as in the table |
| StoryService.ListScheduledStoriesByUser | src/services/storyService.ts:24-33 | exactly the user's stories released after now, earliest release first, each as often as in the table |
| StoryService.PublishedScheduledPartition | src/services/storyService.ts:13-33 | for one instant the two listings are disjoint and together hold every dated story of the user |
| StoryService.Patched | src/services/storyService.ts:69-74 | a field is written exactly when the patch defines it (an explicit null included); id, owner and creation time are kept |
| StoryService.UpdateWhere | src/services/storyService.ts:69-75 | only rows with the id are patched |
| StoryService.StoryTable.CreateStory | src/services/storyService.ts:41-59 | one row is appended: description and image default to null and the release time to now |
| StoryService.StoryTable.UpdateStory | src/services/storyService.ts:61-80 | with exactly one row of that id it is patched and returned; otherwise nothing changes and the not-singular error is thrown |
| StoryService.StoryTable.DeleteStory | src/services/storyService.ts:82-85 | exactly the rows with that id are removed, the rest kept in order |
| RecipientService.RecipientIds | src/services/recipientService.ts:62 | the recipient ids of the links, in order |
| RecipientService.LinksFor | src/services/recipientService.ts:88-93 | one link per id, in order, each with the story, the user and the notify flag |
| RecipientService.RecipientIdsMembership | src/services/recipientService.ts:62 | an id is listed exactly when some link carries it |
| RecipientService.StoryRecipientTable.SetRecipientsForStory | src/services/recipientService.ts:78-96 | a failed delete throws and changes nothing; an empty list only deletes; a failed insert throws after the delete; otherwise the story's links are replaced |
| RecipientService.StoryRecipientTable.ListRecipientsForStory | src/services/recipientService.ts:56-63 | a query error is thrown; otherwise the result is the recipient id of every link of the story |
| RecipientService.SetThenList | src/services/recipientService.ts:85-95 | after a replace, the story's links are exactly one row per given id in order, so listing returns the ids, duplicates included |
| RecipientService.ReplaceKeepsOtherStories | src/services/recipientService.ts:85 | links of every other story are unchanged |
| RecipientService.DuplicatesKept | src/services/recipientService.ts:88-93 | two equal ids give two links |
| RecipientService.UpdatePayload | src/services/recipientService.ts:47-50 | the payload has no `id`, `user_id` or `created_at`, and every other field passes through unchanged |
| RecipientService.CreatePayload | src/services/recipientService.ts:33-35 | `user_id` is set to the signed-in user when there is one, and the input is passed unchanged otherwise |
| RecipientService.UpdateById | src/services/recipientService.ts:51 | only rows with the id take the payload |
| RecipientService.UpdateKeepsProtected | src/services/recipientService.ts:47-51 | an update with the stripped payload never changes any row's id, owner or creation time |
| RecipientService.RecipientTable.UpdateRecipient | src/services/recipientService.ts:46-54 | with exactly one row of that id it is overwritten by the stripped payload and returned; otherwise, or on a database error, nothing changes and an error is thrown |
| Upload.GuessExtension | src/utils/upload.ts:12-21 | a guess exists exactly for the five known types; it is `jpg` for `image/jpeg` and the subtype for the others |
| Upload.NameExtension | src/utils/upload.ts:26 | the text after the last dot of the name, or the whole name without a dot |
| Upload.ChooseExtension | src/utils/upload.ts:22-27 | an explicit extension always wins, then the guess from the type, then the file name's extension, then `bin` for a plain blob |
| Upload.UploadPath | src/utils/upload.ts:11-29 | the path is the directory (default `stories`), a slash, the UUID, a dot and the extension: it starts and ends as stated and the UUID sits exactly between them |
| Upload.DistinctUuidsDistinctPaths | src/utils/upload.ts:28-29 | two different UUIDs give two different paths for the same directory and extension |
| Upload.RecordedVideoIsVideoUrl | src/utils/upload.ts:18-29 | a WebM or MP4 blob uploaded without an extension gets a URL that `isVideoUrl` accepts |
| Upload.DottedNameExample | src/utils/upload.ts:26 | `clip.final.MOV` of unknown type gives `MOV`, the text after the last dot |
| Upload.ChooseExtensionExamples | src/utils/upload.ts:22-27 | `README` gives `README`, an untyped blob gives `bin`, and an explicit `png` beats a JPEG |
| StoryForm.ValidateTitle | src/components/story/StoryForm.tsx:14-15 | an empty title is rejected with "Title is required", and nothing else is |
| StoryForm.ReleaseAtChoice | src/components/story/StoryForm.tsx:92 | publishing immediately or leaving the date empty gives now; otherwise the chosen date |
| StoryForm.ToggleRecipient | src/components/story/StoryForm.tsx:253 | checking selects the id, unchecking removes it, and no other id changes membership |
| StoryForm.ToggleOn | src/components/story/StoryForm.tsx:253 | checking gives the deduplicated selection, then the id if it was not there; the result has no repeats |
| StoryForm.ToggleOffKeepsOrder | src/components/story/StoryForm.tsx:253 | unchecking keeps the other ids in order |
| StoryForm.ToggleOnThenOff | src/components/story/StoryForm.tsx:253 | checking a new id and unchecking it restores a repeat-free selection |
| StoryForm.AddInline | src/components/story/StoryForm.tsx:146-147 | the new recipient is first in the list of all recipients and first in a repeat-free selection holding it and the old selection |
| StoryForm.CreateInput | src/components/story/StoryForm.tsx:88-93 | a create sends the title, the description as typed, the image and the chosen release time |
| StoryForm.EditPatch | src/components/story/StoryForm.tsx:98-103 | an edit always writes title, description and release time, and writes the image only when one is set |
| StoryForm.Submit | src/components/story/StoryForm.tsx:76-114 | an empty title is reported before any write; a create adds the story and links only a non-empty selection; an edit updates the story and replaces its links even with an empty selection; a failed link delete is reported with the links unchanged, and a failed link insert is reported with the story's old links already deleted |
| Sidebar.IsActive | src/components/Sidebar.tsx:48-54 | no path is never active; the root item is active only on `/`; any other item is active exactly on its path or below it at a slash |
| Sidebar.SegmentBoundaryExamples | src/components/Sidebar.tsx:53 | `/dashboard` is active on `/dashboard/a` and `/dashboard`, not on `/dashboardx`; the root item is not active on `/dashboard` |
| Sidebar.SubRouteActivatesParent | src/components/Sidebar.tsx:53 | wherever a sub-item is active, its parent item is too |
| MarketingNav.MetadataName | src/components/marketing/MarketingNav.tsx:16-19 | `full_name` when truthy, else `name` when truthy, else the empty string |
| MarketingNav.Words | src/components/marketing/MarketingNav.tsx:21 | the words are exactly the non-empty pieces of the trimmed name split at spaces, none holds a space, and a non-blank name's first word is its first piece |
| MarketingNav.FirstName | src/components/marketing/MarketingNav.tsx:20-23 | never empty: the first word of the trimmed name, else the trimmed `first_name` when not blank, else `friend` |
| MarketingNav.FirstNameIsFirstPiece | src/components/marketing/MarketingNav.tsx:21 | for a non-blank name, the greeting is the trimmed name up to its first space, and it occurs in the name |
| MarketingNav.BlankFullNameHidesName | src/components/marketing/MarketingNav.tsx:16-23 | a blank but truthy `full_name` hides `name`, so the greeting comes from `first_name` |
| MarketingNav.NoNameIsFriend | src/components/marketing/MarketingNav.tsx:23 | without any name the greeting is `friend` |
| JsStrings.Split | src/components/marketing/MarketingNav.tsx:21 | split gives at least one piece, no piece contains the separator, and joining the pieces gives back the string |
| JsStrings.Trim | src/components/marketing/MarketingNav.tsx:21-22 | trim gives an infix of the string that neither starts nor ends with whitespace, with only whitespace dropped before and after it |
| JsStrings.Includes | src/lib/subscriptionServer.ts:55 | `includes` holds exactly when the text occurs at some index |
| JsArrays.DedupeSpec | src/components/story/StoryForm.tsx:147 | `Array.from(new Set(xs))` holds exactly the elements of `xs`, without repeats |
| JsArrays.DedupeSnoc | src/components/story/StoryForm.tsx:253 | deduplicating `xs + [x]` appends `x` to the deduplicated `xs` unless it already occurs there |
| Scenarios.UpgradeLiftsStoryLimit | src/app/api/stripe/webhook/route.ts:70-90 | a free user with one story is refused another; after a subscription-updated event naming them and `premium`, the same request succeeds |

## Left out

- Stripe calls are parameters carrying their result: signature verification, retrieving a subscription, creating a customer and creating a checkout session. Their internals are not modelled.
- Database client calls are modelled only as their effect on the tables, plus the database errors that a branch of the model takes as a parameter.
- Database errors the code does not check are not modelled: the lookups in the storage and story handlers, the webhook writes and the checkout handler's customer-id backfill.
- Several database errors the code does check and rethrow are not modelled either. The model treats these calls as always succeeding:
  - the `ensureSubscription` upsert error (src/lib/subscriptionServer.ts:38);
  - the `getSubscriptionByUser` query error (src/lib/subscriptionServer.ts:45);
  - the query errors of the two story listings (src/services/storyService.ts:20 and :31);
  - the `createStory` insert error (src/services/storyService.ts:57);
  - the `deleteStory` error (src/services/storyService.ts:84).
  - the `couponError` of the voucher lookup (src/app/api/create-checkout-session/route.ts:70-72), which answers 400 with its message; only its several-rows error is modelled, by `CheckoutSession.ResolveCoupon`.
- Concurrency is not modelled. Each request is one sequential transaction, so the race between a quota check and its commit is out of scope.
- JavaScript numbers: sizes, counts and times are integers. Fractional and infinite sizes are not modelled; NaN and 0 are.
- Dates: timestamps are integers. `toISOString()` formatting, the `current_period_end * 1000` conversion and the parsing of the form's date field are not modelled.
- `toLowerCase` is modelled on ASCII letters only. Other Unicode case mappings are not captured.
- The `?? 'free'`, `?? 'inactive'` and `?? 0` fallbacks are not modelled because they never apply. Plan, status and storage are non-null columns in the database types, so the model's row has no null there.
- The database default of `storage_used_mb` is not part of the schema types. A new row is modelled as starting at 0.
- `current_period_end` is stored as an integer. The `metadata`, `id`, `created_at` and `updated_at` columns of `subscriptions` are not modelled.
- Database-generated values are parameters: story ids, the creation time and the recipient row created by `createRecipient`. Row-level security is not modelled.
- `listRecipients`, `deleteRecipient`, `listRecipientDetailsForStory` and `getStoryById` are plain reads or deletes outside the named core. They are not modelled.
- `createRecipient` is modelled only by its payload (`CreatePayload`). Its insert and `.single()` are not modelled.
- The form's `image_url` URL validation (`z.string().url()`) is not modelled. Only the title rule is. The form's loading state, navigation and error display are also left out.
- The story-table insert in `createStory` and in the stories handler is modelled as always succeeding, except for the handler's explicit insert-error branch.
- The upload itself, the public-URL lookup and the random UUID are not modelled. The UUID is a parameter, and the public URL is any prefix in `Upload.RecordedVideoIsVideoUrl`.
- Plan names are compared as whole strings. JavaScript lookups of inherited object keys (e.g. `LIMITS['toString']`) are not modelled, and such names give no limits.
- The webhook assumes each event type comes with its documented object shape. A `customer` given as an expanded object rather than an id is not modelled.
