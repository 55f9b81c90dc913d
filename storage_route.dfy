/** POST /api/subscription/storage: charges an upload's size, rounded up to
    whole mebibytes, against the plan's storage ceiling, either only checking
    or also committing the new usage. */
module StorageRoute {
  import opened Wrappers
  import opened Http
  import opened SubscriptionPlans
  import opened SubscriptionServer

  const Mebibyte: int := 1024 * 1024

  /** `Number(payload?.bytes ?? 0)` for an integral byte count: a missing
      field is 0, a non-numeric one NaN. */
  datatype JsNumber = NaN | Num(value: int)

  /** The request body. */
  datatype StorageRequest = StorageRequest(bytes: JsNumber, checkOnly: bool)

  /** `Math.ceil(bytes / (1024 * 1024))`: the least whole number of
      mebibytes that holds `bytes`. */
  function CeilMb(bytes: int): (mb: int)
    ensures (mb - 1) * Mebibyte < bytes <= mb * Mebibyte
  {
    (bytes + Mebibyte - 1) / Mebibyte
  }

  /** Boundary values of the rounding. */
  lemma CeilMbExamples()
    ensures CeilMb(1) == 1
    ensures CeilMb(1048576) == 1
    ensures CeilMb(1048577) == 2
    ensures CeilMb(500 * 1048576) == 500
    ensures CeilMb(-1048576) == -1
  {
  }

  /** A positive byte count is charged at least one mebibyte. */
  lemma CeilMbPositive(bytes: int)
    requires bytes > 0
    ensures CeilMb(bytes) >= 1
  {
  }

  /** The handler's answer and the `subscriptions` table after it. */
  datatype StorageOutcome = StorageOutcome(response: Response<bool>, rows: SubscriptionTable)

  /** What the handler does, given the caller (none when the session is
      missing or invalid), the admin client, the body and the error (if any)
      the commit update reports. */
  function StoragePost(rows: SubscriptionTable, admin: Option<AdminClient>, user: Option<string>,
                       req: StorageRequest, updateError: Option<string>): (out: StorageOutcome)
    ensures forall v :: v in rows && (user.None? || v != user.value) ==> v in out.rows && out.rows[v] == rows[v]
    ensures out.rows.Keys == rows.Keys || (user.Some? && out.rows.Keys == rows.Keys + {user.value})
    ensures out.response.Ok? ==>
              user.Some? && req.bytes.Num? && user.value in out.rows
              && GetLimitsForPlan(out.rows[user.value].plan).Some?
              && out.rows[user.value].storageUsedMb + (if req.checkOnly then CeilMb(req.bytes.value) else 0)
                 <= GetLimitsForPlan(out.rows[user.value].plan).value.storageMb
  {
    if user.None? then StorageOutcome(Fail(401, "Unauthorized"), rows)
    else if req.bytes.NaN? || req.bytes.value == 0 then StorageOutcome(Fail(400, "bytes is required"), rows)
    else
      var u := user.value;
      var mb := CeilMb(req.bytes.value);
      if u !in rows && admin.None? then StorageOutcome(Unhandled(AdminNotConfigured), rows)
      else
        var ensured := if u in rows then rows else Ensured(rows, u, NoDefaults);
        var row := ensured[u];
        match GetLimitsForPlan(row.plan)
        case None => StorageOutcome(Unhandled("limits is undefined"), ensured)
        case Some(limits) =>
          var used := row.storageUsedMb;
          if used + mb > limits.storageMb then StorageOutcome(Fail(403, "Storage limit reached"), ensured)
          else if req.checkOnly then StorageOutcome(Ok(true), ensured)
          else if updateError.Some? then StorageOutcome(Fail(500, updateError.value), ensured)
          else StorageOutcome(Ok(true), ensured[u := row.(storageUsedMb := used + mb)])
  }

  /** The handler, run against the table. */
  method Post(store: SubscriptionStore, admin: Option<AdminClient>, user: Option<string>,
              req: StorageRequest, updateError: Option<string>) returns (resp: Response<bool>)
    requires store.Valid()
    modifies store
    ensures store.Valid()
    ensures StoragePost(old(store.rows), admin, user, req, updateError) == StorageOutcome(resp, store.rows)
  {
    if user.None? {
      return Fail(401, "Unauthorized");
    }
    if req.bytes.NaN? || req.bytes.value == 0 {
      return Fail(400, "bytes is required");
    }
    var u := user.value;
    var mb := CeilMb(req.bytes.value);
    var row;
    var existing := RowOf(store.rows, u);
    if existing.Some? {
      row := existing.value;
    } else {
      var ensured := store.EnsureSubscription(admin, u, NoDefaults);
      if ensured.Failure? {
        return Unhandled(ensured.error);
      }
      row := ensured.value;
    }
    var limits := GetLimitsForPlan(row.plan);
    if limits.None? {
      return Unhandled("limits is undefined");
    }
    var used := row.storageUsedMb;
    if used + mb > limits.value.storageMb {
      return Fail(403, "Storage limit reached");
    }
    if !req.checkOnly {
      if updateError.Some? {
        return Fail(500, updateError.value);
      }
      store.rows := store.rows[u := row.(storageUsedMb := used + mb)];
    }
    resp := Ok(true);
  }

  /** No caller, or a missing, zero or non-numeric size: 401 or 400, and the
      table is untouched. */
  lemma StorageGuards(rows: SubscriptionTable, admin: Option<AdminClient>, user: Option<string>,
                      req: StorageRequest, updateError: Option<string>)
    requires user.None? || req.bytes.NaN? || req.bytes == Num(0)
    ensures StoragePost(rows, admin, user, req, updateError).rows == rows
    ensures StoragePost(rows, admin, user, req, updateError).response.Status()
            == if user.None? then 401 else 400
  {
  }

  /** For a caller whose row (the stored one, or the free row ensured for a
      first-time caller) names a tier, the request is refused with 403
      exactly when the current usage (zero for a new row) plus the
      rounded-up size exceeds the tier's ceiling; landing on the ceiling is
      allowed. */
  lemma StorageLimitGate(rows: SubscriptionTable, admin: Option<AdminClient>, u: string, bytes: int,
                         checkOnly: bool, updateError: Option<string>, t: PlanTier)
    requires bytes != 0 && (u in rows || admin.Some?)
    requires (if u in rows then rows[u] else Ensured(rows, u, NoDefaults)[u]).plan == TierName(t)
    ensures StoragePost(rows, admin, Some(u), StorageRequest(Num(bytes), checkOnly), updateError).response
            == Fail(403, "Storage limit reached")
            <==> (if u in rows then rows[u].storageUsedMb else 0) + CeilMb(bytes) > Limits(t).storageMb
  {
    GetLimitsForTier(t);
  }

  /** A check-only request never charges: every row that existed keeps its
      usage, and a row ensured on the way starts at zero. */
  lemma CheckOnlyNeverCharges(rows: SubscriptionTable, admin: Option<AdminClient>, user: Option<string>,
                              bytes: JsNumber, updateError: Option<string>)
    ensures var out := StoragePost(rows, admin, user, StorageRequest(bytes, true), updateError);
            forall v :: v in out.rows ==> out.rows[v].storageUsedMb == (if v in rows then rows[v].storageUsedMb else 0)
  {
  }

  /** A committed request sets the caller's usage to exactly the previous
      usage (zero for a row ensured on the way) plus the rounded-up size,
      which is within the ceiling of the caller's tier; no other column and
      no other user's row changes. */
  lemma StorageCommit(rows: SubscriptionTable, admin: Option<AdminClient>, u: string, bytes: JsNumber)
    requires StoragePost(rows, admin, Some(u), StorageRequest(bytes, false), None).response.Ok?
    ensures bytes.Num? && bytes.value != 0
    ensures var out := StoragePost(rows, admin, Some(u), StorageRequest(bytes, false), None).rows;
            var before := if u in rows then rows[u] else Ensured(rows, u, NoDefaults)[u];
            && u in out
            && out[u] == before.(storageUsedMb := before.storageUsedMb + CeilMb(bytes.value))
            && (exists t :: out[u].plan == TierName(t) && out[u].storageUsedMb <= Limits(t).storageMb)
            && out.Keys == rows.Keys + {u}
            && forall v :: v in rows && v != u ==> out[v] == rows[v]
  {
    var out := StoragePost(rows, admin, Some(u), StorageRequest(bytes, false), None).rows;
    var ensured := if u in rows then rows else Ensured(rows, u, NoDefaults);
    var t :| TierName(t) == ensured[u].plan;
    assert out[u].plan == TierName(t);
  }

  /** The commit trusts the sign of `bytes`: a negative size of a mebibyte or
      more lowers the recorded usage, so the counter is not monotone. */
  lemma NegativeBytesLowerUsage(rows: SubscriptionTable, admin: Option<AdminClient>, u: string)
    requires u in rows && rows[u].plan == "free" && rows[u].storageUsedMb == 10
    ensures var out := StoragePost(rows, admin, Some(u), StorageRequest(Num(-1048576), false), None);
            out.response == Ok(true) && out.rows[u].storageUsedMb == 9
  {
    assert CeilMb(-1048576) == -1;
    GetLimitsForTier(Free);
  }

  /** A new free user can store exactly the 500 MB ceiling in one request,
      and a single byte more is refused. */
  lemma FreeCeilingExample(rows: SubscriptionTable, admin: Option<AdminClient>, u: string)
    requires u !in rows && admin.Some?
    ensures StoragePost(rows, admin, Some(u), StorageRequest(Num(500 * 1048576), false), None).response == Ok(true)
    ensures StoragePost(rows, admin, Some(u), StorageRequest(Num(500 * 1048576 + 1), true), None).response
            == Fail(403, "Storage limit reached")
  {
    assert CeilMb(500 * 1048576) == 500;
    assert CeilMb(500 * 1048576 + 1) == 501;
    GetLimitsForTier(Free);
  }
}
