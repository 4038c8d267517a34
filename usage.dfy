/** Monthly quota tracking (backend/app/services/usage_service.py): a usage
    record per user and month, created lazily at 0, incremented by one per
    admitted video, and a plan-dependent limit where -1 means unlimited.
    The current month is a parameter (the source reads the clock). */
module Usage {
  import opened Wrappers
  import opened Strs

  const FreeLimit: int := 3
  const Unlimited: int := -1

  /** `user.plan or "FREE"`: a missing or empty plan reads as FREE. */
  function PlanName(plan: Option<string>): (r: string)
    ensures r != ""
    ensures plan.Some? && plan.value != "" ==> r == plan.value
    ensures plan.None? || plan.value == "" ==> r == "FREE"
  {
    match plan
    case Some(p) => if p == "" then "FREE" else p
    case None => "FREE"
  }

  /** The plan's monthly limit. */
  function LimitFor(plan: string): int
  {
    if plan == "FREE" then FreeLimit
    else if plan == "PRO" || plan == "ENTERPRISE" then Unlimited
    else FreeLimit
  }

  /** A user's limit is -1 exactly for PRO and ENTERPRISE and 3 for every
      other plan, including a missing or unknown one. */
  lemma LimitOfUser(plan: Option<string>)
    ensures LimitFor(PlanName(plan)) == Unlimited <==> plan == Some("PRO") || plan == Some("ENTERPRISE")
    ensures LimitFor(PlanName(plan)) != Unlimited ==> LimitFor(PlanName(plan)) == FreeLimit
    ensures plan.None? ==> LimitFor(PlanName(plan)) == FreeLimit
  {
  }

  /** The dictionary `get_user_usage` returns: the error form for a missing
      user, otherwise the usage summary. */
  datatype UsageInfo =
    | UserNotFound
    | Info(plan: string, videosProcessed: int, limit: int, videosRemaining: int,
           canProcess: bool, month: string, isUnlimited: bool)
  {
    /** `usage_info["canProcess"]`, which is False in the error form. */
    predicate CanProcess() {
      match this
      case UserNotFound => false
      case Info(_, _, _, _, c, _, _) => c
    }

    /** `usage_info.get("error")` */
    function Error(): Option<string> {
      if UserNotFound? then Some("User not found") else None
    }
  }

  /** The summary for a plan, a count and a month. */
  function Summary(plan: string, processed: int, month: string): (r: UsageInfo)
    ensures r.Info? && r.plan == plan && r.videosProcessed == processed && r.month == month
  {
    var limit := LimitFor(plan);
    Info(plan, processed, limit,
         if limit > 0 then limit - processed else -1,
         limit == -1 || processed < limit,
         month, limit == -1)
  }

  /** The summary's flags and remaining count, in terms of the plan. */
  lemma SummaryFields(plan: string, processed: int, month: string)
    ensures var r := Summary(plan, processed, month);
      && (r.isUnlimited <==> plan == "PRO" || plan == "ENTERPRISE")
      && (r.canProcess <==> r.isUnlimited || processed < FreeLimit)
      && (r.isUnlimited ==> r.videosRemaining == -1 && r.limit == -1)
      && (!r.isUnlimited ==> r.videosRemaining == FreeLimit - processed && r.limit == FreeLimit)
  {
  }

  /** An unlimited plan can always process, whatever the count. */
  lemma UnlimitedAlwaysAdmitted(plan: string, processed: int, month: string)
    requires plan == "PRO" || plan == "ENTERPRISE"
    ensures Summary(plan, processed, month).CanProcess()
  {
  }

  /** A limited plan is refused exactly from its limit on, and the remaining
      count is then at most 0. */
  lemma LimitedRefusedAtLimit(plan: string, processed: int, month: string)
    requires plan != "PRO" && plan != "ENTERPRISE"
    ensures !Summary(plan, processed, month).CanProcess() <==> processed >= FreeLimit
    ensures !Summary(plan, processed, month).CanProcess() ==> Summary(plan, processed, month).videosRemaining <= 0
  {
  }

  /** The error form never admits and is never unlimited. */
  lemma MissingUserRefused()
    ensures !UserNotFound.CanProcess() && UserNotFound.Error() == Some("User not found")
    ensures !UserNotFound.Info?
  {
  }

  /** A UsageTracking row. */
  datatype UsageRecord = UsageRecord(videosProcessed: int, limit: int)

  type Records = map<(string, string), UsageRecord>

  /** The count stored for a user and month, 0 when there is no row. */
  function Processed(records: Records, userId: string, month: string): int
  {
    if (userId, month) in records then records[(userId, month)].videosProcessed else 0
  }

  /** What `get_user_usage` reports.  `users` maps a user id to its plan column. */
  function UsageOf(users: map<string, Option<string>>, records: Records, userId: string, month: string): (r: UsageInfo)
    ensures r.UserNotFound? <==> userId !in users
    ensures userId in users ==> r == Summary(PlanName(users[userId]), Processed(records, userId, month), month)
  {
    if userId !in users then UserNotFound
    else Summary(PlanName(users[userId]), Processed(records, userId, month), month)
  }

  /** The records after `get_user_usage`: a row at 0 with the plan's limit is
      created for a known user without one. */
  function AfterLookup(users: map<string, Option<string>>, records: Records, userId: string, month: string): Records
  {
    if userId in users && (userId, month) !in records
    then records[(userId, month) := UsageRecord(0, LimitFor(PlanName(users[userId])))]
    else records
  }

  /** A lookup creates at most the one row of this user and month, at 0,
      changes no existing row, creates nothing for a missing user, and does
      not change what a second lookup reports. */
  lemma LookupCreatesLazily(users: map<string, Option<string>>, records: Records, userId: string, month: string)
    ensures var after := AfterLookup(users, records, userId, month);
      && (forall k :: k in records ==> k in after && after[k] == records[k])
      && (forall k :: k in after && k !in records ==> k == (userId, month) && after[k].videosProcessed == 0)
      && (userId !in users ==> after == records)
      && (userId in users ==> (userId, month) in after)
      && UsageOf(users, after, userId, month) == UsageOf(users, records, userId, month)
  {
  }

  /** The upsert: increment an existing row, or create one at 1. */
  function Upsert(records: Records, userId: string, month: string, limit: int): Records
  {
    var key := (userId, month);
    if key in records then records[key := records[key].(videosProcessed := records[key].videosProcessed + 1)]
    else records[key := UsageRecord(1, limit)]
  }

  /** The result of `increment_usage`. */
  datatype IncrementResult = Refused(error: string, usage: UsageInfo) | Incremented(usage: UsageInfo)
  {
    predicate Success() { Incremented? }
  }

  const LimitReachedMessage := "Usage limit reached"

  /** The records after `increment_usage`. */
  function AfterIncrement(users: map<string, Option<string>>, records: Records, userId: string, month: string): Records
  {
    var looked := AfterLookup(users, records, userId, month);
    var info := UsageOf(users, records, userId, month);
    if !info.CanProcess() then looked else Upsert(looked, userId, month, info.limit)
  }

  /** What `increment_usage` returns: the refusal with the first lookup, or
      success with the usage read again after the upsert. */
  function IncrementOf(users: map<string, Option<string>>, records: Records, userId: string, month: string): IncrementResult
  {
    var info := UsageOf(users, records, userId, month);
    if !info.CanProcess() then Refused(LimitReachedMessage, info)
    else Incremented(UsageOf(users, AfterIncrement(users, records, userId, month), userId, month))
  }

  /** Refusal happens exactly when the first lookup does not admit, and then
      the count stays where it was; an admitted increment raises the count by
      exactly one, reports the new count, and touches no other row. */
  lemma {:induction false} IncrementByOne(users: map<string, Option<string>>, records: Records, userId: string, month: string)
    ensures var r := IncrementOf(users, records, userId, month);
      var after := AfterIncrement(users, records, userId, month);
      && (!r.Success() <==> !UsageOf(users, records, userId, month).CanProcess())
      && (!r.Success() ==> r.error == LimitReachedMessage && Processed(after, userId, month) == Processed(records, userId, month))
      && (r.Success() ==> (Processed(after, userId, month) == Processed(records, userId, month) + 1
                           && r.usage.Info? && r.usage.videosProcessed == Processed(records, userId, month) + 1))
      && (forall k :: k in records && k != (userId, month) ==> k in after && after[k] == records[k])
  {
    var info := UsageOf(users, records, userId, month);
    var looked := AfterLookup(users, records, userId, month);
    LookupCreatesLazily(users, records, userId, month);
    assert Processed(looked, userId, month) == Processed(records, userId, month);
    if info.CanProcess() {
      assert userId in users;
      assert (userId, month) in looked;
    }
  }

  /** A missing user is refused and nothing is stored for it. */
  lemma MissingUserNotCounted(users: map<string, Option<string>>, records: Records, userId: string, month: string)
    requires userId !in users
    ensures IncrementOf(users, records, userId, month) == Refused(LimitReachedMessage, UserNotFound)
    ensures AfterIncrement(users, records, userId, month) == records
  {
  }

  const FreeLimitPrefix := "Limite gratuite atteinte ("
  const FreeLimitSuffix := " vid\U{E9}os/mois). Passez \U{E0} Pro pour un acc\U{E8}s illimit\U{E9} !"
  const PaidLimitMessage := "Limite d'usage atteinte pour ce mois"

  /** `check_can_process_video` on a usage summary. */
  function CheckOf(info: UsageInfo): (r: (bool, Option<string>))
    ensures r.0 <==> info.CanProcess()
    ensures r.0 <==> r.1.None?
    ensures info.UserNotFound? ==> r.1 == Some("User not found")
    ensures info.Info? && !info.canProcess && info.plan == "FREE" ==>
              r.1 == Some(FreeLimitPrefix + IntStr(info.limit) + FreeLimitSuffix)
    ensures info.Info? && !info.canProcess && info.plan != "FREE" ==> r.1 == Some(PaidLimitMessage)
  {
    if info.Error().Some? then (false, info.Error())
    else if !info.CanProcess() then
      if info.plan == "FREE" then (false, Some(FreeLimitPrefix + IntStr(info.limit) + FreeLimitSuffix))
      else (false, Some(PaidLimitMessage))
    else (true, None)
  }

  /** A FREE user over the limit reads the message with the limit 3 in it. */
  lemma FreeRefusalNamesThree(processed: int, month: string)
    requires processed >= FreeLimit
    ensures CheckOf(Summary("FREE", processed, month)) == (false, Some(FreeLimitPrefix + "3" + FreeLimitSuffix))
  {
    assert IntStr(3) == "3";
  }

  /** The usage table: the user plans are read, the records are written. */
  class UsageTable {
    const users: map<string, Option<string>>
    var records: Records

    constructor(users0: map<string, Option<string>>, records0: Records)
      ensures users == users0 && records == records0
    {
      users := users0;
      records := records0;
    }

    /** `get_user_usage` for the given month. */
    method GetUserUsage(userId: string, month: string) returns (info: UsageInfo)
      modifies this
      ensures info == UsageOf(users, old(records), userId, month)
      ensures records == AfterLookup(users, old(records), userId, month)
    {
      var key := (userId, month);
      var usage: Option<UsageRecord> := if key in records then Some(records[key]) else None;
      if userId !in users {
        return UserNotFound;
      }
      var plan := PlanName(users[userId]);
      var limit := LimitFor(plan);
      if usage.None? {
        var created := UsageRecord(0, limit);
        records := records[key := created];
        usage := Some(created);
      }
      var processed := usage.value.videosProcessed;
      var remaining := if limit > 0 then limit - processed else -1;
      var canProcess := limit == -1 || processed < limit;
      info := Info(plan, processed, limit, remaining, canProcess, month, limit == -1);
    }

    /** `increment_usage` for the given month. */
    method IncrementUsage(userId: string, month: string) returns (r: IncrementResult)
      modifies this
      ensures r == IncrementOf(users, old(records), userId, month)
      ensures records == AfterIncrement(users, old(records), userId, month)
    {
      var usageInfo := GetUserUsage(userId, month);
      if !usageInfo.CanProcess() {
        return Refused(LimitReachedMessage, usageInfo);
      }
      var key := (userId, month);
      if key in records {
        records := records[key := records[key].(videosProcessed := records[key].videosProcessed + 1)];
      } else {
        records := records[key := UsageRecord(1, usageInfo.limit)];
      }
      var updated := GetUserUsage(userId, month);
      r := Incremented(updated);
    }

    /** `check_can_process_video` for the given month. */
    method CheckCanProcessVideo(userId: string, month: string) returns (ok: bool, error: Option<string>)
      modifies this
      ensures (ok, error) == CheckOf(UsageOf(users, old(records), userId, month))
      ensures records == AfterLookup(users, old(records), userId, month)
    {
      var usageInfo := GetUserUsage(userId, month);
      if usageInfo.Error().Some? {
        return false, usageInfo.Error();
      }
      if !usageInfo.CanProcess() {
        if usageInfo.plan == "FREE" {
          return false, Some(FreeLimitPrefix + IntStr(usageInfo.limit) + FreeLimitSuffix);
        } else {
          return false, Some(PaidLimitMessage);
        }
      }
      return true, None;
    }
  }
}
