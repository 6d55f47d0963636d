/** The account-ID cache of the account helpers: the IDs of the "Goals" and
    "Checking" accounts are kept for five minutes, refreshed on demand, and
    served stale when a refresh fails. The clock (`Date.now()`) and the
    outcome of fetching both accounts are inputs of each call. */
module AccountHelpers {
  import opened Wrappers

  /** Five minutes, in milliseconds. */
  const CacheDuration: int := 5 * 60 * 1000

  datatype AccountIds = AccountIds(goalsId: string, checkingId: string)

  /** The two names `getAccountId` accepts. */
  datatype AccountName = Goals | Checking

  /** Why fetching the accounts failed: an account missing from the table,
      or the request itself failing. */
  datatype FetchError = AccountNotFound(name: string) | RequestFailed(message: string)

  /** The module-level cache: the IDs and the time they were fetched, each
      `null` until the first successful fetch. */
  datatype CacheState = CacheState(ids: Option<AccountIds>, timestamp: Option<int>)

  /** The cache as the module starts, and as `clearAccountCache` leaves it. */
  const Cleared := CacheState(None, None)

  /** The cached IDs may be served without fetching: both are set, the
      timestamp is not 0 (which JavaScript reads as unset), and fewer than
      five minutes have passed. */
  predicate IsFresh(st: CacheState, now: int) {
    st.ids.Some? && st.timestamp.Some? && st.timestamp.value != 0
    && now - st.timestamp.value < CacheDuration
  }

  /** One `getAccountIds` call: the cache afterwards, what the call returns
      (or throws), and whether it went to the network. */
  datatype Lookup = Lookup(state: CacheState, result: Result<AccountIds, FetchError>, fetched: bool)

  function GetIds(st: CacheState, forceRefresh: bool, now: int, fetch: Result<AccountIds, FetchError>): Lookup {
    if !forceRefresh && IsFresh(st, now) then Lookup(st, Success(st.ids.value), false)
    else match fetch
      case Success(ids) => Lookup(CacheState(Some(ids), Some(now)), Success(ids), true)
      case Failure(e) =>
        if st.ids.Some? then Lookup(st, Success(st.ids.value), true)
        else Lookup(st, Failure(e), true)
  }

  /** The ID `getAccountId` picks from the pair. */
  function AccountIdOf(ids: AccountIds, name: AccountName): (id: string)
    ensures name == Goals ==> id == ids.goalsId
    ensures name == Checking ==> id == ids.checkingId
  {
    if name == Goals then ids.goalsId else ids.checkingId
  }

  /** `isValidAccountId`: a string (`None` stands for `undefined`) that starts
      with "rec" and is longer than three characters. */
  function IsValidAccountId(id: Option<string>): bool {
    id.Some? && |id.value| > 3 && id.value[..3] == "rec"
  }

  /** A valid ID is exactly "rec" followed by at least one more character. */
  lemma ValidAccountIdShape(id: string)
    ensures IsValidAccountId(Some(id)) <==> exists suffix: string :: |suffix| > 0 && id == "rec" + suffix
  {
    if IsValidAccountId(Some(id)) {
      var suffix := id[3..];
      assert id == "rec" + suffix;
    }
    if exists suffix: string :: |suffix| > 0 && id == "rec" + suffix {
      var suffix: string :| |suffix| > 0 && id == "rec" + suffix;
      assert id[..3] == "rec";
    }
  }

  /** A fresh cache is served as it is, without going to the network. */
  lemma FreshCacheIsServed(st: CacheState, now: int, fetch: Result<AccountIds, FetchError>)
    requires IsFresh(st, now)
    ensures GetIds(st, false, now, fetch) == Lookup(st, Success(st.ids.value), false)
  {
  }

  /** The cache is only used when it is fresh and the refresh is not forced. */
  lemma FetchesUnlessFresh(st: CacheState, forceRefresh: bool, now: int, fetch: Result<AccountIds, FetchError>)
    ensures GetIds(st, forceRefresh, now, fetch).fetched <==> forceRefresh || !IsFresh(st, now)
  {
  }

  /** A successful fetch replaces both IDs and stamps them with the time of
      the call. */
  lemma SuccessfulFetchIsStored(st: CacheState, forceRefresh: bool, now: int, ids: AccountIds)
    requires forceRefresh || !IsFresh(st, now)
    ensures GetIds(st, forceRefresh, now, Success(ids)) == Lookup(CacheState(Some(ids), Some(now)), Success(ids), true)
  {
  }

  /** A failed fetch leaves the cache alone; the cached IDs are returned when
      there are any, and otherwise the error reaches the caller. */
  lemma FailedFetchFallsBack(st: CacheState, forceRefresh: bool, now: int, e: FetchError)
    requires forceRefresh || !IsFresh(st, now)
    ensures GetIds(st, forceRefresh, now, Failure(e)).state == st
    ensures GetIds(st, forceRefresh, now, Failure(e)).result
         == if st.ids.Some? then Success(st.ids.value) else Failure(e)
  {
  }

  /** After clearing, every call goes to the network, and a failure is
      reported instead of served from the cache. */
  lemma ClearedCacheFetches(forceRefresh: bool, now: int, fetch: Result<AccountIds, FetchError>)
    ensures GetIds(Cleared, forceRefresh, now, fetch).fetched
    ensures fetch.Failure? ==> GetIds(Cleared, forceRefresh, now, fetch).result == Failure(fetch.error)
  {
  }

  /** IDs fetched at time `t` (not 0) are served without fetching by every
      unforced call made before `t` plus five minutes. */
  lemma FetchedIdsServedForFiveMinutes(st: CacheState, forceRefresh: bool, t: int, ids: AccountIds,
                                       now: int, fetch: Result<AccountIds, FetchError>)
    requires forceRefresh || !IsFresh(st, t)
    requires t != 0 && now < t + CacheDuration
    ensures GetIds(GetIds(st, forceRefresh, t, Success(ids)).state, false, now, fetch)
         == Lookup(CacheState(Some(ids), Some(t)), Success(ids), false)
  {
  }

  /** A sequence of calls to the helpers, each with its inputs. */
  datatype CacheCall =
    | GetCall(forceRefresh: bool, now: int, fetch: Result<AccountIds, FetchError>)
    | ClearCall

  /** The cache after a sequence of calls. */
  function RunCalls(st: CacheState, calls: seq<CacheCall>): CacheState
    decreases |calls|
  {
    if |calls| == 0 then st
    else
      var next := match calls[0]
        case GetCall(force, now, fetch) => GetIds(st, force, now, fetch).state
        case ClearCall => Cleared;
      RunCalls(next, calls[1..])
  }

  /** Once IDs are cached, no call short of `clearAccountCache` empties the
      cache again, so every later `getAccountIds` succeeds however the
      network behaves. */
  lemma {:induction false} WarmCacheStaysWarm(st: CacheState, calls: seq<CacheCall>)
    requires st.ids.Some?
    requires forall i :: 0 <= i < |calls| ==> calls[i] != ClearCall
    ensures RunCalls(st, calls).ids.Some?
    ensures forall force, now, fetch :: GetIds(RunCalls(st, calls), force, now, fetch).result.Success?
    decreases |calls|
  {
    if |calls| > 0 {
      var c := calls[0];
      var next := GetIds(st, c.forceRefresh, c.now, c.fetch).state;
      assert next.ids.Some?;
      assert forall i :: 0 <= i < |calls[1..]| ==> calls[1..][i] == calls[i + 1];
      WarmCacheStaysWarm(next, calls[1..]);
    }
  }

  /** The module-level variables `accountIdsCache` and
      `accountsCacheTimestamp`, and the functions that read and write them. */
  class AccountCache {
    var accountIdsCache: Option<AccountIds>
    var accountsCacheTimestamp: Option<int>

    function State(): CacheState
      reads this
    {
      CacheState(accountIdsCache, accountsCacheTimestamp)
    }

    constructor ()
      ensures State() == Cleared
    {
      accountIdsCache := None;
      accountsCacheTimestamp := None;
    }

    /** `getAccountIds(forceRefresh)` at time `now`, where `fetch` is what
        fetching both accounts would give. */
    method GetAccountIds(forceRefresh: bool, now: int, fetch: Result<AccountIds, FetchError>)
      returns (r: Result<AccountIds, FetchError>)
      modifies this
      ensures State() == GetIds(old(State()), forceRefresh, now, fetch).state
      ensures r == GetIds(old(State()), forceRefresh, now, fetch).result
    {
      if !forceRefresh && accountIdsCache.Some? && accountsCacheTimestamp.Some?
        && accountsCacheTimestamp.value != 0 && now - accountsCacheTimestamp.value < CacheDuration
      {
        return Success(accountIdsCache.value);
      }
      match fetch
      case Success(ids) =>
        accountIdsCache := Some(ids);
        accountsCacheTimestamp := Some(now);
        r := Success(ids);
      case Failure(e) =>
        if accountIdsCache.Some? {
          r := Success(accountIdsCache.value);
        } else {
          r := Failure(e);
        }
    }

    /** `getAccountId(name)`: an unforced `getAccountIds`, then the one ID. */
    method GetAccountId(name: AccountName, now: int, fetch: Result<AccountIds, FetchError>)
      returns (r: Result<string, FetchError>)
      modifies this
      ensures State() == GetIds(old(State()), false, now, fetch).state
      ensures var l := GetIds(old(State()), false, now, fetch);
        r == if l.result.Success? then Success(AccountIdOf(l.result.value, name)) else Failure(l.result.error)
    {
      var ids := GetAccountIds(false, now, fetch);
      if ids.Success? {
        r := Success(AccountIdOf(ids.value, name));
      } else {
        r := Failure(ids.error);
      }
    }

    /** `clearAccountCache`. */
    method ClearAccountCache()
      modifies this
      ensures State() == Cleared
    {
      accountIdsCache := None;
      accountsCacheTimestamp := None;
    }

    /** `prefetchAccountIds`: a forced refresh whose failure is only logged. */
    method PrefetchAccountIds(now: int, fetch: Result<AccountIds, FetchError>)
      modifies this
      ensures State() == GetIds(old(State()), true, now, fetch).state
      ensures fetch.Success? ==> State() == CacheState(Some(fetch.value), Some(now))
    {
      var _ := GetAccountIds(true, now, fetch);
    }
  }
}
