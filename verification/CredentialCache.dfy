/** One cached credentials provider: the entry it stores, the two checks that read it,
    and the refresh that overwrites it (src/aws_auth/cache.rs).

    Times are nanoseconds since the epoch, so `validity / 2` is floor division. What a
    call learns from outside (clock readings, the inner provider's answer, what other
    tasks left in the cell while the call held no guard) is a parameter. */
module CredentialCache {
  import opened Wrappers

  type Time = nat

  /** An identity: the default one, or an assumed role. */
  type Key = Option<string>

  datatype Credentials = Credentials(accessKey: string, expiry: Option<Time>)

  datatype CachedEntry = CachedEntry(credentials: Credentials, refreshAt: Option<Time>, expiresAt: Option<Time>)

  type Cell = Option<CachedEntry>

  type ProviderResult = Result<Credentials, string>

  /** Whether a time limit, if there is one, still lies ahead of `now`. */
  predicate Before(now: Time, limit: Option<Time>) {
    limit.None? || now < limit.value
  }

  /** What is left of a validity window; zero once the window has closed. */
  function Remaining(expiry: Time, now: Time): nat {
    if now <= expiry then expiry - now else 0
  }

  function RefreshTime(c: Credentials, now: Time): Option<Time> {
    match c.expiry
    case None => None
    case Some(expiry) => Some(now + Remaining(expiry, now) / 2)
  }

  function NewEntry(c: Credentials, now: Time): CachedEntry {
    CachedEntry(c, RefreshTime(c, now), c.expiry)
  }

  /** The check made under either guard: the credentials to return, if the entry needs no refresh. */
  function Lookup(cell: Cell, now: Time): Option<Credentials> {
    match cell
    case None => None
    case Some(entry) => if Before(now, entry.refreshAt) then Some(entry.credentials) else None
  }

  /** The answer to a failed fetch: the old credentials while they last, the error after that. */
  function Fallback(cell: Cell, now: Time, error: string): ProviderResult {
    match cell
    case None => Failure(error)
    case Some(entry) => if Before(now, entry.expiresAt) then Success(entry.credentials) else Failure(error)
  }

  /** What one call learns from outside: two clock readings, the inner provider's answer, and
      the clock when it came. */
  datatype Observation = Observation(first: Time, second: Time, fetched: ProviderResult, done: Time)

  /** The answer of a call nobody interferes with. */
  function AnswerAlone(cell: Cell, seen: Observation): ProviderResult {
    if Lookup(cell, seen.first).Some? then Success(cell.value.credentials)
    else if Lookup(cell, seen.second).Some? then Success(cell.value.credentials)
    else if seen.fetched.Success? then seen.fetched
    else Fallback(cell, seen.second, seen.fetched.error)
  }

  /** The cell such a call leaves: a fetch that it needed and that succeeded is installed when it came back. */
  function CellAlone(cell: Cell, seen: Observation): Cell {
    if Lookup(cell, seen.first).Some? || Lookup(cell, seen.second).Some? || seen.fetched.Failure? then cell
    else Some(NewEntry(seen.fetched.value, seen.done))
  }

  class RefreshingCredentials {
    const name: string
    var cache: Cell

    constructor (name: string)
      ensures this.name == name && cache == None
    {
      this.name := name;
      cache := None;
    }

    /** The first check, under the read guard. It changes nothing. */
    method CheckCached(now: Time) returns (hit: Option<Credentials>)
      ensures hit.Some? <==> cache.Some? && (cache.value.refreshAt.None? || now < cache.value.refreshAt.value)
      ensures hit.Some? ==> hit.value == cache.value.credentials
      ensures hit == Lookup(cache, now)
    {
      if cache.Some? {
        var entry := cache.value;
        if entry.refreshAt.None? || now < entry.refreshAt.value {
          return Some(entry.credentials);
        }
      }
      return None;
    }

    /** Everything done under the write guard. `fetched` is the inner provider's answer and
        `done` the clock when it arrived; both matter only when the inner provider is asked. */
    method Refresh(now: Time, fetched: ProviderResult, done: Time) returns (result: ProviderResult, asked: bool)
      modifies this`cache
      ensures !asked <==>
              && old(cache).Some?
              && (old(cache).value.refreshAt.None? || now < old(cache).value.refreshAt.value)
      ensures !asked ==> cache == old(cache) && result == Success(old(cache).value.credentials)
      ensures asked && fetched.Success? ==> cache == Some(NewEntry(fetched.value, done)) && result == fetched
      ensures asked && fetched.Failure? ==>
                && cache == old(cache)
                && result ==
                   if && old(cache).Some?
                      && (old(cache).value.expiresAt.None? || now < old(cache).value.expiresAt.value)
                   then Success(old(cache).value.credentials)
                   else fetched
    {
      if cache.Some? {
        var entry := cache.value;
        if entry.refreshAt.None? || now < entry.refreshAt.value {
          return Success(entry.credentials), false;
        }
      }
      match fetched
      case Success(credentials) =>
        var expiresAt := credentials.expiry;
        var refreshAt := None;
        if expiresAt.Some? {
          var validity := if done <= expiresAt.value then expiresAt.value - done else 0;
          refreshAt := Some(done + validity / 2);
        }
        cache := Some(CachedEntry(credentials, refreshAt, expiresAt));
        return Success(credentials), true;
      case Failure(error) =>
        if cache.Some? {
          var entry := cache.value;
          if entry.expiresAt.None? || now < entry.expiresAt.value {
            return Success(entry.credentials), true;
          }
        }
        return Failure(error), true;
    }

    /** A whole call. `others` is what the other tasks left in the cell between the release
        of the read guard and the grant of the write guard. */
    method GetOrRefresh(first: Time, others: Cell, second: Time, fetched: ProviderResult, done: Time)
      returns (result: ProviderResult, asked: bool)
      modifies this`cache
      ensures Lookup(old(cache), first).Some? ==>
                !asked && cache == old(cache) && result == Success(Lookup(old(cache), first).value)
      ensures Lookup(old(cache), first).None? ==>
                && (asked <==> Lookup(others, second).None?)
                && cache == (if asked && fetched.Success? then Some(NewEntry(fetched.value, done)) else others)
                && result == (if !asked then Success(Lookup(others, second).value)
                              else if fetched.Success? then fetched
                              else Fallback(others, second, fetched.error))
    {
      var hit := CheckCached(first);
      if hit.Some? {
        return Success(hit.value), false;
      }
      cache := others;
      result, asked := Refresh(second, fetched, done);
    }

    /** A whole call that nobody interferes with. */
    method CallAlone(seen: Observation) returns (result: ProviderResult, asked: bool)
      modifies this`cache
      ensures result == AnswerAlone(old(cache), seen) && cache == CellAlone(old(cache), seen)
      ensures old(cache) == None ==> asked
    {
      result, asked := GetOrRefresh(seen.first, cache, seen.second, seen.fetched, seen.done);
    }
  }

  /** The refresh time of a live credential is the floored middle of its window, strictly
      inside it; an expired one is due for refresh at once. */
  lemma RefreshTimeIsMidpoint(c: Credentials, now: Time)
    requires c.expiry.Some?
    ensures RefreshTime(c, now).Some?
    ensures now < c.expiry.value ==>
              && RefreshTime(c, now).value == (now + c.expiry.value) / 2
              && now <= RefreshTime(c, now).value < c.expiry.value
    ensures c.expiry.value <= now ==> RefreshTime(c, now).value == now
  {
    if now < c.expiry.value {
      var half := (c.expiry.value - now) / 2;
      assert now + c.expiry.value == 2 * now + (c.expiry.value - now);
      assert (2 * now + (c.expiry.value - now)) / 2 == now + half;
    }
  }

  /** Strictly before the middle of the window that credentials had when they were installed; at any
      time if they do not expire. */
  predicate FreshAt(c: Credentials, installed: Time, now: Time) {
    match c.expiry
    case None => true
    case Some(expiry) => now < installed + (if installed < expiry then (expiry - installed) / 2 else 0)
  }

  predicate LiveAt(c: Credentials, now: Time) {
    match c.expiry
    case None => true
    case Some(expiry) => now < expiry
  }

  /** An installed entry is hit exactly in the first half of its window, and stands in for a failed
      fetch exactly until it expires. */
  lemma HitExactly(c: Credentials, installed: Time, now: Time, error: string)
    ensures Lookup(Some(NewEntry(c, installed)), now) == (if FreshAt(c, installed, now) then Some(c) else None)
    ensures Fallback(Some(NewEntry(c, installed)), now, error) ==
            (if LiveAt(c, now) then Success(c) else Failure(error))
    ensures Lookup(None, now) == None && Fallback(None, now, error) == Failure(error)
  {
  }

  /** A reading taken at or after the install that passes the check finds live credentials,
      whatever they were when they were fetched. This is the check under the write guard. */
  lemma LateHitIsLive(c: Credentials, installed: Time, now: Time)
    requires installed <= now
    requires Lookup(Some(NewEntry(c, installed)), now).Some?
    ensures Before(now, c.expiry)
  {
    if c.expiry.Some? {
      RefreshTimeIsMidpoint(c, installed);
    }
  }

  /** The first check uses a reading taken before the guard was granted, so it may predate the
      install. Every such hit is live exactly when the credentials did not come back from the
      inner provider with an expiry already in the past. */
  lemma EveryHitIsLive(c: Credentials, installed: Time)
    ensures (forall now: Time :: Lookup(Some(NewEntry(c, installed)), now).Some? ==> Before(now, c.expiry))
       <==> c.expiry.None? || installed <= c.expiry.value
  {
    var cell := Some(NewEntry(c, installed));
    if c.expiry.Some? {
      RefreshTimeIsMidpoint(c, installed);
      if c.expiry.value < installed {
        assert Lookup(cell, c.expiry.value).Some? && !Before(c.expiry.value, c.expiry);
      }
    }
  }
}
