/**
 * `AuthService` (src/app/core/auth/auth.service.ts): the local session, kept
 * in `localStorage` and announced to other tabs on the `auth` channel; any
 * session or tenant change empties the cache store.
 *
 * `localStorage` is the `storage` map; `JSON.stringify` and `JSON.parse` of a
 * session are the parameters `stringify` and `parse` (`None` when the text
 * does not parse); `Date.now()` is `now`. The `storage` event of another
 * tab and a message on the `auth` channel carry a tag (the event's key, the
 * message's `type`), handed to `OnSignal`.
 */
module Auth {
  import opened Wrappers
  import opened Strings
  import CacheStore

  const SESSION_KEY: string := "session"
  const BROADCAST_LOGOUT: string := "logout"
  const BROADCAST_TENANT: string := "tenant-change"
  /** The reason `clearCaches` gives to `clearAll`. */
  const CLEAR_REASON: string := "auth-change"

  datatype Session = Session(email: string, tenant: string, token: Option<string>, createdAt: int)

  /** A message posted on the `auth` channel. */
  datatype AuthMessage = LogoutMessage | TenantMessage(tenant: string)

  /** `localStorage.getItem(key)`. */
  function Stored(storage: map<string, string>, key: string): (r: Option<string>)
    ensures r.Some? <==> key in storage
    ensures r.Some? ==> r.value == storage[key]
  {
    if key in storage then Some(storage[key]) else None
  }

  /** `restore()`: no session when nothing (or an empty text) is stored, or when it does not parse. */
  function Restore(stored: Option<string>, parse: string -> Option<Session>): (r: Option<Session>)
    ensures stored.None? || stored.value == "" ==> r.None?
    ensures stored.Some? && stored.value != "" ==> r == parse(stored.value)
  {
    if stored.None? || stored.value == "" then None else parse(stored.value)
  }

  /** The session `login` creates: the password plays no part in it. */
  function LoginSession(email: string, tenant: string, now: int): (s: Session)
    ensures s.email == email && s.tenant == tenant && s.token.None? && s.createdAt == now
  {
    Session(email, tenant, None, now)
  }

  /** The session after `switchTenant(tenant)`: none stays none; otherwise only the tenant changes. */
  function SwitchedSession(current: Option<Session>, tenant: string): (r: Option<Session>)
    ensures r.None? <==> current.None?
    ensures r.Some? ==> (r.value.tenant == tenant && r.value.email == current.value.email
                         && r.value.token == current.value.token && r.value.createdAt == current.value.createdAt)
  {
    if current.None? then None else Some(current.value.(tenant := tenant))
  }

  /** The message a tab posts, when it has a channel. */
  function Announced(channel: bool, m: AuthMessage): (r: seq<AuthMessage>)
    ensures r == [m] <==> channel
    ensures !channel ==> r == []
  {
    if channel then [m] else []
  }

  /** Whatever session was logged in, a reload after it restores exactly that session, provided JSON round-trips. */
  lemma LoginIsRestored(storage: map<string, string>, email: string, tenant: string, now: int,
                        stringify: Session -> string, parse: string -> Option<Session>)
    requires forall s :: parse(stringify(s)) == Some(s)
    requires stringify(LoginSession(email, tenant, now)) != ""
    ensures var st := storage[SESSION_KEY := stringify(LoginSession(email, tenant, now))];
      Restore(Stored(st, SESSION_KEY), parse) == Some(LoginSession(email, tenant, now))
  {
  }

  /** After a logout, a reload finds no session. */
  lemma LogoutIsRestored(storage: map<string, string>, stamp: string, parse: string -> Option<Session>)
    ensures var st := (storage - {SESSION_KEY})[BROADCAST_LOGOUT := stamp];
      Restore(Stored(st, SESSION_KEY), parse).None?
  {
  }

  class AuthService {
    var session: Option<Session>
    var storage: map<string, string>
    /** Messages posted on the `auth` channel, oldest first. */
    var outbox: seq<AuthMessage>
    /** Whether `BroadcastChannel` exists in the window. */
    const channel: bool
    const cache: CacheStore.Store

    /** The service restores its session from storage when it is created. */
    constructor (cache: CacheStore.Store, storage: map<string, string>, channel: bool, parse: string -> Option<Session>)
      ensures session == Restore(Stored(storage, SESSION_KEY), parse)
      ensures this.storage == storage && outbox == [] && this.channel == channel && this.cache == cache
    {
      this.cache := cache;
      this.storage := storage;
      this.channel := channel;
      outbox := [];
      session := Restore(Stored(storage, SESSION_KEY), parse);
    }

    /** `isAuthenticated()`. */
    method IsAuthenticated() returns (b: bool)
      ensures b <==> session.Some?
    {
      b := session.Some?;
    }

    /** `login(email, password, tenant)`: any credentials are accepted. */
    method Login(email: string, password: string, tenant: string, now: int, stringify: Session -> string)
      modifies this
      ensures session == Some(LoginSession(email, tenant, now))
      ensures storage == old(storage)[SESSION_KEY := stringify(LoginSession(email, tenant, now))]
      ensures outbox == old(outbox) + Announced(channel, TenantMessage(tenant))
    {
      var sess := Session(email, tenant, None, now);
      session := Some(sess);
      storage := storage[SESSION_KEY := stringify(sess)];
      if channel {
        outbox := outbox + [TenantMessage(tenant)];
      }
    }

    /** `clearCaches()`: `clearAll('auth-change')`, which broadcasts on the cache channel. */
    method ClearCaches()
      modifies cache
      ensures cache.State() == CacheStore.Empty
      ensures cache.outbox == old(cache.outbox) + CacheStore.Posted(cache.channel, true, CacheStore.ClearMsg(Some(CLEAR_REASON)))
    {
      cache.ClearAll(Some(CLEAR_REASON), true);
    }

    /** `logout()`: no session, an empty cache, and the news left in storage and on the channel. */
    method Logout(now: nat)
      modifies this, cache
      ensures session.None?
      ensures cache.State() == CacheStore.Empty
      ensures cache.outbox == old(cache.outbox) + CacheStore.Posted(cache.channel, true, CacheStore.ClearMsg(Some(CLEAR_REASON)))
      ensures storage == (old(storage) - {SESSION_KEY})[BROADCAST_LOGOUT := Decimal(now)]
      ensures outbox == old(outbox) + Announced(channel, LogoutMessage)
    {
      session := None;
      storage := storage - {SESSION_KEY};
      ClearCaches();
      storage := storage[BROADCAST_LOGOUT := Decimal(now)];
      if channel {
        outbox := outbox + [LogoutMessage];
      }
    }

    /** `switchTenant(tenant)`: nothing without a session; otherwise the tenant changes and the cache is emptied. */
    method SwitchTenant(tenant: string, stringify: Session -> string)
      modifies this, cache
      ensures session == SwitchedSession(old(session), tenant)
      ensures old(session).None? ==>
        storage == old(storage) && outbox == old(outbox)
        && cache.State() == old(cache.State()) && cache.outbox == old(cache.outbox)
      ensures old(session).Some? ==>
        && storage == old(storage)[SESSION_KEY := stringify(session.value)][BROADCAST_TENANT := tenant]
        && cache.State() == CacheStore.Empty
        && cache.outbox == old(cache.outbox) + CacheStore.Posted(cache.channel, true, CacheStore.ClearMsg(Some(CLEAR_REASON)))
        && outbox == old(outbox) + Announced(channel, TenantMessage(tenant))
    {
      if session.None? {
        return;
      }
      var updated := session.value.(tenant := tenant);
      session := Some(updated);
      storage := storage[SESSION_KEY := stringify(updated)];
      ClearCaches();
      storage := storage[BROADCAST_TENANT := tenant];
      if channel {
        outbox := outbox + [TenantMessage(tenant)];
      }
    }

    /**
     * The `storage` listener (tag: the changed key) and the `auth` channel's
     * `onmessage` (tag: the message's `type`): a logout from another tab ends
     * the session here too, a tenant change only empties the cache.
     */
    method OnSignal(tag: Option<string>)
      modifies this, cache
      ensures storage == old(storage) && outbox == old(outbox)
      ensures tag == Some(BROADCAST_LOGOUT) ==> session.None?
      ensures tag != Some(BROADCAST_LOGOUT) ==> session == old(session)
      ensures tag == Some(BROADCAST_LOGOUT) || tag == Some(BROADCAST_TENANT) ==>
        && cache.State() == CacheStore.Empty
        && cache.outbox == old(cache.outbox) + CacheStore.Posted(cache.channel, true, CacheStore.ClearMsg(Some(CLEAR_REASON)))
      ensures tag != Some(BROADCAST_LOGOUT) && tag != Some(BROADCAST_TENANT) ==>
        cache.State() == old(cache.State()) && cache.outbox == old(cache.outbox)
    {
      if tag == Some(BROADCAST_LOGOUT) {
        ClearCaches();
        session := None;
      }
      if tag == Some(BROADCAST_TENANT) {
        ClearCaches();
      }
    }
  }
}
