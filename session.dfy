/**
 * The `ClientSideUserSession` object: its configuration checks, its two
 * in-memory fields and the methods that read and write the shared store.
 * Every method is proved to leave the object and the store exactly as the
 * matching function of `SessionLogic` says, and to return its effects.
 */
module Session {
  import opened Values
  import opened KeyValueStore
  import opened SessionLogic

  datatype ConfigError = UrlUndefined | StoreUndefined | AjaxUndefined | OpenIdUndefined

  datatype Result<T> = Success(value: T) | Failure(error: ConfigError)

  /**
   * The constructor's options. The transport and the OpenID settings are
   * reduced to whether they were given: `renderOpenId` reads
   * `this.openid.provider`, which throws when no `openid` object was passed.
   */
  datatype Options = Options(url: Value, store: Option<Store>, ajax: bool, openid: bool, timeout: Option<int>)

  /** The options once checked, with the default timeout filled in. */
  datatype Config = Config(url: Value, store: Store, timeout: int)

  /**
   * Everything that can abort construction, in the order it happens: the three
   * explicit checks, then the `openid.provider` read in `renderOpenId`, which
   * comes after the fields are seeded and before the first `evaluate`.
   */
  function ValidateOptions(options: Options): (r: Result<Config>)
    ensures r.Success? <==> Truthy(options.url) && options.store.Some? && options.ajax && options.openid
    ensures !Truthy(options.url) ==> r == Failure(UrlUndefined)
    ensures Truthy(options.url) && options.store.None? ==> r == Failure(StoreUndefined)
    ensures Truthy(options.url) && options.store.Some? && !options.ajax ==> r == Failure(AjaxUndefined)
    ensures Truthy(options.url) && options.store.Some? && options.ajax && !options.openid ==> r == Failure(OpenIdUndefined)
    ensures r.Success? ==> r.value.store == options.store.value && r.value.url == options.url
    ensures r.Success? && options.timeout.None? ==> r.value.timeout == DefaultTimeout
    ensures r.Success? && options.timeout.Some? ==> r.value.timeout == options.timeout.value
  {
    if !Truthy(options.url) then Failure(UrlUndefined)
    else if options.store.None? then Failure(StoreUndefined)
    else if !options.ajax then Failure(AjaxUndefined)
    else if !options.openid then Failure(OpenIdUndefined)
    else
      var timeout := match options.timeout case Some(t) => t case None => DefaultTimeout;
      Success(Config(options.url, options.store.value, timeout))
  }

  /** The objects `Create` may change: the store, when one was given. */
  function StoreFrame(options: Options): set<object>
  {
    match options.store
    case Some(s) => {s}
    case None => {}
  }

  class ClientSideUserSession {
    const url: Value
    const store: Store
    const timeout: int
    var timestamp: Value
    var username: Value

    /** The store's entries and the two fields, as one value. */
    function Snapshot(): State
      reads this, store
    {
      State(store.entries, timestamp, username)
    }

    /** Copy the checked options and seed the fields from the store. */
    constructor (config: Config)
      ensures url == config.url && store == config.store && timeout == config.timeout
      ensures timestamp == Lookup(store.entries, TimestampKey, Number(0))
      ensures username == Lookup(store.entries, UsernameKey, Undefined)
    {
      url := config.url;
      store := config.store;
      timeout := config.timeout;
      new;
      timestamp := store.GetValue(TimestampKey, Number(0));
      username := store.GetValue(UsernameKey, Undefined);
    }

    /**
     * `new ClientSideUserSession(options)`: fail without writing the store when
     * the url, the store, the transport or the OpenID settings are missing;
     * otherwise construct and run the first `evaluate`.
     */
    static method Create(options: Options, now: int, href: string)
      returns (r: Result<ClientSideUserSession>, effects: seq<Effect>)
      modifies StoreFrame(options)
      ensures ValidateOptions(options).Failure? ==>
        && r == Failure(ValidateOptions(options).error)
        && effects == []
        && unchanged(StoreFrame(options))
      ensures ValidateOptions(options).Success? ==>
        && r.Success? && fresh(r.value)
        && r.value.url == options.url && r.value.store == options.store.value
        && r.value.timeout == ValidateOptions(options).value.timeout
        && var m := old(options.store.value.entries);
           Outcome(r.value.Snapshot(), effects)
             == SessionLogic.Evaluate(r.value.timeout,
                                      State(m, Lookup(m, TimestampKey, Number(0)), Lookup(m, UsernameKey, Undefined)),
                                      now, href)
    {
      var checked := ValidateOptions(options);
      if checked.Failure? {
        return Failure(checked.error), [];
      }
      var session := new ClientSideUserSession(checked.value);
      effects := session.Evaluate(now, href);
      r := Success(session);
    }

    method Evaluate(now: int, href: string) returns (effects: seq<Effect>)
      modifies this, store
      ensures Outcome(Snapshot(), effects) == SessionLogic.Evaluate(timeout, old(Snapshot()), now, href)
    {
      if HasAuthFragment(href) {
        FlushStore();
        effects := LoadFromServer();
      } else {
        var established := store.GetValue(EstablishedKey, Boolean(false));
        if established == Boolean(true) {
          var stored := store.GetValue(TimestampKey, Number(0));
          if Exceeds(Minus(now, stored), timeout) {
            FlushStore();
            effects := LoadFromServer();
          } else {
            timestamp := store.GetValue(TimestampKey, Number(0));
            username := store.GetValue(UsernameKey, Undefined);
            effects := OnEstablished(now, href);
            effects := effects + [ScheduleEvaluate(timeout)];
          }
        } else {
          effects := LoadFromServer();
        }
      }
    }

    method FlushStore()
      modifies store
      ensures store.entries == Flush(old(store.entries))
    {
      store.SetValue(TimestampKey, Number(0));
      store.SetValue(LockedKey, Boolean(false));
      store.SetValue(EstablishedKey, Boolean(false));
      store.DeleteValue(UsernameKey);
    }

    /** Check the lock; the request's completion arrives as `OnIdentSuccess` or `OnIdentFailure`. */
    method LoadFromServer() returns (effects: seq<Effect>)
      ensures effects == SessionLogic.LoadFromServer(store.entries)
    {
      var locked := store.GetValue(LockedKey, Boolean(false));
      if locked == Boolean(true) {
        return [ScheduleEvaluate(LockBackoff)];
      }
      effects := [RequestIdent];
    }

    method OnIdentSuccess(now: int, href: string, user: Value) returns (effects: seq<Effect>)
      modifies this, store
      ensures Outcome(Snapshot(), effects) == SessionLogic.OnIdentSuccess(timeout, old(Snapshot()), now, href, user)
    {
      store.SetValue(TimestampKey, Number(now));
      timestamp := Number(now);
      store.SetValue(UsernameKey, user);
      username := user;
      store.SetValue(EstablishedKey, Boolean(true));
      store.SetValue(LockedKey, Boolean(false));
      effects := OnEstablished(now, href);
      effects := effects + [ScheduleEvaluate(timeout)];
    }

    method OnIdentFailure(now: int, href: string) returns (effects: seq<Effect>)
      modifies this, store
      ensures Outcome(Snapshot(), effects) == SessionLogic.OnIdentFailure(timeout, old(Snapshot()), now, href)
    {
      username := Undefined;
      store.SetValue(TimestampKey, Number(now));
      timestamp := Number(now);
      store.SetValue(EstablishedKey, Boolean(true));
      store.SetValue(LockedKey, Boolean(false));
      effects := OnEstablished(now, href);
      effects := effects + [ScheduleEvaluate(timeout)];
    }

    method OnEstablished(now: int, href: string) returns (effects: seq<Effect>)
      ensures effects == SessionLogic.OnEstablished(timeout, store.entries, username, now, href)
    {
      effects := [Established(username)];
      if username != Undefined && HasAuthFragment(href) {
        var signedInAt := store.GetValue(SigninTimestampKey, Undefined);
        var saved := store.GetValue(SigninLocationKey, Boolean(false));
        if Below(Minus(now, signedInAt), timeout) && Truthy(saved) {
          var location := store.GetValue(SigninLocationKey, Undefined);
          effects := effects + [Navigate(location)];
        }
      }
    }

    method SignInClick(href: string)
      modifies store
      ensures Snapshot() == SessionLogic.SignInClick(old(Snapshot()), href)
    {
      store.SetValue(SigninLocationKey, Text(href));
      store.SetValue(SigninTimestampKey, timestamp);
    }

    /** The logout click only sends the request; nothing changes until it succeeds. */
    method LogoutClick() returns (effects: seq<Effect>)
      ensures effects == [RequestLogout]
    {
      effects := [RequestLogout];
    }

    method OnLogoutSuccess(now: int, href: string) returns (effects: seq<Effect>)
      modifies this, store
      ensures Outcome(Snapshot(), effects) == SessionLogic.Reevaluate(timeout, old(Snapshot()), now, href)
    {
      effects := Reevaluate(now, href);
    }

    method Reevaluate(now: int, href: string) returns (effects: seq<Effect>)
      modifies this, store
      ensures Outcome(Snapshot(), effects) == SessionLogic.Reevaluate(timeout, old(Snapshot()), now, href)
    {
      FlushStore();
      effects := Evaluate(now, href);
    }
  }
}
