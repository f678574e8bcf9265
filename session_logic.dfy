/**
 * The session lifecycle of session.js as pure functions over a snapshot of the
 * shared store and the two in-memory fields. Each function returns the new
 * snapshot together with the effects the source performs: the `ident` and
 * `logout` requests, timers that re-enter `evaluate`, the `onEstablished`
 * notification and the navigation back to a saved sign-in location.
 */
module SessionLogic {
  import opened Values
  import opened KeyValueStore

  /** Default session timeout in milliseconds. */
  const DefaultTimeout := 180000

  /** Delay before retrying `evaluate` while another tab holds the lock. */
  const LockBackoff := 100

  datatype Effect =
    | RequestIdent
    | RequestLogout
    | ScheduleEvaluate(delay: int)
    | Established(username: Value)
    | Navigate(location: Value)

  /** The shared store and the session's own `timestamp` and `username` fields. */
  datatype State = State(store: map<string, Value>, timestamp: Value, username: Value)

  datatype Outcome = Outcome(state: State, effects: seq<Effect>)

  /** The page address ends in the `#auth` fragment the server appends to a fresh login. */
  predicate HasAuthFragment(href: string)
  {
    |href| >= 5 && href[|href| - 5..] == "#auth"
  }

  /** `getValue('session-established', false) === true` */
  predicate IsEstablished(m: map<string, Value>)
  {
    Lookup(m, EstablishedKey, Boolean(false)) == Boolean(true)
  }

  /** `getValue('session-locked', false) === true` */
  predicate IsLocked(m: map<string, Value>)
  {
    Lookup(m, LockedKey, Boolean(false)) == Boolean(true)
  }

  /** `now - getValue('session-timestamp', 0) > timeout` */
  predicate IsExpired(m: map<string, Value>, now: int, timeout: int)
  {
    Exceeds(Minus(now, Lookup(m, TimestampKey, Number(0))), timeout)
  }

  /**
   * When a page reached through a fresh login goes back to where sign-in began:
   * the session has a user, the address ends in `#auth`, a sign-in time is saved
   * and is less than `timeout` old, and a non-empty location is saved.
   */
  predicate ResumesNavigation(timeout: int, m: map<string, Value>, username: Value, now: int, href: string)
  {
    && username != Undefined
    && HasAuthFragment(href)
    && SigninTimestampKey in m
    && ToNumber(m[SigninTimestampKey]).Some?
    && now - ToNumber(m[SigninTimestampKey]).value < timeout
    && SigninLocationKey in m
    && Truthy(m[SigninLocationKey])
  }

  /** `flushStore`: reset the record, keeping the sign-in intent. */
  function Flush(m: map<string, Value>): (r: map<string, Value>)
    ensures TimestampKey in r && r[TimestampKey] == Number(0)
    ensures LockedKey in r && r[LockedKey] == Boolean(false)
    ensures EstablishedKey in r && r[EstablishedKey] == Boolean(false)
    ensures UsernameKey !in r
    ensures !IsEstablished(r) && !IsLocked(r)
    ensures r - LifecycleKeys == m - LifecycleKeys
  {
    m[TimestampKey := Number(0)][LockedKey := Boolean(false)][EstablishedKey := Boolean(false)] - {UsernameKey}
  }

  /** `loadFromServer`: back off while locked, otherwise ask the server. */
  function LoadFromServer(m: map<string, Value>): (effects: seq<Effect>)
    ensures |effects| == 1
    ensures RequestIdent in effects <==> !IsLocked(m)
    ensures IsLocked(m) ==> effects[0] == ScheduleEvaluate(LockBackoff)
  {
    if Lookup(m, LockedKey, Boolean(false)) == Boolean(true) then
      [ScheduleEvaluate(LockBackoff)]
    else
      [RequestIdent]
  }

  /** `onEstablished`: notify, then possibly return to the saved sign-in location. */
  function OnEstablished(timeout: int, m: map<string, Value>, username: Value, now: int, href: string): (effects: seq<Effect>)
    ensures 1 <= |effects| <= 2 && effects[0] == Established(username)
    ensures |effects| == 2 <==> ResumesNavigation(timeout, m, username, now, href)
    ensures |effects| == 2 ==> effects[1] == Navigate(m[SigninLocationKey])
  {
    if username == Undefined then
      [Established(username)]
    else if HasAuthFragment(href)
         && Below(Minus(now, Lookup(m, SigninTimestampKey, Undefined)), timeout)
         && Truthy(Lookup(m, SigninLocationKey, Boolean(false)))
    then
      [Established(username), Navigate(Lookup(m, SigninLocationKey, Undefined))]
    else
      [Established(username)]
  }

  /** `evaluate`: trust the cache, or flush and ask the server, or ask the server. */
  function Evaluate(timeout: int, st: State, now: int, href: string): (o: Outcome)
    // a fresh login always flushes and then asks the server exactly once
    ensures HasAuthFragment(href) ==>
      o == Outcome(st.(store := Flush(st.store)), [RequestIdent])
    // an expired record is flushed and revalidated; the flush also clears any lock
    ensures !HasAuthFragment(href) && IsEstablished(st.store) && IsExpired(st.store, now, timeout) ==>
      o == Outcome(st.(store := Flush(st.store)), [RequestIdent])
    // a record still within the timeout is served from the cache: no request,
    // the fields take the stored values, one re-evaluation after `timeout`
    ensures !HasAuthFragment(href) && IsEstablished(st.store) && !IsExpired(st.store, now, timeout) ==>
      && o.state == State(st.store, Lookup(st.store, TimestampKey, Number(0)), Lookup(st.store, UsernameKey, Undefined))
      && o.effects == [Established(o.state.username), ScheduleEvaluate(timeout)]
    // an unestablished record goes to the server without a flush, honouring the lock
    ensures !HasAuthFragment(href) && !IsEstablished(st.store) ==>
      && o.state == st
      && o.effects == (if IsLocked(st.store) then [ScheduleEvaluate(LockBackoff)] else [RequestIdent])
    ensures RequestIdent in o.effects ==> o.effects == [RequestIdent]
    ensures o.state.store == st.store || o.state.store == Flush(st.store)
  {
    if HasAuthFragment(href) then
      var flushed := Flush(st.store);
      Outcome(st.(store := flushed), LoadFromServer(flushed))
    else if Lookup(st.store, EstablishedKey, Boolean(false)) == Boolean(true) then
      if Exceeds(Minus(now, Lookup(st.store, TimestampKey, Number(0))), timeout) then
        var flushed := Flush(st.store);
        Outcome(st.(store := flushed), LoadFromServer(flushed))
      else
        var cached := st.(timestamp := Lookup(st.store, TimestampKey, Number(0)),
                          username := Lookup(st.store, UsernameKey, Undefined));
        Outcome(cached, OnEstablished(timeout, cached.store, cached.username, now, href) + [ScheduleEvaluate(timeout)])
    else
      Outcome(st, LoadFromServer(st.store))
  }

  /** The `onSuccess` handler of the `ident` request, `user` being `response.username`. */
  function OnIdentSuccess(timeout: int, st: State, now: int, href: string, user: Value): (o: Outcome)
    ensures o.state.store - LifecycleKeys == st.store - LifecycleKeys
    ensures EstablishedKey in o.state.store && o.state.store[EstablishedKey] == Boolean(true)
    ensures LockedKey in o.state.store && o.state.store[LockedKey] == Boolean(false)
    ensures TimestampKey in o.state.store && o.state.store[TimestampKey] == Number(now)
    ensures UsernameKey in o.state.store && o.state.store[UsernameKey] == user
    ensures o.state.timestamp == Number(now) && o.state.username == user
    ensures o.effects ==
      [Established(user)]
      + (if ResumesNavigation(timeout, st.store, user, now, href) then [Navigate(st.store[SigninLocationKey])] else [])
      + [ScheduleEvaluate(timeout)]
  {
    var m := st.store[TimestampKey := Number(now)][UsernameKey := user]
                     [EstablishedKey := Boolean(true)][LockedKey := Boolean(false)];
    Outcome(State(m, Number(now), user), OnEstablished(timeout, m, user, now, href) + [ScheduleEvaluate(timeout)])
  }

  /** The `onFailure` handler of the `ident` request: an unauthenticated but established record. */
  function OnIdentFailure(timeout: int, st: State, now: int, href: string): (o: Outcome)
    ensures o.state.store - LifecycleKeys == st.store - LifecycleKeys
    ensures EstablishedKey in o.state.store && o.state.store[EstablishedKey] == Boolean(true)
    ensures LockedKey in o.state.store && o.state.store[LockedKey] == Boolean(false)
    ensures TimestampKey in o.state.store && o.state.store[TimestampKey] == Number(now)
    ensures (UsernameKey in o.state.store <==> UsernameKey in st.store)
    ensures UsernameKey in st.store ==> o.state.store[UsernameKey] == st.store[UsernameKey]
    ensures o.state.timestamp == Number(now) && o.state.username == Undefined
    ensures o.effects == [Established(Undefined), ScheduleEvaluate(timeout)]
  {
    var m := st.store[TimestampKey := Number(now)][EstablishedKey := Boolean(true)][LockedKey := Boolean(false)];
    Outcome(State(m, Number(now), Undefined), OnEstablished(timeout, m, Undefined, now, href) + [ScheduleEvaluate(timeout)])
  }

  /** The sign-in click: save the current address and the in-memory timestamp. */
  function SignInClick(st: State, href: string): (r: State)
    ensures r.store - IntentKeys == st.store - IntentKeys
    ensures SigninLocationKey in r.store && r.store[SigninLocationKey] == Text(href)
    ensures SigninTimestampKey in r.store && r.store[SigninTimestampKey] == st.timestamp
    ensures r.timestamp == st.timestamp && r.username == st.username
  {
    st.(store := st.store[SigninLocationKey := Text(href)][SigninTimestampKey := st.timestamp])
  }

  lemma FlushIdempotent(m: map<string, Value>)
    ensures Flush(Flush(m)) == Flush(m)
  {
  }

  /** `reevaluate`: a flush followed by `evaluate`. */
  function Reevaluate(timeout: int, st: State, now: int, href: string): (o: Outcome)
    // whatever the record held, the result is a flushed store and exactly one request
    ensures o == Outcome(st.(store := Flush(st.store)), [RequestIdent])
  {
    FlushIdempotent(st.store);
    Evaluate(timeout, st.(store := Flush(st.store)), now, href)
  }
}
