/**
 * Runs of one tab's session: any sequence of the events that drive the object
 * (a timer or the constructor calling `evaluate`, the completions of the
 * `ident` request, the sign-in and logout clicks, a successful logout), and
 * the facts that hold along every such run.
 */
module SessionTraces {
  import opened Values
  import opened KeyValueStore
  import opened SessionLogic

  datatype Event =
    | EvaluateFired(now: int, href: string)
    | IdentSucceeded(now: int, href: string, user: Value)
    | IdentFailed(now: int, href: string)
    | SignInClicked(href: string)
    | LogoutClicked
    | LogoutSucceeded(now: int, href: string)

  function Step(timeout: int, st: State, e: Event): Outcome
  {
    match e
    case EvaluateFired(now, href) => Evaluate(timeout, st, now, href)
    case IdentSucceeded(now, href, user) => OnIdentSuccess(timeout, st, now, href, user)
    case IdentFailed(now, href) => OnIdentFailure(timeout, st, now, href)
    case SignInClicked(href) => Outcome(SignInClick(st, href), [])
    case LogoutClicked => Outcome(st, [RequestLogout])
    case LogoutSucceeded(now, href) => Reevaluate(timeout, st, now, href)
  }

  /** The final state of a run and every effect it produced, in order. */
  function Run(timeout: int, st: State, events: seq<Event>): Outcome
    decreases |events|
  {
    if events == [] then Outcome(st, [])
    else
      var first := Step(timeout, st, events[0]);
      var rest := Run(timeout, first.state, events[1..]);
      Outcome(rest.state, first.effects + rest.effects)
  }

  /** An unestablished record carries no identity. */
  predicate NoStaleIdentity(m: map<string, Value>)
  {
    !IsEstablished(m) ==> Lookup(m, UsernameKey, Undefined) == Undefined
  }

  /** The saved sign-in intent, and nothing else of the store. */
  function SignInIntent(m: map<string, Value>): map<string, Value>
  {
    map k | k in m && k in IntentKeys :: m[k]
  }

  lemma StepNeverLocks(timeout: int, st: State, e: Event)
    requires !IsLocked(st.store)
    requires timeout != LockBackoff
    ensures !IsLocked(Step(timeout, st, e).state.store)
    ensures ScheduleEvaluate(LockBackoff) !in Step(timeout, st, e).effects
  {
  }

  /**
   * No transition ever sets the lock: a tab whose store starts unlocked never
   * sees it locked and never takes the 100 ms back-off.
   */
  lemma {:induction false} LockNeverTaken(timeout: int, st: State, events: seq<Event>)
    requires !IsLocked(st.store)
    requires timeout != LockBackoff
    ensures !IsLocked(Run(timeout, st, events).state.store)
    ensures ScheduleEvaluate(LockBackoff) !in Run(timeout, st, events).effects
    decreases |events|
  {
    if events != [] {
      StepNeverLocks(timeout, st, events[0]);
      LockNeverTaken(timeout, Step(timeout, st, events[0]).state, events[1..]);
    }
  }

  lemma StepKeepsNoStaleIdentity(timeout: int, st: State, e: Event)
    requires NoStaleIdentity(st.store)
    ensures NoStaleIdentity(Step(timeout, st, e).state.store)
  {
  }

  /** Along every run, a record that is not established holds no username. */
  lemma {:induction false} NoStaleIdentityAlongRun(timeout: int, st: State, events: seq<Event>)
    requires NoStaleIdentity(st.store)
    ensures NoStaleIdentity(Run(timeout, st, events).state.store)
    decreases |events|
  {
    if events != [] {
      StepKeepsNoStaleIdentity(timeout, st, events[0]);
      NoStaleIdentityAlongRun(timeout, Step(timeout, st, events[0]).state, events[1..]);
    }
  }

  lemma StepKeepsIntent(timeout: int, st: State, e: Event)
    requires !e.SignInClicked?
    ensures SignInIntent(Step(timeout, st, e).state.store) == SignInIntent(st.store)
  {
  }

  /**
   * Only the sign-in click writes the sign-in intent: flushes, completions,
   * cache hits and logouts all keep it.
   */
  lemma {:induction false} IntentOnlyFromSignIn(timeout: int, st: State, events: seq<Event>)
    requires forall i | 0 <= i < |events| :: !events[i].SignInClicked?
    ensures SignInIntent(Run(timeout, st, events).state.store) == SignInIntent(st.store)
    decreases |events|
  {
    if events != [] {
      StepKeepsIntent(timeout, st, events[0]);
      IntentOnlyFromSignIn(timeout, Step(timeout, st, events[0]).state, events[1..]);
    }
  }

  /**
   * A server answer is cached: until `timeout` has passed, `evaluate` on a page
   * without `#auth` asks the server nothing and reports the same user.
   */
  lemma ServerAnswerIsCached(timeout: int, st: State, t: int, href: string, user: Value, now: int, page: string)
    requires now - t <= timeout
    requires !HasAuthFragment(page)
    ensures var answered := OnIdentSuccess(timeout, st, t, href, user).state;
      Evaluate(timeout, answered, now, page).effects == [Established(user), ScheduleEvaluate(timeout)]
  {
  }

  /**
   * Sign-in round trip: the sign-in click saves the address; the page reached
   * through the fresh login flushes, asks the server once, and on an answer
   * with a user goes back to the saved address.
   */
  lemma ResumeAfterSignIn(timeout: int, st: State, start: string, t1: int, t2: int, landing: string, user: string)
    requires start != ""
    requires HasAuthFragment(landing)
    requires st.timestamp.Number? && t2 - st.timestamp.n < timeout
    ensures var o := Run(timeout, st, [SignInClicked(start), EvaluateFired(t1, landing), IdentSucceeded(t2, landing, Text(user))]);
      o.effects == [RequestIdent, Established(Text(user)), Navigate(Text(start)), ScheduleEvaluate(timeout)]
  {
    var es := [SignInClicked(start), EvaluateFired(t1, landing), IdentSucceeded(t2, landing, Text(user))];
    var s1 := SignInClick(st, start);
    var o2 := Evaluate(timeout, s1, t1, landing);
    var o3 := OnIdentSuccess(timeout, o2.state, t2, landing, Text(user));
    assert o2 == Outcome(s1.(store := Flush(s1.store)), [RequestIdent]);
    // the flush keeps the intent the click saved
    assert o2.state.store - LifecycleKeys == s1.store - LifecycleKeys;
    assert SigninLocationKey in o2.state.store - LifecycleKeys;
    assert SigninTimestampKey in o2.state.store - LifecycleKeys;
    assert ResumesNavigation(timeout, o2.state.store, Text(user), t2, landing);
    assert o3.effects == [Established(Text(user)), Navigate(Text(start)), ScheduleEvaluate(timeout)];
    assert es[1..][1..] == [IdentSucceeded(t2, landing, Text(user))];
    assert Run(timeout, o2.state, es[1..][1..]) == Outcome(o3.state, o3.effects + []) by {
      assert es[1..][1..][1..] == [];
    }
    assert Run(timeout, s1, es[1..]) == Outcome(o3.state, o2.effects + o3.effects);
  }

  /** The first page load with an empty store: one `ident`, then "alice" is cached at time 1000. */
  lemma FirstLoadScenario()
    ensures var st := State(map[], Number(0), Undefined);
      var o := Run(180000, st, [EvaluateFired(500, "http://example.org/"), IdentSucceeded(1000, "http://example.org/", Text("alice"))]);
      && o.effects == [RequestIdent, Established(Text("alice")), ScheduleEvaluate(180000)]
      && o.state.store == map[TimestampKey := Number(1000), UsernameKey := Text("alice"),
                              EstablishedKey := Boolean(true), LockedKey := Boolean(false)]
  {
  }

  /** A record older than the timeout is flushed and revalidated once. */
  lemma ExpiredRecordScenario(now: int)
    ensures var m := map[EstablishedKey := Boolean(true), TimestampKey := Number(now - 200000), UsernameKey := Text("bob")];
      Evaluate(180000, State(m, Undefined, Undefined), now, "http://example.org/")
        == Outcome(State(Flush(m), Undefined, Undefined), [RequestIdent])
  {
  }

  /**
   * The in-memory handle can disagree with the store: a failed `ident` after a
   * successful one clears the field but keeps the stored name, and the next
   * cache hit reports that name again.
   */
  lemma FailureKeepsStoredName(timeout: int, st: State, t1: int, t2: int, href: string)
    requires timeout >= 0 && t1 <= t2
    requires !HasAuthFragment(href)
    ensures var o := Run(timeout, st, [IdentSucceeded(t1, href, Text("alice")), IdentFailed(t2, href)]);
      && o.state.username == Undefined
      && UsernameKey in o.state.store && o.state.store[UsernameKey] == Text("alice")
      && Evaluate(timeout, o.state, t2, href).effects == [Established(Text("alice")), ScheduleEvaluate(timeout)]
  {
    var es := [IdentSucceeded(t1, href, Text("alice")), IdentFailed(t2, href)];
    var o1 := OnIdentSuccess(timeout, st, t1, href, Text("alice"));
    var o2 := OnIdentFailure(timeout, o1.state, t2, href);
    assert es[1..] == [IdentFailed(t2, href)];
    assert Run(timeout, o1.state, es[1..]) == Outcome(o2.state, o2.effects + []) by {
      assert es[1..][1..] == [];
    }
    assert Run(timeout, st, es).state == o2.state;
    assert !IsExpired(o2.state.store, t2, timeout);
  }

  /**
   * A server answer `{"username": null}` stores `null`, which is not
   * `undefined`: the tab counts as signed in and may go back to the saved
   * sign-in location.
   */
  lemma NullUserCountsAsSignedIn(timeout: int, st: State, now: int, href: string)
    requires ResumesNavigation(timeout, st.store, Null, now, href)
    ensures var o := OnIdentSuccess(timeout, st, now, href, Null);
      && o.state.username == Null
      && o.effects == [Established(Null), Navigate(st.store[SigninLocationKey]), ScheduleEvaluate(timeout)]
  {
  }
}
