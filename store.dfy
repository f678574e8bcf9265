/**
 * The persistent key-value store the session caches its record in, shared by
 * every tab of the same origin, and the six keys the session uses.
 */
module KeyValueStore {
  import opened Values

  const TimestampKey := "session-timestamp"
  const UsernameKey := "session-username"
  const EstablishedKey := "session-established"
  const LockedKey := "session-locked"
  const SigninLocationKey := "session-signin-location"
  const SigninTimestampKey := "session-signin-timestamp"

  /** The keys the lifecycle transitions (flush and the two completions) write. */
  const LifecycleKeys: set<string> := {TimestampKey, UsernameKey, EstablishedKey, LockedKey}

  /** The keys that record a sign-in intent. */
  const IntentKeys: set<string> := {SigninLocationKey, SigninTimestampKey}

  /** Get-with-default: the stored value, or `default` when the key is absent. */
  function Lookup(m: map<string, Value>, key: string, default: Value): Value
  {
    if key in m then m[key] else default
  }

  /** The store adapter: `getValue`, `setValue` and `deleteValue` over a dictionary. */
  class Store {
    var entries: map<string, Value>

    constructor (initial: map<string, Value>)
      ensures entries == initial
    {
      entries := initial;
    }

    method GetValue(key: string, default: Value) returns (v: Value)
      ensures key in entries ==> v == entries[key]
      ensures key !in entries ==> v == default
    {
      if key in entries {
        v := entries[key];
      } else {
        v := default;
      }
    }

    method SetValue(key: string, v: Value)
      modifies this
      ensures entries == old(entries)[key := v]
    {
      entries := entries[key := v];
    }

    method DeleteValue(key: string)
      modifies this
      ensures entries == old(entries) - {key}
    {
      entries := entries - {key};
    }
  }
}
