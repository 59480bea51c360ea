/**
 * The `useAuth` hook (frontend/src/hooks/useAuth.ts). A session is nothing
 * more than a non-empty `moltbook_api_key` entry in `localStorage`: the key
 * is never checked, and the agent shown is the same placeholder whatever
 * the key.
 */
module UseAuth {
  import opened Types
  import opened Storage
  import Moltbook

  /** The identity shown for any stored key. */
  const Placeholder: Agent := Agent("local", "Agent", 0, true)

  /** The agent `checkAuth` shows for what `getItem` returned: `null` and
      the empty string are falsy. */
  function AgentFor(stored: Option<string>): (a: Option<Agent>)
    ensures a.Some? <==> stored.Some? && stored.value != ""
    ensures a.Some? ==> a.value == Placeholder
  {
    if stored.Some? && stored.value != "" then Some(Placeholder) else None
  }

  /** Two non-empty keys look the same to the page. */
  lemma AgentIndependentOfKey(a: string, b: string)
    requires a != "" && b != ""
    ensures AgentFor(Some(a)) == AgentFor(Some(b)) == Some(Placeholder)
  {
  }

  /** After `login(k)` a fresh `checkAuth` (say, on reload) agrees with the
      login exactly when `k` is non-empty: `login("")` shows the placeholder
      until the next check, which then shows nobody. */
  lemma LoginThenCheck(items: map<string, string>, k: string)
    ensures AgentFor(Lookup(items[Moltbook.ApiKeyEntry := k], Moltbook.ApiKeyEntry)) ==
      if k != "" then Some(Placeholder) else None
  {
    LookupAfterSet(items, Moltbook.ApiKeyEntry, k);
  }

  /** After `logout()` a later `checkAuth` still shows nobody. */
  lemma LogoutThenCheck(items: map<string, string>)
    ensures AgentFor(Lookup(items - {Moltbook.ApiKeyEntry}, Moltbook.ApiKeyEntry)).None?
  {
  }

  class AuthHook {
    var agent: Option<Agent>
    var loading: bool
    const store: LocalStorage

    /** The state before the mount effect runs `checkAuth`. */
    constructor (store: LocalStorage)
      ensures this.store == store
      ensures agent.None? && loading
    {
      this.store := store;
      agent := None;
      loading := true;
    }

    /** `checkAuth()`: reads the key and always ends loading. */
    method CheckAuth()
      modifies this
      ensures agent == AgentFor(Lookup(store.items, Moltbook.ApiKeyEntry))
      ensures !loading
    {
      var apiKey := store.GetItem(Moltbook.ApiKeyEntry);
      if apiKey.Some? && apiKey.value != "" {
        agent := Some(Placeholder);
      } else {
        agent := None;
      }
      loading := false;
    }

    /** `login(apiKey)`: stores the key as given, sets the placeholder agent
        and reports success without any verification. */
    method Login(apiKey: string) returns (ok: bool)
      modifies this, store
      ensures store.items == old(store.items)[Moltbook.ApiKeyEntry := apiKey]
      ensures agent == Some(Placeholder) && loading == old(loading)
      ensures ok
    {
      store.SetItem(Moltbook.ApiKeyEntry, apiKey);
      agent := Some(Placeholder);
      ok := true;
    }

    /** `logout()`: removes the key and clears the agent. */
    method Logout()
      modifies this, store
      ensures store.items == old(store.items) - {Moltbook.ApiKeyEntry}
      ensures agent.None? && loading == old(loading)
    {
      store.RemoveItem(Moltbook.ApiKeyEntry);
      agent := None;
    }
  }
}
