/**
 * The login form of the settings page (frontend/src/pages/Settings.tsx):
 * a trimmed, non-blank key is written straight to `localStorage` and the
 * page reloads; nothing is sent to the server first.
 */
module Settings {
  import opened JsString
  import opened Storage
  import Moltbook
  import UseAuth

  /** `disabled={loading || !apiKey.trim()}`. */
  function SubmitDisabled(loading: bool, apiKey: string): (d: bool)
    ensures !loading ==> (d <==> AllWhitespace(apiKey))
    ensures loading ==> d
  {
    loading || Trim(apiKey) == []
  }

  /** `handleLogin`: returns whether the page reloads. */
  method HandleLogin(store: LocalStorage, apiKey: string) returns (reloaded: bool)
    modifies store
    ensures reloaded <==> !Blank(apiKey)
    ensures reloaded ==> store.items == old(store.items)[Moltbook.ApiKeyEntry := Trim(apiKey)]
    ensures !reloaded ==> store.items == old(store.items)
  {
    var key := Trim(apiKey);
    if key == [] {
      return false;
    }
    store.SetItem(Moltbook.ApiKeyEntry, key);
    reloaded := true;
  }

  /** A key the form stores is non-empty and carries no surrounding
      whitespace, whatever was typed. */
  lemma StoredKeyWellFormed(items: map<string, string>, apiKey: string)
    requires !Blank(apiKey)
    ensures var stored := items[Moltbook.ApiKeyEntry := Trim(apiKey)][Moltbook.ApiKeyEntry];
      stored != [] && Unpadded(stored) && Trim(stored) == stored
  {
    TrimIdempotent(apiKey);
  }

  /** A stored key logs the reloaded page in: `checkAuth` then shows the placeholder agent. */
  lemma LoginThenReload(items: map<string, string>, apiKey: string)
    requires !Blank(apiKey)
    ensures UseAuth.AgentFor(Lookup(items[Moltbook.ApiKeyEntry := Trim(apiKey)], Moltbook.ApiKeyEntry)).Some?
  {
    UseAuth.LoginThenCheck(items, Trim(apiKey));
  }

  /** The control is enabled only for a key the handler will store. */
  lemma EnabledSubmitStores(loading: bool, apiKey: string)
    requires !SubmitDisabled(loading, apiKey)
    ensures !Blank(apiKey) && !loading
  {
  }
}
