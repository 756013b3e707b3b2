/** The database client's configuration check (src/lib/supabase.ts): a client exists only when
    the URL looks like an HTTP address, a key is present, and the URL is not the placeholder. */
module SupabaseClient {
  import opened JsPrelude

  /** `import.meta.env.X || ''`: an unset variable reads as the empty string. */
  function EnvOr(value: Option<string>): (s: string)
    ensures value.None? ==> s == ""
    ensures value.Some? ==> s == value.value
  {
    if value.Some? then value.value else ""
  }

  /** `isValidUrl`. */
  predicate IsValidUrl(url: string) {
    url != "" && (StartsWith(url, "http://") || StartsWith(url, "https://"))
  }

  /** `hasValidConfig`. */
  predicate HasValidConfig(url: string, anonKey: string) {
    IsValidUrl(url) && anonKey != "" && !Contains(url, "your-project-ref")
  }

  /** A client handle, standing for what `createClient` returns. */
  datatype Client = Client(url: string, anonKey: string)

  /** `supabase`: a client for a valid configuration, null otherwise. */
  function ClientOf(urlEnv: Option<string>, keyEnv: Option<string>): (c: Option<Client>)
    ensures c.Some? <==> HasValidConfig(EnvOr(urlEnv), EnvOr(keyEnv))
    ensures c.Some? ==> c.value == Client(EnvOr(urlEnv), EnvOr(keyEnv))
  {
    var url := EnvOr(urlEnv);
    var key := EnvOr(keyEnv);
    if HasValidConfig(url, key) then Some(Client(url, key)) else None
  }

  /** Missing variables leave no client, and so does any URL that mentions the placeholder
      project reference, such as the template's own placeholder URL. */
  lemma NoClientWhenUnset(urlEnv: Option<string>, keyEnv: Option<string>)
    ensures urlEnv.None? || keyEnv.None? ==> ClientOf(urlEnv, keyEnv).None?
    ensures urlEnv.Some? && Contains(urlEnv.value, "your-project-ref") ==> ClientOf(urlEnv, keyEnv).None?
    ensures ClientOf(Some("https://your-project-ref.supabase.co"), keyEnv).None?
  {
    var url := "https://your-project-ref.supabase.co";
    assert "your-project-ref" <= url[8..];
    ContainsIff(url, "your-project-ref");
  }

  /** A URL that starts with neither `http://` nor `https://` yields no client, whatever the
      key; the emptiness test in `isValidUrl` adds nothing to the two prefix tests. */
  lemma SchemeRequired(url: string, anonKey: string)
    ensures !StartsWith(url, "http://") && !StartsWith(url, "https://") ==> !HasValidConfig(url, anonKey)
    ensures IsValidUrl(url) <==> StartsWith(url, "http://") || StartsWith(url, "https://")
  {
  }
}
