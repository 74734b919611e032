/**
 * Client configuration (ais/config.go): a record of credentials, OAuth scopes
 * and API addresses, and the two options that each overwrite one of its fields.
 * An option is a closure over a *config in the source; here it is a value
 * naming which field it sets and to what, applied by Config.Apply.
 */
module Configs {
  import opened Uris

  /** The contents of a config record. */
  datatype Settings = Settings(clientId: string, clientSecret: string, oauthScopes: seq<string>, urls: URLs)

  /** The two ClientOption constructors. */
  datatype ClientOption =
    | SetResourceURLs(uris: URLs)
    | SetOAuthScopes(scopes: seq<string>)

  /** What applying an option does to a config's contents: it replaces its one field and keeps the rest. */
  function Applied(s: Settings, opt: ClientOption): (r: Settings)
    ensures r.clientId == s.clientId && r.clientSecret == s.clientSecret
    ensures opt.SetResourceURLs? ==> r.urls == opt.uris && r.oauthScopes == s.oauthScopes
    ensures opt.SetOAuthScopes? ==> r.oauthScopes == opt.scopes && r.urls == s.urls
  {
    match opt
    case SetResourceURLs(uris) => s.(urls := uris)
    case SetOAuthScopes(scopes) => s.(oauthScopes := scopes)
  }

  /** Applying an option a second time changes nothing. */
  lemma ApplyIsIdempotent(s: Settings, opt: ClientOption)
    ensures Applied(Applied(s, opt), opt) == Applied(s, opt)
  {
  }

  /** The two options write different fields, so their order does not matter. */
  lemma OptionsCommute(s: Settings, uris: URLs, scopes: seq<string>)
    ensures Applied(Applied(s, SetResourceURLs(uris)), SetOAuthScopes(scopes))
         == Applied(Applied(s, SetOAuthScopes(scopes)), SetResourceURLs(uris))
  {
  }

  /** Of two options of the same kind, the later one wins. */
  lemma LaterOptionWins(s: Settings, first: ClientOption, second: ClientOption)
    requires first.SetResourceURLs? == second.SetResourceURLs?
    ensures Applied(Applied(s, first), second) == Applied(s, second)
  {
  }

  /** The config record an option closure receives a pointer to. */
  class Config {
    var clientId: string
    var clientSecret: string
    var oauthScopes: seq<string>
    var urls: URLs

    constructor (clientId: string, clientSecret: string, oauthScopes: seq<string>, urls: URLs)
      ensures Value() == Settings(clientId, clientSecret, oauthScopes, urls)
    {
      this.clientId := clientId;
      this.clientSecret := clientSecret;
      this.oauthScopes := oauthScopes;
      this.urls := urls;
    }

    function Value(): Settings
      reads this
    {
      Settings(clientId, clientSecret, oauthScopes, urls)
    }

    /** Calls the option's closure on this config: exactly its one field is overwritten. */
    method Apply(opt: ClientOption)
      modifies this
      ensures Value() == Applied(old(Value()), opt)
    {
      match opt {
        case SetResourceURLs(uris) => urls := uris;
        case SetOAuthScopes(scopes) => oauthScopes := scopes;
      }
    }
  }
}
