/** The request interceptor of the shared HTTP client (lib/apiClient.ts): before
    every request it reads the token from the same storage entry the session
    writes, and when there is one it sets the `Authorization` header. */
module ApiClient {
  import opened Types
  import AuthContext

  const AuthorizationHeader: string := "Authorization"

  /** The token the interceptor sees: the stored `authToken` entry when running
      in a browser, nothing otherwise. */
  function InterceptorToken(inBrowser: bool, entries: map<string, string>): (r: Option<string>)
    ensures !inBrowser ==> r.None?
    ensures inBrowser ==> r == AuthContext.GetItem(entries, AuthContext.TokenKey)
  {
    if inBrowser then AuthContext.GetItem(entries, AuthContext.TokenKey) else None
  }

  /** The headers after the interceptor: a non-empty token sets exactly the
      `Authorization` header to `Bearer <token>`; otherwise nothing changes. */
  function WithBearer(token: Option<string>, headers: map<string, string>): (r: map<string, string>)
    ensures Truthy(token) ==> AuthorizationHeader in r && r[AuthorizationHeader] == "Bearer " + token.value
    ensures !Truthy(token) ==> r == headers
    ensures r.Keys == if Truthy(token) then headers.Keys + {AuthorizationHeader} else headers.Keys
    ensures forall k :: k in headers && k != AuthorizationHeader ==> r[k] == headers[k]
  {
    if Truthy(token) then headers[AuthorizationHeader := "Bearer " + token.value] else headers
  }

  /** The parts of an outgoing request the interceptor can touch. */
  class RequestConfig {
    var url: string
    var verb: string
    var headers: map<string, string>

    constructor (url: string, verb: string, headers: map<string, string>)
      ensures this.url == url && this.verb == verb && this.headers == headers
    {
      this.url, this.verb, this.headers := url, verb, headers;
    }
  }

  /** The interceptor: updates the headers of `config` in place and hands the
      same object back; no other field changes. */
  method Intercept(config: RequestConfig, storage: AuthContext.LocalStorage, inBrowser: bool) returns (r: RequestConfig)
    modifies config`headers
    ensures r == config
    ensures config.headers == WithBearer(InterceptorToken(inBrowser, storage.entries), old(config.headers))
  {
    var token: Option<string> := None;
    if inBrowser {
      token := AuthContext.GetItem(storage.entries, AuthContext.TokenKey);
    }
    if Truthy(token) {
      config.headers := config.headers[AuthorizationHeader := "Bearer " + token.value];
    }
    r := config;
  }

  /** After a login with a non-empty token, every request made in the browser
      carries that token; other headers are kept. */
  lemma BearerAfterLogin(entries: map<string, string>, t: string, u: User, headers: map<string, string>)
    requires t != ""
    ensures WithBearer(InterceptorToken(true, AuthContext.LoginEntries(entries, t, u)), headers)
         == headers[AuthorizationHeader := "Bearer " + t]
  {
    AuthContext.LoginThenReload(entries, t, u);
  }

  /** After a logout, requests go out with their headers unchanged. */
  lemma NoBearerAfterLogout(entries: map<string, string>, headers: map<string, string>)
    ensures WithBearer(InterceptorToken(true, AuthContext.LogoutEntries(entries)), headers) == headers
  {
    AuthContext.LogoutThenReload(entries);
  }

  /** A session logged in through the provider authorises the next request. */
  method RequestAfterLogin(session: AuthContext.AuthProvider, t: string, u: User, config: RequestConfig)
    returns (sent: RequestConfig)
    requires t != ""
    modifies session, session.storage, config`headers
    ensures sent == config
    ensures config.headers == old(config.headers)[AuthorizationHeader := "Bearer " + t]
  {
    var _ := session.Login(t, u);
    BearerAfterLogin(old(session.storage.entries), t, u, config.headers);
    sent := Intercept(config, session.storage, true);
  }
}
