/**
 * The agent's token-acquisition decisions: when a cached access token may be
 * handed out, and which precondition guards each OAuth2 flow before it runs.
 *
 * The four protocol exchanges (refresh, password, authorization code, device
 * code) happen over the network; their behaviour is injected as a
 * `FlowBehaviour` and every call to one of them is recorded in `flowCalls`.
 */
module AccessTokenHandler {
  import opened CStrings

  /** Sentinel minimum validity period that asks for a brand-new token. */
  const FORCE_NEW_TOKEN: int := -1

  /** The flow names of the default flow order. */
  const FLOW_VALUE_REFRESH: string := "refresh"
  const FLOW_VALUE_PASSWORD: string := "password"
  const FLOW_VALUE_CODE: string := "code"
  const FLOW_VALUE_DEVICE: string := "device"

  /**
   * `oidc_error_t`: success, the two codes this file sets itself, and any
   * other code a flow reports. `Other` never carries the value of
   * `OIDC_SUCCESS`, `OIDC_ENOREFRSH` or `OIDC_ECRED`: those are always
   * written with their own constructors.
   */
  datatype OidcError = Success | ENoRefresh | ECred | Other(code: int)

  /** The account fields the handler reads; flows may replace all of them. */
  datatype Account = Account(
    accessToken: CString,
    expiresAt: int,
    refreshToken: CString,
    username: CString,
    password: CString)

  /** What one flow call produces: its return value, the account it leaves behind and the error slot it leaves behind. */
  datatype FlowOutcome<R> = FlowOutcome(result: R, account: Account, errno: OidcError)

  /** The four network flows, as functions of the account and their arguments. */
  datatype FlowBehaviour = FlowBehaviour(
    refresh: (Account, CString) -> FlowOutcome<CString>,
    password: Account -> FlowOutcome<OidcError>,
    codeExchange: (Account, CString, CString, CString) -> FlowOutcome<OidcError>,
    lookUpDeviceCode: (Account, CString) -> FlowOutcome<OidcError>)

  /** One recorded invocation of a flow, with the arguments it was given. */
  datatype FlowCall =
    | RefreshCall(scope: CString)
    | PasswordCall
    | CodeExchangeCall(code: CString, usedRedirectUri: CString, codeVerifier: CString)
    | DeviceLookupCall(deviceCode: CString)

  /**
   * `tokenIsValidForSeconds`: the cached token is still valid at `now` and
   * stays valid for more than `minValidPeriod` seconds; both comparisons are strict.
   */
  function TokenIsValidForSeconds(account: Account, now: int, minValidPeriod: int): (valid: bool)
    ensures valid <==> account.expiresAt > now + (if minValidPeriod > 0 then minValidPeriod else 0)
  {
    account.expiresAt - now > 0 && account.expiresAt - now > minValidPeriod
  }

  /** A token that has expired by `now` is not valid for any period, negative ones included. */
  lemma ExpiredNeverValid(account: Account, now: int)
    requires account.expiresAt <= now
    ensures forall p :: !TokenIsValidForSeconds(account, now, p)
  {
  }

  /** Validity for a period implies validity for every shorter period. */
  lemma ValidityMonotone(account: Account, now: int, p: int, q: int)
    requires TokenIsValidForSeconds(account, now, p)
    requires q <= p
    ensures TokenIsValidForSeconds(account, now, q)
  {
  }

  /** A token expiring exactly `p` seconds from now is not valid for `p`, but is for `p - 1`. */
  lemma ValidityBoundary(account: Account, now: int, p: int)
    requires p >= 1 && account.expiresAt == now + p
    ensures !TokenIsValidForSeconds(account, now, p)
    ensures TokenIsValidForSeconds(account, now, p - 1)
  {
  }

  /**
   * The four conditions under which `getAccessTokenUsingRefreshFlow` answers
   * from the cache: no scope, not the force-new sentinel, a usable cached
   * token, and that token valid for the requested period.
   */
  function ServesFromCache(account: Account, now: int, minValidPeriod: int, scope: CString): (hit: bool)
    ensures hit ==> scope.None? && minValidPeriod != FORCE_NEW_TOKEN
    ensures hit ==> StrValid(account.accessToken) && account.expiresAt > now
    ensures hit ==> account.expiresAt - now > minValidPeriod
    ensures (scope.None? && minValidPeriod != FORCE_NEW_TOKEN && StrValid(account.accessToken)
             && account.expiresAt > now + (if minValidPeriod > 0 then minValidPeriod else 0)) ==> hit
  {
    scope.None? && minValidPeriod != FORCE_NEW_TOKEN && StrValid(account.accessToken)
    && TokenIsValidForSeconds(account, now, minValidPeriod)
  }

  /** Forcing a new token or asking for a scope never answers from the cache. */
  lemma ForceNewOrScopeMisses(account: Account, now: int, minValidPeriod: int, scope: CString)
    requires minValidPeriod == FORCE_NEW_TOKEN || scope.Some?
    ensures !ServesFromCache(account, now, minValidPeriod, scope)
  {
  }

  /**
   * The agent's view of one account during a token request: the account
   * record, the global `oidc_errno` and the log of flow calls made so far.
   */
  class TokenAgent {
    var account: Account
    var errno: OidcError
    var flowCalls: seq<FlowCall>
    const flows: FlowBehaviour

    constructor (account: Account, flows: FlowBehaviour)
      ensures this.account == account && this.flows == flows
      ensures errno == Success && flowCalls == []
    {
      this.account := account;
      this.flows := flows;
      errno := Success;
      flowCalls := [];
    }

    /** `refreshFlow`: a network exchange, recorded and taken from `flows`. */
    method RefreshFlow(scope: CString) returns (token: CString)
      modifies this
      ensures flowCalls == old(flowCalls) + [RefreshCall(scope)]
      ensures var o := flows.refresh(old(account), scope);
        token == o.result && account == o.account && errno == o.errno
    {
      var o := flows.refresh(account, scope);
      flowCalls := flowCalls + [RefreshCall(scope)];
      token, account, errno := o.result, o.account, o.errno;
    }

    /** `passwordFlow`: a network exchange, recorded and taken from `flows`. */
    method PasswordFlow() returns (e: OidcError)
      modifies this
      ensures flowCalls == old(flowCalls) + [PasswordCall]
      ensures var o := flows.password(old(account));
        e == o.result && account == o.account && errno == o.errno
    {
      var o := flows.password(account);
      flowCalls := flowCalls + [PasswordCall];
      e, account, errno := o.result, o.account, o.errno;
    }

    /** `codeExchange`: a network exchange, recorded and taken from `flows`. */
    method CodeExchange(code: CString, usedRedirectUri: CString, codeVerifier: CString) returns (e: OidcError)
      modifies this
      ensures flowCalls == old(flowCalls) + [CodeExchangeCall(code, usedRedirectUri, codeVerifier)]
      ensures var o := flows.codeExchange(old(account), code, usedRedirectUri, codeVerifier);
        e == o.result && account == o.account && errno == o.errno
    {
      var o := flows.codeExchange(account, code, usedRedirectUri, codeVerifier);
      flowCalls := flowCalls + [CodeExchangeCall(code, usedRedirectUri, codeVerifier)];
      e, account, errno := o.result, o.account, o.errno;
    }

    /** `lookUpDeviceCode`: a network exchange, recorded and taken from `flows`. */
    method LookUpDeviceCode(deviceCode: CString) returns (e: OidcError)
      modifies this
      ensures flowCalls == old(flowCalls) + [DeviceLookupCall(deviceCode)]
      ensures var o := flows.lookUpDeviceCode(old(account), deviceCode);
        e == o.result && account == o.account && errno == o.errno
    {
      var o := flows.lookUpDeviceCode(account, deviceCode);
      flowCalls := flowCalls + [DeviceLookupCall(deviceCode)];
      e, account, errno := o.result, o.account, o.errno;
    }

    /**
     * `tryRefreshFlow`: without a usable refresh token, fail with NULL and
     * `OIDC_ENOREFRSH` and call no flow; otherwise return whatever the
     * refresh flow returns.
     */
    method TryRefreshFlow(scope: CString) returns (token: CString)
      modifies this
      ensures !StrValid(old(account).refreshToken) ==>
        token == None && errno == ENoRefresh && account == old(account) && flowCalls == old(flowCalls)
      ensures StrValid(old(account).refreshToken) ==>
        var o := flows.refresh(old(account), scope);
        token == o.result && account == o.account && errno == o.errno
        && flowCalls == old(flowCalls) + [RefreshCall(scope)]
    {
      if !StrValid(account.refreshToken) {
        errno := ENoRefresh;
        return None;
      }
      token := RefreshFlow(scope);
    }

    /**
     * `tryPasswordFlow`: without a usable username and password, fail with
     * `OIDC_ECRED` (also left in the error slot) and call no flow; otherwise
     * return whatever the password flow returns.
     */
    method TryPasswordFlow() returns (e: OidcError)
      modifies this
      ensures !(StrValid(old(account).username) && StrValid(old(account).password)) ==>
        e == ECred && errno == ECred && account == old(account) && flowCalls == old(flowCalls)
      ensures StrValid(old(account).username) && StrValid(old(account).password) ==>
        var o := flows.password(old(account));
        e == o.result && account == o.account && errno == o.errno
        && flowCalls == old(flowCalls) + [PasswordCall]
    {
      if !StrValid(account.username) || !StrValid(account.password) {
        errno := ECred;
        return errno;
      }
      e := PasswordFlow();
    }

    /**
     * `getAccessTokenUsingRefreshFlow`: the cached token, untouched and with
     * no flow called, when `ServesFromCache` holds; otherwise exactly what
     * `tryRefreshFlow` does.
     */
    method GetAccessTokenUsingRefreshFlow(now: int, minValidPeriod: int, scope: CString) returns (token: CString)
      modifies this
      ensures ServesFromCache(old(account), now, minValidPeriod, scope) ==>
        token == old(account).accessToken && unchanged(this)
      ensures !ServesFromCache(old(account), now, minValidPeriod, scope) && !StrValid(old(account).refreshToken) ==>
        token == None && errno == ENoRefresh && account == old(account) && flowCalls == old(flowCalls)
      ensures !ServesFromCache(old(account), now, minValidPeriod, scope) && StrValid(old(account).refreshToken) ==>
        var o := flows.refresh(old(account), scope);
        token == o.result && account == o.account && errno == o.errno
        && flowCalls == old(flowCalls) + [RefreshCall(scope)]
    {
      if scope == None && minValidPeriod != FORCE_NEW_TOKEN && StrValid(account.accessToken)
         && TokenIsValidForSeconds(account, now, minValidPeriod)
      {
        return account.accessToken;
      }
      token := TryRefreshFlow(scope);
    }

    /**
     * `getAccessTokenUsingPasswordFlow`: succeeds at once, calling no flow,
     * whenever some access token is cached (its expiry is not looked at);
     * otherwise runs `tryPasswordFlow` and stores its result in the error slot.
     */
    method GetAccessTokenUsingPasswordFlow() returns (e: OidcError)
      modifies this
      ensures StrValid(old(account).accessToken) ==> e == Success && unchanged(this)
      ensures !StrValid(old(account).accessToken) ==> errno == e
      ensures !StrValid(old(account).accessToken)
              && !(StrValid(old(account).username) && StrValid(old(account).password)) ==>
        e == ECred && account == old(account) && flowCalls == old(flowCalls)
      ensures !StrValid(old(account).accessToken)
              && StrValid(old(account).username) && StrValid(old(account).password) ==>
        var o := flows.password(old(account));
        e == o.result && account == o.account && flowCalls == old(flowCalls) + [PasswordCall]
    {
      if StrValid(account.accessToken) {
        return Success;
      }
      e := TryPasswordFlow();
      errno := e;
    }

    /**
     * `getAccessTokenUsingAuthCodeFlow`: succeeds at once, calling no flow,
     * whenever some access token is cached; otherwise exchanges the code and
     * stores the exchange's result in the error slot.
     */
    method GetAccessTokenUsingAuthCodeFlow(code: CString, usedRedirectUri: CString, codeVerifier: CString)
      returns (e: OidcError)
      modifies this
      ensures StrValid(old(account).accessToken) ==> e == Success && unchanged(this)
      ensures !StrValid(old(account).accessToken) ==>
        var o := flows.codeExchange(old(account), code, usedRedirectUri, codeVerifier);
        e == o.result && errno == o.result && account == o.account
        && flowCalls == old(flowCalls) + [CodeExchangeCall(code, usedRedirectUri, codeVerifier)]
    {
      if StrValid(account.accessToken) {
        return Success;
      }
      e := CodeExchange(code, usedRedirectUri, codeVerifier);
      errno := e;
    }

    /**
     * `getAccessTokenUsingDeviceFlow`: succeeds at once, calling no flow,
     * whenever some access token is cached; otherwise makes one device-code
     * lookup and stores its result in the error slot.
     */
    method GetAccessTokenUsingDeviceFlow(deviceCode: CString) returns (e: OidcError)
      modifies this
      ensures StrValid(old(account).accessToken) ==> e == Success && unchanged(this)
      ensures !StrValid(old(account).accessToken) ==>
        var o := flows.lookUpDeviceCode(old(account), deviceCode);
        e == o.result && errno == o.result && account == o.account
        && flowCalls == old(flowCalls) + [DeviceLookupCall(deviceCode)]
    {
      if StrValid(account.accessToken) {
        return Success;
      }
      e := LookUpDeviceCode(deviceCode);
      errno := e;
    }
  }

  /** The flow order used when none is configured. */
  function DefaultFlowOrder(): seq<string> {
    [FLOW_VALUE_REFRESH, FLOW_VALUE_PASSWORD, FLOW_VALUE_CODE, FLOW_VALUE_DEVICE]
  }

  /**
   * `parseFlow`: NULL gives the default order; text not starting with `[`
   * (the empty string included) gives a one-element list holding that text
   * verbatim; text starting with `[` is handed to the JSON array decoder,
   * whose result, a list or NULL, is returned as it is.
   */
  method ParseFlow(flow: CString, jsonArrayStringToList: string -> Option<seq<string>>)
    returns (flows: Option<seq<string>>)
    ensures flow == None ==> flows == Some(DefaultFlowOrder())
    ensures flow.Some? && (flow.value == "" || flow.value[0] != '[') ==> flows == Some([flow.value])
    ensures flow.Some? && flow.value != "" && flow.value[0] == '[' ==>
      flows == jsonArrayStringToList(flow.value)
  {
    var list: seq<string> := [];
    if flow == None {
      list := list + [FLOW_VALUE_REFRESH];
      list := list + [FLOW_VALUE_PASSWORD];
      list := list + [FLOW_VALUE_CODE];
      list := list + [FLOW_VALUE_DEVICE];
      assert list == DefaultFlowOrder();
      return Some(list);
    }
    if flow.value == "" || flow.value[0] != '[' {
      list := list + [flow.value];
      assert list == [flow.value];
      return Some(list);
    }
    flows := jsonArrayStringToList(flow.value);
  }

  /** The default order names each of the four flows exactly once. */
  lemma DefaultFlowOrderDistinct()
    ensures |DefaultFlowOrder()| == 4
    ensures forall i, j :: 0 <= i < j < 4 ==> DefaultFlowOrder()[i] != DefaultFlowOrder()[j]
  {
  }
}
