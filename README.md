# oidc-agent: token-acquisition decisions and agent options

This project models two parts of oidc-agent, the daemon that holds OpenID
Connect account configurations and hands out access tokens to local tools.

- **Token acquisition** (`AccessTokenHandler`, from
  `src/oidc-agent/oidc/flows/access_token_handler.c`). This part decides when
  the cached access token of an account may be returned. It also decides which
  guard a grant flow must pass before it runs: refresh, password, authorization
  code or device code. `TokenAgent` is a class that holds four things: the
  account record, the global error slot `oidc_errno`, a log of every flow
  call, and the injected `FlowBehaviour` that gives the network flows'
  outcomes. The four network flows are methods of `TokenAgent`. Each one
  records its call and takes its result from that `FlowBehaviour`, so contracts
  can say "returns exactly what the flow returned" and "no flow was called".
  `parseFlow` is a method that builds the configured flow order.
- **Agent options** (`AgentOptions`, from `src/oidc-agent/oidc-agent_options.h`).
  `Arguments` is a class with the fields of `struct arguments`. Its methods are
  `initArguments` and the argp callback `parse_opt`, which updates one field
  per recognised key. `ApplyOpt` states what one callback call does to the
  record's value. `ParseAll` applies the callback to each option of a command
  line, in order, and stops at the first option it refuses. Only options of
  the `options` table are considered. Lemmas say which record results and
  where parsing stops, and how repeated and reordered flag options combine.
- `CStrings` models a `char*` that may be NULL (`CString`), and `strValid`.

The current time is a parameter `now`, not `time(NULL)`.

## Model

| member | source | states |
|---|---|---|
| `AccessTokenHandler.TokenIsValidForSeconds` | src/oidc-agent/oidc/flows/access_token_handler.c:55-60 | The token is valid exactly when it expires after `now + max(0, period)`; both comparisons are strict. |
| `AccessTokenHandler.ExpiredNeverValid` | src/oidc-agent/oidc/flows/access_token_handler.c:59 | If `expiresAt <= now`, the token is invalid for every period, negative ones included. |
| `AccessTokenHandler.ValidityMonotone` | src/oidc-agent/oidc/flows/access_token_handler.c:59 | A token valid for period `p` is valid for every `q <= p`. |
| `AccessTokenHandler.ValidityBoundary` | src/oidc-agent/oidc/flows/access_token_handler.c:55-60 | For `p >= 1`, if `expiresAt == now + p`, the token is not valid for `p` but is valid for `p - 1` (e.g. 100 vs 99). |
| `AccessTokenHandler.ServesFromCache` | src/oidc-agent/oidc/flows/access_token_handler.c:65-67 | A cache hit implies: no scope, not `FORCE_NEW_TOKEN`, a `strValid` token, unexpired and valid for more than the period. Conversely, those conditions imply a hit. |
| `AccessTokenHandler.ForceNewOrScopeMisses` | src/oidc-agent/oidc/flows/access_token_handler.c:65 | `FORCE_NEW_TOKEN` or a non-NULL scope never gives a cache hit. |
| `AccessTokenHandler.TokenAgent.RefreshFlow` | src/oidc-agent/oidc/flows/access_token_handler.c:27 | One refresh-flow call is logged with its scope; token, account and error slot come from the flow. |
| `AccessTokenHandler.TokenAgent.PasswordFlow` | src/oidc-agent/oidc/flows/access_token_handler.c:43 | One password-flow call is logged; result, account and error slot come from the flow. |
| `AccessTokenHandler.TokenAgent.CodeExchange` | src/oidc-agent/oidc/flows/access_token_handler.c:91-92 | One code exchange is logged with code, redirect URI and verifier; result, account and error slot come from the flow. |
| `AccessTokenHandler.TokenAgent.LookUpDeviceCode` | src/oidc-agent/oidc/flows/access_token_handler.c:102 | One device-code lookup is logged with its device code; result, account and error slot come from the flow. |
| `AccessTokenHandler.TokenAgent.TryRefreshFlow` | src/oidc-agent/oidc/flows/access_token_handler.c:19-28 | Without a valid refresh token: returns NULL, sets `OIDC_ENOREFRSH`, calls no flow, leaves the account alone. Otherwise returns exactly the refresh flow's result after exactly one refresh call. |
| `AccessTokenHandler.TokenAgent.TryPasswordFlow` | src/oidc-agent/oidc/flows/access_token_handler.c:36-44 | If username or password is not `strValid`: returns `OIDC_ECRED`, stores it in the error slot, calls no flow. Otherwise returns the password flow's result after exactly one password call. |
| `AccessTokenHandler.TokenAgent.GetAccessTokenUsingRefreshFlow` | src/oidc-agent/oidc/flows/access_token_handler.c:62-72 | On a cache hit: returns the cached token with the whole state unchanged and no flow called. On a miss: behaves exactly like `tryRefreshFlow` (both of its outcomes). |
| `AccessTokenHandler.TokenAgent.GetAccessTokenUsingPasswordFlow` | src/oidc-agent/oidc/flows/access_token_handler.c:74-81 | A `strValid` cached token gives `OIDC_SUCCESS` with nothing changed, whatever the expiry or credentials. Otherwise the result of `tryPasswordFlow` (ECRED or the flow's result) is also stored in the error slot. |
| `AccessTokenHandler.TokenAgent.GetAccessTokenUsingAuthCodeFlow` | src/oidc-agent/oidc/flows/access_token_handler.c:83-94 | A `strValid` cached token gives `OIDC_SUCCESS` with nothing changed. Otherwise exactly one code exchange runs, and its result is returned and stored in the error slot. |
| `AccessTokenHandler.TokenAgent.GetAccessTokenUsingDeviceFlow` | src/oidc-agent/oidc/flows/access_token_handler.c:96-104 | A `strValid` cached token gives `OIDC_SUCCESS` with nothing changed. Otherwise exactly one device lookup runs, and its result is returned and stored in the error slot. |
| `AccessTokenHandler.ParseFlow` | src/oidc-agent/oidc/flows/access_token_handler.c:113-130 | NULL gives `[refresh, password, code, device]`. A string not starting with `[` (even `""`) gives the one-element list of itself, verbatim. A string starting with `[` gives the JSON decoder's result unchanged. |
| `AccessTokenHandler.DefaultFlowOrderDistinct` | src/oidc-agent/oidc/flows/access_token_handler.c:116-121 | The default order has four entries and no repeats. |
| `AgentOptions.ApplyOpt` | src/oidc-agent/oidc-agent_options.h:105-135 | A flag key sets only its own field to 1. `OPT_GROUP` sets only `group` (the argument, else "oidc-agent"). `-t` sets `lifetime` iff its argument starts with a digit, else returns `ARGP_ERR_UNKNOWN`. `OPT_PW_STORE` sets only `pw_lifetime`. Every other key returns `ARGP_ERR_UNKNOWN` with nothing changed. |
| `AgentOptions.ParseAll` | src/oidc-agent/oidc-agent_options.h:105-137 | For options of the `options` table, parsing a whole command line either succeeds or ends with `ARGP_ERR_UNKNOWN`; the callback returns no other code. |
| `AgentOptions.ParseAllSucceeds` | src/oidc-agent/oidc-agent_options.h:105-137 | Parsing succeeds exactly when every option is accepted in the record the options before it leave. On success the record is the callback applied to each option in turn. |
| `AgentOptions.ParseAllStopsAtFirstRejection` | src/oidc-agent/oidc-agent_options.h:118-123 | If option `i` is the first refused (a `-t` argument not starting with a digit), parsing returns `ARGP_ERR_UNKNOWN`. The record is the one the options before `i` leave. |
| `AgentOptions.FlagOptionsAccumulate` | src/oidc-agent/oidc-agent_options.h:109-116 | After any run of flag options, parsing succeeds. A flag is 1 if its key occurred and keeps its old value otherwise. Lifetimes and group are untouched. |
| `AgentOptions.FlagOrderIrrelevant` | src/oidc-agent/oidc-agent_options.h:109-116 | Two runs of flag options with the same set of keys give the same record, whatever their order or multiplicity. |
| `AgentOptions.FlagRepetitionIrrelevant` | src/oidc-agent/oidc-agent_options.h:109-116 | Giving the same flag options twice gives the same record as giving them once (idempotence). |
| `AgentOptions.Arguments.InitArguments` | src/oidc-agent/oidc-agent_options.h:33-46 | Every flag, `lifetime`, `pw_lifetime.lifetime` and `pw_lifetime.argProvided` become 0, and `group` becomes NULL. |
| `AgentOptions.Arguments.ParseOpt` | src/oidc-agent/oidc-agent_options.h:105-135 | The record's new value and the returned code are exactly those `ApplyOpt` gives for the old value. |

## Left out

- The bodies of `refreshFlow`, `passwordFlow`, `codeExchange` and `lookUpDeviceCode` are network exchanges. They are injected as functions of the account and their arguments. Nothing is claimed about them: not refresh-token rotation, not "authorization pending", and not that a failure leaves the cached token alone.
- A real issuer can answer the same request differently at different times. `FlowBehaviour` makes a flow a function of its inputs, which is enough for single-call contracts.
- `strValid` lives in `utils/stringUtils`, which is not part of this model. It is taken as "not NULL and not empty".
- `account_refreshTokenIsValid` and the account getters are not part of this model. A refresh token counts as valid when it is `strValid`.
- `FORCE_NEW_TOKEN` and the `FLOW_VALUE_*` strings come from `defines/agent_values.h`, which is not part of this model. They are taken as -1 and "refresh", "password", "code", "device". No proof depends on the exact values.
- `JSONArrayStringToList` is not part of this model. `ParseFlow` receives it as a function returning a list or NULL.
- `parseFlow` neither deduplicates nor validates flow names (access_token_handler.c:124-129); the model does the same.
- Replacing the cached token and expiry on success happens inside `refreshFlow`, which is opaque here.
- `logger`, `_secFree`, `list_destroy` and the other memory management are left out. So is the `ipcPipe` argument, which is only passed through.
- `time(NULL)` is replaced by the `now` parameter. `time_t` arithmetic is on unbounded integers, so overflow of `expires_at - now` is not modelled.
- `ARGP_ERR_UNKNOWN` is E2BIG, 7 on Linux; `ARGP_KEY_ARG` is 0.
- The `'h'` help branch and the `ARGP_KEY_ARG` usage branch print and end the program, so they are not modelled. `Admissible` keeps these two keys out of `ApplyOpt`, `ParseOpt` and `ParseAll`. It also requires `-t` to carry an argument, which argp guarantees for an option with a required argument.
- `strToInt` and `strToULong` come from `utils/stringUtils`, which is not part of this model. They are given as functions (`Converters`). `pw_lifetime.lifetime` is an unbounded integer, so converting `unsigned long` to its C type is not modelled.
- The static `options` table and its help text are left out.
- `ParseAll` takes only options of the `options` table. argp also calls the callback with its special keys (`ARGP_KEY_INIT`, `ARGP_KEY_END`, `ARGP_KEY_NO_ARGS`, …). The callback answers those with `ARGP_ERR_UNKNOWN`, which argp reads as "not handled" and ignores. Neither those keys nor that rule is modelled. For a table option, `ParseAll` stops at the first non-zero code. argp's own error message and exit are not modelled.
- `daemonize.c` (process plumbing) and `openid_config.c` (a thin wrapper around an HTTP GET) are not part of this model.
