# chainalysis.rb client core, modelled in Dafny

The Ruby gem `chainalysis` is a thin client for the Chainalysis KYT API. Its own
logic lives in `lib/chainalysis/client.rb`:

- **Response classifier** (`BaseClient#handle_response`, `#error_message`): the
  status picks the outcome; 200/201/202 return the parsed body (an empty hash
  for an empty body), 400/403/404/429 and every other status raise
  `BadRequestError`, `AuthenticationError`, `NotFoundError`, `RateLimitError` or
  `ApiError`, with a message taken from `message`, else `error`, else the raw body.
- **Request construction** (`get_request`, `post_request`, `delete_request` and
  the endpoint methods of `V1Client` and `V2Client`): each call reduces to a
  request descriptor (verb, root, path, optional query hash, optional body).
- **Memoisation**: `client`, `admin_client`, `Client#v1` and `Client#v2` build
  their object once (`@x ||= ...`) and return it on every later call.

Modules:

| file | module | models |
|---|---|---|
| values.dfy | `Values` | Ruby values (nil, booleans, integers, strings, arrays, hashes) and truthiness |
| responses.dfy | `Responses` | `handle_response`, `error_message`, the error classes |
| requests.dfy | `Requests` | roots, headers, the descriptor, `get_request`/`post_request`/`delete_request` |
| hashes.dfy | `HashLiterals` | evaluation of a hash literal with `**options` (later key wins) |
| paths.dfy | `Paths` | splitting an interpolated path at `/` |
| v1.dfy | `V1` | every `V1Client` endpoint as a `Call` and its descriptor |
| v2.dfy | `V2` | every `V2Client` endpoint as a `Call` and its descriptor |
| clients.dfy | `Clients` | `BaseClient` connections, the facade `Client`, sending a descriptor |

JSON parsing is a parameter `parse: string -> Option<Value>` (None is
`JSON::ParserError`); the HTTP transport is a parameter
`(ConnectionConfig, Request) -> Response`. `JSON.generate` is not modelled:
a descriptor carries the value that would be serialised.

The hash literals of the two V2 registrations spread `**options` last, so a
same-named extra replaces the mapped field; the model follows this
(`V2.TransferBody`, `V2.ExtraOverridesMappedField`). Because Ruby binds named keywords to their
parameters, each registration's `**options` never holds that method's own
keywords (`V2.TRANSFER_KEYWORDS` for `register_transfer`, `V2.ATTEMPT_KEYWORDS`
for `register_withdrawal_attempt`; `V2.Call.WellFormed`), so only the camelCase
wire keys (`transferReference`; `attemptIdentifier`, `assetAmount`,
`attemptTimestamp`) can be overridden.

## Model

| member | source | states |
|---|---|---|
| Responses.KindOf | lib/chainalysis/client.rb:49-64 | 400, 403, 404, 429 map to BadRequestError, AuthenticationError, NotFoundError, RateLimitError, each in both directions; ApiError exactly for every other non-success status |
| Responses.ErrorMessage | lib/chainalysis/client.rb:67-74 | empty body gives ""; unparsable body gives the body verbatim; a parsed hash gives truthy `message`, else truthy `error`, else the raw body; the message is never nil or false |
| Responses.HandleResponse | lib/chainalysis/client.rb:48-65 | success with empty body returns an empty hash; success with a body returns exactly the parse result, or the parse error propagates; a value is returned only for 200/201/202; a raise carries KindOf(status) and error_message's value |
| Responses.KindIgnoresBody | lib/chainalysis/client.rb:54-63 | two responses with one status raise the same error class whatever their bodies |
| Responses.EmptyErrorBodyRaises | lib/chainalysis/client.rb:67-68 | a non-success status with an empty body raises with "" whatever the parser |
| Responses.MalformedErrorBodyIsMessage | lib/chainalysis/client.rb:70-73 | an error body the parser rejects becomes the message verbatim |
| Responses.RateLimitedScenario | lib/chainalysis/client.rb:60-71 | 429 with {"message": "slow down"} raises RateLimitError with "slow down" |
| Requests.Headers | lib/chainalysis/client.rb:31-34 | exactly the three headers Token (the API key), Accept and Content-Type, both application/json |
| Requests.GetRequest | lib/chainalysis/client.rb:76-82 | a GET with no body, on the admin root exactly when `admin`, whose params are set only when given |
| Requests.PostRequest | lib/chainalysis/client.rb:84-89 | a POST on the base root without query; the body is omitted exactly when it is empty and is otherwise the given value |
| Requests.DeleteRequest | lib/chainalysis/client.rb:91-94 | a DELETE on the base root with neither query nor body |
| Requests.PostSendsBodyUnlessEmpty | lib/chainalysis/client.rb:86 | an empty hash body sends nothing (never "{}"), a non-empty one is sent |
| HashLiterals.EvalKeys | lib/chainalysis/client.rb:196-202 | a key is in the evaluated literal exactly when some element of the literal binds it |
| HashLiterals.EvalLastWins | lib/chainalysis/client.rb:196-202 | the value under a key is the one given by the last element binding it, so `**options` spread last wins |
| Paths.SegmentsOfJoin | lib/chainalysis/client.rb:135 | splitting slash-free parts joined with '/' gives the parts back |
| V1.PageQuery | lib/chainalysis/client.rb:104-109 | IsPageQuery: keys are a subset of {limit, offset}; each present exactly when its argument is truthy, with that argument as value |
| V1.BuildPageParams | lib/chainalysis/client.rb:105-107 | the conditional assignments build exactly PageQuery(limit, offset) |
| V1.PageQueryIsDetermined | lib/chainalysis/client.rb:104-109 | any hash with the promised keys and values is PageQuery: no other key is ever added |
| V1.ZeroLimitIsSent | lib/chainalysis/client.rb:106-107 | a limit of 0 is sent (Ruby truthiness); nil and false are dropped |
| V1.AlertStatusBody | lib/chainalysis/client.rb:164-168 | `status` always present with the given value; `comment` present exactly when truthy; no other key |
| V1.BuildAlertStatusBody | lib/chainalysis/client.rb:165-166 | the in-place updates of `body` build exactly AlertStatusBody(status, comment) |
| V1.Describe | lib/chainalysis/client.rb:100-188 | every V1 call goes to the base root under "v1/"; GETs exactly for the list, alert and user reads, DELETEs exactly for the two address deletions; list calls carry PageQuery; pass-through bodies are posted unless empty; assign_alert posts {alertAssignee}; update_alert_status posts AlertStatusBody; every endpoint's path is its template with the identifiers interpolated verbatim (the two deletions through WithdrawalAddressPath and DepositAddressPath) |
| V1.WithdrawalAddressPathSegments | lib/chainalysis/client.rb:134-136 | with slash-free identifiers the path splits into v1/users/{user_id}/withdrawaladdresses/{asset}/{address} |
| V1.WithdrawalAddressPathInjective | lib/chainalysis/client.rb:134-136 | with slash-free identifiers, equal paths mean equal identifiers |
| V1.DepositAddressPathSegments | lib/chainalysis/client.rb:150-152 | with slash-free identifiers the path splits into v1/users/{user_id}/depositaddresses/{asset}/{address} |
| V1.DepositAddressPathInjective | lib/chainalysis/client.rb:150-152 | with slash-free identifiers, equal deposit paths mean equal identifiers |
| V1.UnescapedIdentifiersCollide | lib/chainalysis/client.rb:134-136 | without escaping, ("BTC/x", "y") and ("BTC", "x/y") issue the same DELETE |
| V2.TransferBody | lib/chainalysis/client.rb:193-204 | keys are network, asset, transferReference, direction plus every extra; network, asset, direction are the arguments; transferReference is the argument unless an extra of that name replaces it; every extra appears with its value |
| V2.TransferLiteralEvaluates | lib/chainalysis/client.rb:196-202 | the register_transfer literal evaluates to the four renamed fields overridden by the extras |
| V2.AttemptBody | lib/chainalysis/client.rb:206-220 | keys are network, asset, address, attemptIdentifier, assetAmount, attemptTimestamp plus every extra; the first three are the arguments; the camelCase three are the arguments unless an extra replaces them; every extra appears |
| V2.AttemptLiteralEvaluates | lib/chainalysis/client.rb:210-218 | the register_withdrawal_attempt literal evaluates to the six renamed fields overridden by the extras |
| V2.FormatParams | lib/chainalysis/client.rb:222-224 | params are nil exactly when format_type is falsy, else exactly {format_type} |
| V2.Describe | lib/chainalysis/client.rb:193-266 | the admin root exactly for get_internal_users; POST exactly for the two registrations with TransferBody / AttemptBody; no DELETE; get_transfer and get_withdrawal_attempt carry FormatParams; every other GET has empty params; every endpoint's path is its template with the identifier interpolated verbatim |
| V2.PathsAreVersioned | lib/chainalysis/client.rb:193-262 | every V2 path except organization/users starts with "v2/" |
| V2.RegisterTransferScenario | lib/chainalysis/client.rb:193-204 | a received transfer with no extras posts exactly {network, asset, transferReference, direction} |
| V2.ExtraOverridesMappedField | lib/chainalysis/client.rb:196-202 | an extra named transferReference replaces the mapped value |
| Clients.BaseClient.constructor | lib/chainalysis/client.rb:22-26 | stores the credential, adapter and stubs; no connection exists yet |
| Clients.BaseClient.Config | lib/chainalysis/client.rb:30-46 | a connection is configured with its root's URL, the three headers for this API key, and this client's adapter and stubs |
| Clients.BaseClient.Client | lib/chainalysis/client.rb:30-37 | the base connection is built on first use and the same object is returned afterwards |
| Clients.BaseClient.AdminClient | lib/chainalysis/client.rb:39-46 | the admin connection is built on first use and the same object is returned afterwards |
| Clients.BaseClient.Perform | lib/chainalysis/client.rb:76-94 | the descriptor goes over the connection of its root and the outcome is handle_response of the reply; only that connection is memoised: an existing one is kept, a missing one is built fresh |
| Clients.BaseClient.CallV1 | lib/chainalysis/client.rb:98-189 | a V1 endpoint call sends V1.Describe over the base connection and never creates the admin connection |
| Clients.BaseClient.CallV2 | lib/chainalysis/client.rb:192-267 | a V2 endpoint call sends V2.Describe; only get_internal_users touches the admin connection; an existing connection is kept and one built now is fresh |
| Clients.Client.constructor | lib/chainalysis/client.rb:22-26 | the facade stores the credential, adapter and stubs; no sub-client exists yet |
| Clients.Client.WithDefaults | lib/chainalysis/client.rb:22-26 | `Client.new(api_key:)` takes the default adapter, as read at construction, and no stubs |
| Clients.Client.V1 | lib/chainalysis/client.rb:271-273 | built once as a V1 client sharing api_key, adapter and stubs; the same usable (Valid) object on every later call |
| Clients.Client.V2 | lib/chainalysis/client.rb:275-277 | built once as a V2 client sharing api_key, adapter and stubs; the same usable (Valid) object on every later call |
| Clients.MemoisedClientIsUsable | lib/chainalysis/client.rb:271-273 | the V1 client returned by a later `v1` access is still a working client: a call through it is sent over the facade's base configuration and classified |
| Clients.ConnectionsAreReused | lib/chainalysis/client.rb:30-37 | two V2 calls on the base root go over one connection, built fresh by the first |
| Clients.RepeatedAccessIsMemoised | lib/chainalysis/client.rb:271-277 | two accesses of v1 return one object, distinct from v2, both with the facade's key |

## Left out

- Faraday itself: building connections, adapters, stubs, attaching headers, joining the root URL with the path and encoding the query string. A connection is the configuration it is built from (`ConnectionConfig`).
- JSON.parse and JSON.generate: parsing is a parameter, generation is not modelled (the descriptor holds the value to serialise). Floats and duplicate-key JSON are outside `Value`.
- Key order: `Value.Hash` is a map, so the insertion order of a Ruby Hash, which `JSON.generate` follows (for instance the key order of the `register_transfer` body), is not captured.
- `error_message` on a body that parses to an array or scalar: Ruby's `#[]` on those (TypeError, NoMethodError, substring lookup) is not modelled; the outcome is `NonHashErrorBody`.
- The exception message string: the model keeps the value passed to `raise`; the `to_s` Exception#message applies to a non-string `message` or `error` field is left out.
- Network and transport failures, timeouts and retries: the code handles none of them.
- Interpolation of non-string identifiers (`to_s`): identifiers are strings.
- `post_request` on a body that is not a string, array or hash (`nil.empty?` raises NoMethodError): excluded by `V1.Call.WellFormed`.
- Non-symbol keys in `**options` (allowed by newer Ruby versions), which could sit beside a symbol key of the same name.
- The facade `Client` also inherits `client`/`admin_client` and the request helpers; they are protected and the facade never calls them, so they are not modelled on `Clients.Client`.
- The request helpers are not separate methods on `BaseClient`: a call is modelled as its descriptor (`Requests`, `V1.Describe`, `V2.Describe`) sent by `BaseClient.Perform`.
- The `VERSION` constant: the library never sends or reads it, so it is not modelled.
- spec/lib/chainalysis_spec.rb replays recorded server responses; that is server behaviour, not client logic.
