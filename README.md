# REST API integration plugin: request assembly

This project models the request-assembly core of `RestApiIntegrationPlugin`.
That core turns a datasource configuration (base URL, default headers and
query parameters) and an action configuration (HTTP method, path, per-call
headers and parameters, body fields) into one outbound request.

- `execute` rejects a missing HTTP method and parses `urlBase ++ (urlPath ?? "")` as a URL.
- It then appends the effective parameters, datasource first, to the URL's query list.
  Their order is kept and duplicates are kept.
- It folds the concatenated header list into a case-sensitive header object.
  The last entry with a given key wins. A null slot, or a slot with a missing or empty key, is skipped.
- It adds a default `User-Agent` unless some header key already lowercases to `user-agent`.
- Finally it assembles the transport options.
- `getRequest` applies the same method guard. It hands the raw concatenated lists and the URL text to the cURL renderer.
- `dynamicProperties` and `escapeStringProperties` return constant field lists.

Files:

- `wrappers.dfy` (module `Wrappers`): `Option` (JavaScript's absent value and `??`) and `Result` (a thrown error).
- `key_value.dfy` (module `KeyValue`): configured properties, the query-parameter filter, the header fold, the User-Agent default, and the lemmas about them.
- `rest_api_plugin.dfy` (module `RestApiPlugin`): the configurations, the URL object (a class whose query list is appended in place), the `Execute` method with its two loops, `GetRequest`, and the field lists.

External collaborators are parameters of the model:

- The URL parser is `parse: string -> Result<UrlRecord, string>`. A failure carries the parser's message.
- `paramHasKeyValue` is `valid: Property -> bool`.
- `REST_API_DEFAULT_USER_AGENT` is the string `defaultUserAgent`.
- The process-wide limits are a `PluginConfiguration` value.

Unlike query parameters, headers are not passed through the validity predicate (src/index.ts:43-49): the header fold checks only that the slot and its key are truthy.
It never reads the `enabled` flag either.
The model follows the code, and `FoldHeadersIgnoresEnabled` states the consequence.

## Model

| member | source | states |
|---|---|---|
| `KeyValue.EffectiveParams` | src/index.ts:35-39 | the merge never appends more query pairs than there are configured entries |
| `KeyValue.EffectiveParamsConcat` | src/index.ts:35-39 | the pairs appended for `ds ++ action` are those of the datasource list followed by those of the action list |
| `KeyValue.EffectiveParamsMember` | src/index.ts:37-38 | a pair is appended if and only if some present entry accepted by the validity predicate produces it |
| `KeyValue.EffectiveParamsKeepAll` | src/index.ts:37-39 | when every entry is accepted, the appended pairs are exactly the entries in order, duplicates included |
| `KeyValue.SetHeader` | src/index.ts:46-48 | a null slot or a missing/empty key leaves the object unchanged; otherwise exactly that key is added or overwritten with the entry's value (possibly undefined); every other key keeps its value |
| `KeyValue.FoldHeaders` | src/index.ts:43-49 | the header object folded from a list never holds the empty key |
| `KeyValue.FoldHeadersConcat` | src/index.ts:43-49 | folding `ds ++ action` equals the datasource object overridden key by key by the action object |
| `KeyValue.FoldHeadersLastWins` | src/index.ts:45-49 | a key is present if and only if some entry writes it exactly (case-sensitive), and its value is that of the last entry writing it |
| `KeyValue.FoldHeadersIgnoresEnabled` | src/index.ts:46-47 | lists that agree on slots, keys and values fold to the same object whatever their `enabled` flags |
| `KeyValue.WithDefaultUserAgent` | src/index.ts:55-61 | afterwards some key lowercases to `user-agent`; an object that had one is unchanged; otherwise exactly `User-Agent` is added with the default value and every other entry is unchanged |
| `KeyValue.UserAgentDefaultedIff` | src/index.ts:43-61 | the folded object has a User-Agent key (any case) if and only if some non-skipped entry of the list has such a key, so the default is added exactly when none does |
| `RestApiPlugin.Url.constructor` | src/index.ts:30 | the URL object starts with the parsed location and query list |
| `RestApiPlugin.Url.Append` | src/index.ts:38 | `searchParams.append` adds one pair at the end of the query list |
| `RestApiPlugin.Execute` | src/index.ts:22-73 | a falsy method fails with "No HTTP method specified for REST API step"; a parse failure fails with "URL is not valid, " and the parser's message; otherwise the options hold the parsed URL with the effective merged params appended, method, defaulted folded headers, `arraybuffer`, the timeout and both size limits |
| `RestApiPlugin.GetRequest` | src/index.ts:84-111 | fails with "HTTP method not specified" if and only if the method is falsy; otherwise passes the method, the URL text `urlBase ++ (urlPath ?? "")`, the datasource-then-action header and param lists unfiltered, and the body fields unchanged |
| `RestApiPlugin.GetRequestMatchesExecute` | src/index.ts:88-94 | both entry points apply the same method guard (this clause restates `GetRequest`'s guard; only `execute` also rejects an unparsable URL); the URL text `getRequest` shows is the text `execute` parses; the lists `getRequest` shows yield `execute`'s query pairs (datasource first) and header object (action keys override) |
| `RestApiPlugin.DynamicProperties` | src/index.ts:114-126 | nine distinct fields: every configuration field except the HTTP method and the response type |
| `RestApiPlugin.EscapeStringProperties` | src/index.ts:128-130 | exactly one field, the body |
| `RestApiPlugin.EscapedFieldsAreDynamic` | src/index.ts:114-130 | every escaped field is also a dynamic field |

## Left out

- Network execution (`executeRequest`, src/index.ts:81) is not modelled. Timeouts, size-limit enforcement and response decoding happen in an external executor. So is the action's `responseType` that is passed to it. `Execute` returns the options that are handed to body injection.
- Body injection (`updateRequestBody`, src/index.ts:75-79) is not modelled. It is a foreign routine that mutates the headers and options in place, and its code is not part of this model.
- The rendered cURL string (`makeCurlString`) is not modelled. `GetRequest` returns the arguments passed to the renderer.
- The WHATWG URL parser and `url.toString()` are not modelled. The parser is a parameter, and a parsed URL is an opaque location plus its query list.
- The "Headers failed to transform" error (src/index.ts:51-53) is never raised in the model. Folding values cannot throw, because there are no throwing getters.
- `metadata` and `test` (src/index.ts:132-138) are not modelled. They are no-op hooks. Async behaviour and axios typing are left out as well.
- `paramHasKeyValue` is modelled as a predicate on present properties. A null or undefined slot in a parameter list is treated as rejected.
- `null` and `undefined` are both modelled as `None`. A template literal would render a `null` base URL as "null", not "undefined".
- `toLowerCase` is modelled on ASCII letters only. No non-ASCII character lowercases to a letter of `user-agent` (the Kelvin sign lowercases to `k`, which it does not contain), so this decides the User-Agent test exactly as `toLowerCase` does.
- The order of the header object's keys is not modelled: the header object is a `map`. In JavaScript its keys keep insertion order (an overwritten key keeps its first position), which fixes the order in which headers are sent; nothing in this core reads that order.
- `KeyValue.SetHeader`: a header key `__proto__` is modelled as an ordinary key. In JavaScript, assigning a string to it on a plain object is silently ignored.
- `RestApiPlugin.DynamicProperties`: the contract states which fields are listed, that each appears once, and that there are nine of them. The fixed order appears only in the definition. The string values of the `RestApiFields` identifiers are not part of this model.
- The HTTP method is passed through as a string. The cast to axios' `Method` type is not modelled.
