# Hunter.io client — a Dafny model

This project models the request-shaping and response-reading core of the
`hunter_client` package, a thin Python client for the Hunter.io REST API.
Each client operation takes the HTTP response it would receive as an input.
It reports either the validation error it raises before any request is
built, or the one GET request it issues together with what that request
yields.

- The request is a URL, an ordered query-parameter map and a timeout.
- What the request yields is either the parsed JSON body or a `HunterError`.

Modules:

- `Wrappers` defines `Option`.
- `Text` models Python's `rstrip`, `lstrip` and `strip` over a set of
  characters.
  - It includes the exact set of characters for which `str.isspace()` holds.
  - It models the blank test `not s or not s.strip()`.
  - It models `str(n)` for status codes, together with its inverse.
- `OrderedDict` models a Python `dict` as a sequence of entries in insertion
  order.
  - `d.get(k)` is `Get`.
  - `d[k] = v` is `Assign`.
  - `d.update(p)` is the method `Update`, a loop that assigns `p`'s entries
    one by one. It is proved against the function `Updated`.
- `Http` models the response.
  - `Response` is the status code, the body text, and the outcome of
    `response.json()`, which is `None` when parsing fails.
  - `ErrorMessage` is `_extract_error_message`.
  - `Classify` is the status and JSON handling of `_perform_get`.
- `Client` models the rest.
  - The URL join.
  - The allow-lists and the allow-list filtering.
  - `_perform_get` as the method `PerformGet`. It builds `{"api_key": key}`
    as a local sequence value and rebinds that local to the result of
    `Update` with the caller's parameters. The Python dict is a fresh local
    too, so no caller can observe the difference.
  - The frozen `HunterClient` record, whose methods are `discover`,
    `domain_search`, `email_finder`, `search_companies`,
    `emails_for_domain`, `guess_email` and `_get`.
  - `emails_for_domain` calls the request executor directly with
    `{domain, limit, offset}`, so `domain` is the first key after
    `api_key`. Had it gone through `domain_search`, `domain` would come
    last. The model follows the direct call.

## Model

| member | source | states |
|---|---|---|
| Text.RStrip | hunter_client/client.py:84 | `rstrip` never lengthens the string, and what it keeps does not end in a character of the strip set |
| Text.RStripPrefix | hunter_client/client.py:84 | `base_url.rstrip("/")` is a prefix of the base URL |
| Text.RStripDropped | hunter_client/client.py:84 | every character `rstrip` drops is in the strip set |
| Text.LStrip | hunter_client/client.py:84 | `lstrip` never lengthens the string, and what it keeps does not start with a character of the strip set |
| Text.LStripSuffix | hunter_client/client.py:84 | `endpoint.lstrip("/")` is a suffix of the endpoint |
| Text.LStripDropped | hunter_client/client.py:84 | every character `lstrip` drops is in the strip set |
| Text.RStripAppend | hunter_client/client.py:84 | appending more strip characters does not change the result of `rstrip` |
| Text.LStripPrepend | hunter_client/client.py:84 | prepending more strip characters does not change the result of `lstrip` |
| Text.Strip | hunter_client/client.py:177 | `strip` never lengthens the string, and what it keeps neither starts nor ends with a character of the strip set |
| Text.StripEmptyIff | hunter_client/client.py:177 | `s.strip(cs)` is empty exactly when every character of `s` is in `cs` |
| Text.IsBlank | hunter_client/client.py:177 | `not s or not s.strip()` holds exactly when every character of `s` is whitespace, so the empty string is blank |
| Text.Decimal | hunter_client/client.py:90 | `str(status)` is a non-empty run of decimal digits with no leading zero except for 0 |
| Text.DecimalOfDigits | hunter_client/client.py:90 | a run of digits without a leading zero is exactly what `str` writes for its value |
| Text.DecimalRoundTrip | hunter_client/client.py:90 | the digits `str(n)` writes read back as `n` |
| OrderedDict.Get | hunter_client/client.py:86 | `d.get(k)` finds nothing in an empty dict and finds the value of the first entry when that entry is for `k` |
| OrderedDict.GetSome | hunter_client/client.py:85-86 | `d.get(k)` finds a value exactly when `k` is a key of `d` |
| OrderedDict.DictExt | hunter_client/client.py:85-86 | a dict is determined by its key order and its lookups |
| OrderedDict.Assign | hunter_client/client.py:137 | after `d[k] = v`, `d.get(k)` is `v`, and the dict grew by at most one entry |
| OrderedDict.AssignKeys | hunter_client/client.py:137 | `d[k] = v` keeps the key order when `k` is present and appends `k` otherwise |
| OrderedDict.AssignNew | hunter_client/client.py:137 | assigning a new key appends the entry `(k, v)` |
| OrderedDict.AssignGet | hunter_client/client.py:137 | after `d[k] = v`, `k` maps to `v` and every other key to what it did before |
| OrderedDict.AssignDistinct | hunter_client/client.py:137 | assignment keeps the keys distinct |
| OrderedDict.Updated | hunter_client/client.py:86 | `d.update(p)` never shrinks `d` and adds at most one entry per entry of `p` |
| OrderedDict.UpdatedDistinct | hunter_client/client.py:86 | `d.update(p)` keeps the keys distinct |
| OrderedDict.UpdatedGet | hunter_client/client.py:86 | after `d.update(p)` a key of `p` has `p`'s value, and any other key keeps `d`'s value or stays absent |
| OrderedDict.UpdatedKeys | hunter_client/client.py:86 | after `d.update(p)` the keys are `d`'s keys in place, then `p`'s new keys in `p`'s order |
| OrderedDict.UpdatedDisjoint | hunter_client/client.py:86 | when no key is shared, `d.update(p)` is `d` followed by `p` |
| OrderedDict.Update | hunter_client/client.py:86 | the update loop, one entry at a time, produces `Updated(d, p)`: distinct keys, `p`'s values win, `d`'s order, then `p`'s new keys |
| Http.TruthyField | hunter_client/client.py:103 | a field counts exactly when the payload is an object holding a non-empty string under that key, and then its value is that string |
| Http.ErrorPayload | hunter_client/client.py:99-102 | the payload is the parsed body, and a body that is not JSON gives a payload with no field to read |
| Http.ErrorMessage | hunter_client/client.py:98-103 | a body that is not JSON gives the response text, and the message is empty only when the text is |
| Http.ErrorMessageFromObject | hunter_client/client.py:103 | for a body that parses to an object: a non-empty string under `errors` is the message; failing that, a non-empty string under `message`; failing both, the response text |
| Http.ErrorMessageNotObject | hunter_client/client.py:99-103 | a body that parses to something other than an object gives the response text |
| Http.StatusError | hunter_client/client.py:90 | in `f"{status}: {msg}"` the leading run of digits is exactly the status, whatever the message |
| Http.StatusErrorRoundTrip | hunter_client/client.py:90 | `f"{status}: {msg}"` splits back into exactly `status` and `msg` |
| Http.StatusErrorParseInjective | hunter_client/client.py:90 | only the text `f"{status}: {msg}"` parses back to `(status, msg)` |
| Http.Classify | hunter_client/client.py:88-95 | success exactly when the status is below 400 and the body parses, returning the parsed body unchanged; below 400 with an unparseable body gives "Invalid JSON response" |
| Http.InvalidJsonNotStatusError | hunter_client/client.py:94 | the invalid-JSON message is never read as a status error |
| Http.ClassifyStatusError | hunter_client/client.py:88-90 | a status of 400 or more is always a `HunterError` whose message parses back to exactly that status and the extracted message |
| Http.NotFoundExample | hunter_client/client.py:88-103 | a 404 with body `{"errors": "not found"}` raises `HunterError("404: not found")` |
| Client.JoinUrl | hunter_client/client.py:84 | the separating `/` follows the stripped base, and neither character next to it is `/` |
| Client.JoinUrlTolerant | hunter_client/client.py:84 | extra trailing slashes on the base and extra leading slashes on the endpoint do not change the URL |
| Client.JoinUrlClean | hunter_client/client.py:84 | a base with no trailing slash and an endpoint with no leading slash are joined with exactly one `/` |
| Client.JoinUrlExample | hunter_client/client.py:84 | `https://api.hunter.io/v2/` joined with `/discover` is `https://api.hunter.io/v2/discover` |
| Client.FilterAllowed | hunter_client/client.py:114-116 | the filtered arguments hold no more entries than the allow-list has keys |
| Client.FilterGet | hunter_client/client.py:114-116 | an allowed key is forwarded with the caller's value when the caller gave one; no other key is forwarded |
| Client.FilterKeys | hunter_client/client.py:114-116 | the forwarded keys are the allowed keys the caller gave, in allow-list order |
| Client.FilterDistinct | hunter_client/client.py:114-116 | with a duplicate-free allow-list, the forwarded keys are distinct |
| Client.FilterUnique | hunter_client/client.py:114-116 | the three filtering properties determine the filtered dict |
| Client.FilterIgnoresOthers | hunter_client/client.py:134-135 | arguments that agree on the allowed keys filter to the same dict |
| Client.AllowListsWellFormed | hunter_client/client.py:55-74 | neither allow-list repeats a key or admits `api_key`, and the domain-search list does not admit `domain` |
| Client.FilteredWellFormed | hunter_client/client.py:133-137 | filtered arguments have distinct keys and never carry a key outside the allow-list |
| Client.KeyOnly | hunter_client/client.py:85 | the starting query holds exactly the key `api_key`, with the client's key as its value |
| Client.QueryOwnKey | hunter_client/client.py:85-86 | in the query sent, `api_key` holds the caller's own value when there is one, else the client's key |
| Client.QueryOtherKey | hunter_client/client.py:85-86 | in the query sent, every other key is looked up exactly as in the caller's parameters |
| Client.QueryMerged | hunter_client/client.py:85-86 | the query has distinct keys, the merged lookups, and `api_key` first, followed by the caller's other keys in order |
| Client.QueryWithoutOwnKey | hunter_client/client.py:85-86 | without a caller `api_key`, the query is `api_key` followed by the caller's parameters unchanged |
| Client.PerformGet | hunter_client/client.py:77-95 | the request goes to the joined URL with the updated query and the given timeout, and the result is the response's classification |
| Client.DiscoverQuery | hunter_client/client.py:113-124 | in `discover`'s query, an allowed key carries the caller's value and no key outside the allow-list but `api_key` appears |
| Client.DomainSearchQueryParams | hunter_client/client.py:133-137 | in `domain_search`'s query, `api_key` comes first and, when a domain is given, `domain` comes last with that value |
| Client.DomainSearchQuery | hunter_client/client.py:127-145 | in `domain_search`'s query, `domain` appears exactly when a domain is given, with that value; allowed keys carry the caller's values; nothing else but `api_key` appears |
| Client.HunterClient.Discover | hunter_client/client.py:113-124 | always sends to `discover`: `api_key`, then the filtered arguments in allow-list order |
| Client.HunterClient.DomainSearch | hunter_client/client.py:127-145 | always sends to `domain-search`: `api_key`, the filtered arguments, then `domain` when one is given |
| Client.HunterClient.EmailFinder | hunter_client/client.py:148-166 | sends to `email-finder` exactly `api_key`, `domain`, `first_name`, `last_name` |
| Client.HunterClient.SearchCompanies | hunter_client/client.py:169-189 | rejects a blank query, then a non-positive limit, then a negative offset, in that order and with no request; otherwise sends exactly `query`, `limit`, `offset` to `discover` |
| Client.HunterClient.EmailsForDomain | hunter_client/client.py:191-211 | the same three checks on domain, limit and offset; otherwise sends exactly `domain`, `limit`, `offset` to `domain-search` |
| Client.HunterClient.GuessEmail | hunter_client/client.py:213-230 | rejects a blank domain, then a blank first name, then a blank last name; otherwise one `email-finder` request with exactly the three names |
| Client.HunterClient.GetEndpoint | hunter_client/client.py:232-240 | sends to the joined URL a query merged as `QueryMerged` states, so a caller `api_key` overrides the client's |

## Left out

- `requests.get` (hunter_client/client.py:87) is not modelled: the network,
  the timeout's effect and transport exceptions. Each operation takes the
  response as a parameter and reports the request (URL, query, timeout)
  that it passes to the transport.
- JSON parsing (`response.json()`) is a foreign library. Only its outcome is
  modelled: a parsed value, or `None` for the `ValueError` case. JSON
  numbers are integers here.
- Http.TruthyField: only a non-empty JSON string counts as a truthy
  `errors` or `message`. Python would also return other truthy values,
  such as a non-empty list or a number, and format them into the message.
- Http.ErrorMessageNotObject: a JSON error body that is not an object
  would make `payload.get` raise `AttributeError`. The model instead
  treats such a payload as having no fields and falls back to the
  response text.
- `TypedDict` casts and `@dataclass(frozen=True)` have no runtime
  behaviour beyond immutable configuration. The client is a Dafny
  datatype with default field values.
- Python keyword-argument values are modelled as strings or integers
  (`Value`). A `bool` passed as `limit` or `offset` would compare like an
  integer in Python; the convenience methods here take `int`.
- The parameters passed to `_get` and `_perform_get` are required to have
  distinct keys, as every Python mapping does.
