# Enom reseller client — request assembly, modelled in Dafny

This project models the core of a PHP client for the Enom reseller HTTP API:
the way a client object assembles each request. An `HttpClient` holds the
reseller URL, the account login and password, and one mutable `payload`
dictionary. Command wrappers (`Registration`, `Account`) validate their
arguments, write keys into that shared payload in place, and call
`makeRequest`. `makeRequest` copies the payload, injects the four reserved
parameters (`command`, `uid`, `pw`, `responsetype=XML`), builds the URL
`<url>/interface.asp?<query>`, records the request, the raw response, the
HTTP status and the parsed document on the client, and then throws an
`EnomException` carrying `errors/Err1` when the document's `ErrCount` is
positive.

Files:

- `wrappers.dfy` — `Option`.
- `php_strings.dfy` — the PHP built-ins the wrappers use: `explode`/`implode`
  with a one-character separator, `ltrim`/`rtrim`/`trim`, `empty()` on strings,
  and decimal rendering of integers (for the `ns1..nsN` keys), with their
  round trips and characterisations.
- `http_client.dfy` — the `HttpClient` class (fields, constructor,
  `MakeRequest`, getters and setters), the injected parameter map `Inject`,
  and the error decision `Decide`.
- `registration.dfy` — the domain-registration commands. Each command's effect
  on the payload is a function (`CheckUpdate`, `BatchCheckUpdate`,
  `NameSuggestionsPayload`, `ExtAttributesUpdate`, `PurchaseUpdate`). The
  methods of class `Registration` perform the writes in place, as the PHP does,
  and are proved to produce exactly that payload before the one request.
  `purchase`'s `foreach` over the nameservers is a `while` loop with invariants
  (`SetNameServers`).
- `account.dfy` — the account commands. Only `getOrderList` writes keys. Every
  method returns the `Account` object itself.

Modelling choices:

- PHP inheritance (`Registration extends HttpClient`, `Account extends
  HttpClient`) becomes composition. A `Registration` or `Account` holds the
  `HttpClient` it acts on in `client`, and its methods modify that client.
- The transport is a parameter. cURL, `http_build_query` and
  `simplexml_load_string` are the three functions of a `Transport` value that
  every request is given: the query encoder, one GET of a URL giving a body
  (`None` when `curl_exec` returns `false`) and a status code, and the XML
  parser (`None` when the body is not XML).
- The parsed document is reduced to what the client reads from it. That is
  the `ErrCount` element, if present, already cast with `(int)`, and the text
  of `errors/Err1`.
- A payload is a `map<string, Value>`, with `Value = Str | Int | Null`. A
  missing `explode` piece (a domain with no dot) is stored as `Null` under
  `tld`, as PHP stores `null` there. That overwrites any earlier `tld`.
- Client fields that PHP leaves `null` before the first request, or sets to
  `false` after a failed transfer or parse, are `None`.
- PHP default arguments are Dafny default arguments, so a call can leave them
  out as in PHP. The transport comes first, since it has no default. The
  `...ByDefault` methods make the all-defaults calls on a new client.
- Registration commands return `Returned(())`. The code returns the null that
  `makeRequest` returns. This includes `getConfirmationSettings` and
  `getExtAttributes`, which read a property of that null.

Behaviour of the PHP code that the model keeps:

- A body that is not XML, or a failed transfer, raises nothing. `isset` on
  `false` is false, so `Decide(None) == Completed`.
- A domain without a dot is not rejected. It is sent with `sld` set to the
  whole domain and `tld` set to null.
- Registration commands return null, not the parsed document.
- The payload is shared across calls and never cleared. Keys the caller
  stored under the reserved names are overridden, not refused.

## Model

| member | source | states |
|---|---|---|
| `HttpClient.HttpClient.constructor` | Services/HttpClient.php:23-48 | a new client holds exactly the given url, username and password, an empty payload, and no request or response yet |
| `HttpClient.Inject` | Services/HttpClient.php:60-65 | the sent map has the caller's keys plus the four reserved ones; `command`, `uid`, `pw` and `responsetype` are the command, login, password and "XML"; every other key keeps the caller's value |
| `HttpClient.InjectOverridesReserved` | Services/HttpClient.php:60-65 | whatever the caller stored under a reserved key has no effect on the sent map |
| `HttpClient.InjectIdempotent` | Services/HttpClient.php:60-65 | injecting again into a sent map changes nothing |
| `HttpClient.Decide` | Services/HttpClient.php:85-87 | an error is raised exactly when a document with an `ErrCount` whose integer value is > 0 was parsed, and its message is `errors/Err1` |
| `HttpClient.NoErrorWithoutPositiveCount` | Services/HttpClient.php:85-87 | no document, no `ErrCount`, or an `ErrCount` ≤ 0 gives no error |
| `HttpClient.DecideExamples` | Services/HttpClient.php:82-87 | ErrCount 0 succeeds; ErrCount 1 with Err1 "Invalid domain" fails with exactly that message; with several errors only Err1 is reported; a non-XML body raises nothing |
| `HttpClient.HttpClient.MakeRequest` | Services/HttpClient.php:58-88 | the stored payload and the credentials are unchanged (the injection works on a copy); `request` is `url + "/interface.asp?" + query(sent map)`; response, status and document are those of that one GET and are recorded whether or not an error follows; `MakeRequest` returns nothing or the `Decide` error |
| `HttpClient.SameRequestSameRecord` | Services/HttpClient.php:67-83 | against a deterministic transport, the same request from the same credentials and payload leaves identical request/response/status/document fields |
| `HttpClient.HttpClient.SetUrl` | Services/HttpClient.php:93-104 | after `setUrl(u)`, `getUrl()` is `u` and no other field changed |
| `HttpClient.HttpClient.SetUsername` | Services/HttpClient.php:109-120 | after `setUsername(u)`, `getUsername()` is `u` and no other field changed |
| `HttpClient.HttpClient.SetPassword` | Services/HttpClient.php:125-136 | after `setPassword(p)`, `getPassword()` is `p` and no other field changed |
| `HttpClient.HttpClient.SetPayload` | Services/HttpClient.php:141-152 | after `setPayload(p)`, `getPayload()` is `p` and no other field changed |
| `HttpClient.HttpClient.SetRequest` | Services/HttpClient.php:157-168 | after `setRequest(r)`, `getRequest()` is `r` and no other field changed |
| `HttpClient.HttpClient.SetResponse` | Services/HttpClient.php:173-184 | after `setResponse(r)`, `getResponse()` is `r` and no other field changed |
| `HttpClient.HttpClient.SetXmlResponse` | Services/HttpClient.php:189-200 | after `setXmlResponse(x)`, `getXmlResponse()` is `x` and no other field changed |
| `HttpClient.HttpClient.SetHttpCode` | Services/HttpClient.php:205-216 | after `setHttpCode(c)`, `getHttpCode()` is `c` and no other field changed |
| `HttpClient.HttpClient.GetUrl` | Services/HttpClient.php:93-96 | returns the url component of the client's state, the one the constructor and `setUrl` set |
| `HttpClient.HttpClient.GetUsername` | Services/HttpClient.php:109-112 | returns the username component of the client's state |
| `HttpClient.HttpClient.GetPassword` | Services/HttpClient.php:125-128 | returns the password component of the client's state |
| `HttpClient.HttpClient.GetPayload` | Services/HttpClient.php:141-144 | returns the stored payload, the one the commands write and `makeRequest` leaves unchanged |
| `HttpClient.HttpClient.GetRequest` | Services/HttpClient.php:157-160 | returns the recorded request URL |
| `HttpClient.HttpClient.GetResponse` | Services/HttpClient.php:173-176 | returns the recorded raw body |
| `HttpClient.HttpClient.GetXmlResponse` | Services/HttpClient.php:189-192 | returns the recorded parsed document |
| `HttpClient.HttpClient.GetHttpCode` | Services/HttpClient.php:205-208 | returns the recorded HTTP status |
| `PhpStrings.Explode` | Services/Commands/Domain/Registration.php:37 | `explode` yields at least one piece and no piece contains the separator |
| `PhpStrings.ImplodeExplode` | Services/Commands/Domain/Registration.php:37 | joining the pieces of `explode` with the separator gives back the original string |
| `PhpStrings.ExplodeImplode` | Services/Commands/Domain/Registration.php:63 | exploding a comma-join of comma-free parts gives back the parts |
| `PhpStrings.ImplodeEnds` | Services/Commands/Domain/Registration.php:63 | `implode`, as used at lines 63, 66, 98, 101 and 104, yields a string that starts with the first part, ends with the last, and has room for a separator between each pair of neighbours |
| `PhpStrings.ExplodeWithoutSeparator` | Services/Commands/Domain/Registration.php:37 | a string without the separator explodes into itself alone |
| `PhpStrings.ExplodeAfterPiece` | Services/Commands/Domain/Registration.php:37 | the first piece ends at the first separator and exploding resumes right after it |
| `PhpStrings.LTrim` | Services/Commands/Domain/Registration.php:136 | `ltrim` yields a suffix of its input that does not start with a listed character, after removing only listed characters |
| `PhpStrings.LTrimSplit` | Services/Commands/Domain/Registration.php:136 | `ltrim` of a run of listed characters followed by a rest that does not start with one is exactly that rest |
| `PhpStrings.LTrimIdempotent` | Services/Commands/Domain/Registration.php:136 | `ltrim` twice is `ltrim` once |
| `PhpStrings.RTrim` | Services/Commands/Domain/Registration.php:159 | `rtrim` yields a prefix of its input that does not end with a listed character, after removing only listed characters |
| `PhpStrings.RTrimSplit` | Services/Commands/Domain/Registration.php:159 | `rtrim` of a rest followed by a run of listed characters is exactly that rest |
| `PhpStrings.Trim` | Services/Commands/Domain/Registration.php:159 | `trim` yields a string that neither starts nor ends with a default whitespace character |
| `PhpStrings.TrimSplit` | Services/Commands/Domain/Registration.php:159 | `trim` of whitespace + middle + whitespace is that middle, if the middle neither starts nor ends with whitespace |
| `PhpStrings.PhpEmptyExamples` | Services/Commands/Domain/Registration.php:137 | `empty()` on a string, as used at lines 137, 160 and 183, holds for "" and "0" and fails for " ", "00", "0.0" and "false" |
| `PhpStrings.DecimalString` | Services/Commands/Domain/Registration.php:170 | an integer renders as a non-empty string of decimal digits |
| `PhpStrings.DecimalRoundTrip` | Services/Commands/Domain/Registration.php:170 | reading the decimal rendering of n back gives n |
| `PhpStrings.DecimalInjective` | Services/Commands/Domain/Registration.php:170 | distinct integers render as distinct strings |
| `Registration.WithDomain` | Services/Commands/Domain/Registration.php:37-40 | splitting a domain writes exactly the keys `sld` and `tld` and keeps every other entry |
| `Registration.DomainSplit` | Services/Commands/Domain/Registration.php:37-40 | `sld` is the text before the first dot and `tld` the text between the first and second dot; whatever follows the second dot is dropped |
| `Registration.DomainWithoutDot` | Services/Commands/Domain/Registration.php:37-40 | a domain with no dot is sent whole as `sld`, with `tld` set to null (not rejected) |
| `Registration.SecondLevelSuffixDropped` | Services/Commands/Domain/Registration.php:37-40 | "a.co.uk" gives `sld` "a" and `tld` "co" |
| `Registration.CheckUpdate` | Services/Commands/Domain/Registration.php:31-40 | an array argument is refused, with "Multiple domain name checks are not allowed"; any other domain has its first two pieces written as `sld`/`tld` |
| `Registration.BatchCheckUpdate` | Services/Commands/Domain/Registration.php:56-67 | refused exactly when both arguments are arrays, with "DomainList and Tld list is not allowed in the same request"; a domain list writes only `DomainList` (comma-joined); otherwise a TLD list writes only `SLD` and `TLDList`; with neither array the payload is left as it is |
| `Registration.BatchCheckListRecoverable` | Services/Commands/Domain/Registration.php:62-63 | the comma-joined `DomainList` holds the given comma-free domains in order |
| `Registration.TrueFalse` | Services/Commands/Domain/Registration.php:92-93 | a flag is sent as "True" exactly when it is true and as "False" exactly when it is false |
| `Registration.WithList` | Services/Commands/Domain/Registration.php:97-105 | a list is written comma-joined under its key only when it is not empty; otherwise the payload is unchanged |
| `Registration.NameSuggestionsPayload` | Services/Commands/Domain/Registration.php:89-105 | `SearchTerm`, `MaxResults`, `SpinType` are always written, `Adult`/`Premium` as "True"/"False"; each of `TldList`, `OnlyTldList`, `ExcludeTldList` is written (comma-joined) only when its list is non-empty, else the earlier entry survives |
| `Registration.NameSuggestionsKeepsOtherKeys` | Services/Commands/Domain/Registration.php:91-105 | `getNameSuggestions` changes no key besides its eight |
| `Registration.ExtAttributesUpdate` | Services/Commands/Domain/Registration.php:133-141 | leading spaces and dots are stripped; refused with "TLD cannot be empty" exactly when the rest is "" or "0"; otherwise only `tld` is written, with the stripped value |
| `Registration.ExtAttributesStripsLeadingDots` | Services/Commands/Domain/Registration.php:135-141 | a TLD preceded by dots and spaces (".co.uk", " .de") is looked up as the text after them |
| `Registration.ExtAttributesRejectsOnlyDots` | Services/Commands/Domain/Registration.php:136-139 | a TLD made only of dots and spaces is refused |
| `Registration.NsKeyInjective` | Services/Commands/Domain/Registration.php:169-171 | nameservers at different positions get different `ns` keys |
| `Registration.NsKeyNotFixed` | Services/Commands/Domain/Registration.php:164-188 | no `ns` key coincides with another key `purchase` writes |
| `Registration.NameServersWritten` | Services/Commands/Domain/Registration.php:168-171 | the loop sets `ns1..nsN` to the nameservers in list order and touches no other key |
| `Registration.Bit` | Services/Commands/Domain/Registration.php:177-180 | `(int)` of a flag is 0 or 1, and 1 exactly when the flag is true |
| `Registration.PurchaseUpdate` | Services/Commands/Domain/Registration.php:156-188 | refused with "Domain cannot be empty" exactly when the trimmed domain is "" or "0"; otherwise the payload is `PurchasePayload` of the trimmed domain |
| `Registration.PurchaseTrimsDomain` | Services/Commands/Domain/Registration.php:159-165 | surrounding whitespace is ignored: the domain is registered as its trimmed text |
| `Registration.PurchaseRejectsBlankDomain` | Services/Commands/Domain/Registration.php:159-162 | a domain made only of whitespace is refused |
| `Registration.PurchaseWritesOnly` | Services/Commands/Domain/Registration.php:163-188 | `purchase` writes exactly `sld`, `tld`, `unlockregistrar`, `renewname`, `numyears`, then `ns1..nsN` or else `usedns`, and `domainpassword` only for a non-empty password; every other entry is kept |
| `Registration.PurchaseSetsValues` | Services/Commands/Domain/Registration.php:163-188 | the flags are written as 0/1, `numyears` as given, the password only when non-empty, and `ns1..nsN` in list order or else `usedns` = "default" |
| `Registration.PurchaseKeepsEarlierDnsKeys` | Services/Commands/Domain/Registration.php:167-174 | a purchase with nameservers still sends an earlier `usedns` and any earlier `ns` key beyond its own count |
| `Registration.IdnCodesResendsSld` | Services/Commands/Domain/Registration.php:201-206 | after `check`, the `getIDNCodes` request sends the old `sld` beside its own `tld` |
| `Registration.CheckThenIdnCodes` | Services/Commands/Domain/Registration.php:201-208 | through the commands themselves: check "sld.tld" then `getIDNCodes(t)` sends `command` GetIDNCodes, `sld` and `tld` = t |
| `Registration.BatchCheckByDefault` | Services/Commands/Domain/Registration.php:56-67 | with the default `$tlds = false`, a domain list sends only `DomainList` (comma-joined) beside the reserved keys, and a single SLD writes nothing |
| `Registration.NameSuggestionsByDefault` | Services/Commands/Domain/Registration.php:89-95 | `getNameSuggestions($search)` sends exactly the five fixed keys: `MaxResults` 50, `SpinType` 0, `Adult` "False", `Premium` "True", and no TLD list |
| `Registration.PlainDomainTrimmed` | Services/Commands/Domain/Registration.php:159-162 | a domain "sld.tld" with no whitespace at its ends is its own `trim` and is not empty |
| `Registration.PurchaseDefaultPayload` | Services/Commands/Domain/Registration.php:156-188 | `purchase("sld.tld")` on an empty payload writes exactly `sld`, `tld`, `usedns` = "default", `unlockregistrar` = 0, `renewname` = 0 and `numyears` = 1 |
| `Registration.PurchaseByDefault` | Services/Commands/Domain/Registration.php:156-194 | through the method with every default: one year, no auto-renewal, the default DNS, registrar lock kept, no password, and no other key besides the reserved ones |
| `Registration.Registration.constructor` | Services/HttpClient.php:43-48 | a new registration client has the given credentials and an empty payload |
| `Registration.Registration.Check` | Services/Commands/Domain/Registration.php:31-46 | an array is refused before the payload or the client is touched; otherwise `sld`/`tld` are written and one `Check` request is sent with the payload |
| `Registration.Registration.BatchCheck` | Services/Commands/Domain/Registration.php:56-73 | as `BatchCheckUpdate`, then one `Check` request in every non-refused case; `tlds` defaults to none, as `$tlds = false` |
| `Registration.Registration.GetNameSuggestions` | Services/Commands/Domain/Registration.php:89-111 | the payload becomes `NameSuggestionsPayload`, then one `GetNameSuggestions` request; the arguments default to 50, 0, three empty lists, false and true, as in PHP |
| `Registration.Registration.GetConfirmationSettings` | Services/Commands/Domain/Registration.php:118-124 | the payload is unchanged; one `GetConfirmationSettings` request; returns null |
| `Registration.Registration.GetExtAttributes` | Services/Commands/Domain/Registration.php:133-147 | refused before any request when the stripped TLD is empty; otherwise writes `tld` and sends one `GetExtAttributes` request |
| `Registration.Registration.SetNameServers` | Services/Commands/Domain/Registration.php:168-171 | the `foreach` leaves the payload `WithNameServers` of the old one and no other field changed |
| `Registration.Registration.Purchase` | Services/Commands/Domain/Registration.php:156-194 | refused before any write when the trimmed domain is empty; otherwise the payload becomes `PurchasePayload` and one `Purchase` request is sent; the arguments default to 1 year, false, no nameservers, false and no password, as in PHP |
| `Registration.Registration.GetIDNCodes` | Services/Commands/Domain/Registration.php:201-209 | only `tld` is overwritten; one `GetIDNCodes` request with every earlier key still present |
| `Account.OrderListPayload` | Services/Commands/Account.php:61-71 | `start` is always written; `begindate` and `enddate` only when given (not null), else an earlier value survives; no other key changes |
| `Account.OrderListDatesPersist` | Services/Commands/Account.php:65-71 | dates given to one `getOrderList` are sent again by a later call that gives none |
| `Account.Account.constructor` | Services/HttpClient.php:43-48 | a new account client has the given credentials and an empty payload |
| `Account.Account.GetAccountInfo` | Services/Commands/Account.php:30-36 | payload unchanged, one `GetAccountInfo` request, returns the client itself unless the request raised |
| `Account.Account.GetServiceContact` | Services/Commands/Account.php:43-49 | payload unchanged, one `GetServiceContact` request, returns the client itself unless the request raised |
| `Account.Account.GetOrderList` | Services/Commands/Account.php:61-77 | the payload becomes `OrderListPayload`, one `GetOrderList` request, returns the client itself; `start` defaults to 1 and both dates to null, as in PHP |
| `Account.OrderListByDefault` | Services/Commands/Account.php:61-77 | `getOrderList()` on a new client sends `start` = 1 and no `begindate` or `enddate`, beside the reserved keys |
| `Account.Account.GetBalance` | Services/Commands/Account.php:84-90 | payload unchanged, one `GetBalance` request, returns the client itself unless the request raised |
| `Account.Account.GetConfirmationSettings` | Services/Commands/Account.php:97-103 | payload unchanged, one `GetConfirmationSettings` request, returns the client itself unless the request raised |
| `Account.Account.GetAllDomains` | Services/Commands/Account.php:110-116 | payload unchanged, one `GetAllDomains` request, returns the client itself unless the request raised |

## Left out

- cURL itself (Services/HttpClient.php:70-78): the options, the
  `SOGEnomBundle` user agent and the `curlInfo` array. This is network I/O.
  The transfer is the `fetch` function of the supplied `Transport`.
- The `curlInfo` field with `getCurlInfo`/`setCurlInfo` are not modelled. The
  only part of `curlInfo` the client reads, `http_code`, is kept as `httpCode`.
- Percent-encoding by `http_build_query`. It is a foreign library call, so the
  query string is the uninterpreted `buildQuery` function of the sent map. This
  includes that function's omission of null values.
- XML parsing by `simplexml_load_string`, the `(int)` cast of a
  `SimpleXMLElement`, and property navigation such as `$data->Attributes`.
  These are foreign. The parser yields only the cast `ErrCount` and the `Err1`
  text.
- The `EnomException` class is not part of this model. Its throw is the
  `ApiError`/`EnomError` outcome carrying the message.
- The PHP warnings raised for a missing `explode` piece or for reading a
  property of null. Only the resulting null values are modelled.
- Arguments of PHP types other than the ones modelled. Domains, TLDs and
  nameservers are strings. Flags are booleans, so `(int)` gives 0/1.
  `numyears`, `MaxResults` and `SpinType` are integers, so `(int) $numyears`
  is the identity. Nameserver arrays are lists indexed from 0. The `start`,
  `begin` and `end` arguments of `getOrderList` are any `Value`.
- The order of keys in the query string. A `map` has no insertion order, and
  PHP arrays do. Nothing in the client depends on that order except the
  encoder, which is abstract.
- The distinction between PHP's `null` and `false` in the `request`,
  `response`, `httpCode` and `xmlResponse` fields. Both are `None`.
