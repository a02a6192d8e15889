# `decs_image` data source: a Dafny model

This project models how the DECS Terraform provider's `decs_image` data source looks up one OS image.

The user gives an image `name`. They may also give a `pool` and a storage endpoint id (`sep_id`), which filter the images. A `tenant_id` and a resource-group id (`rgid`) narrow the listing call on the server side. The read works in four steps:

1. It takes these arguments from the host's state. The host's `GetOk` treats `""` and `0` as "not set".
2. It sends `accountId` and `cloudspaceId` query parameters for a tenant and a resource group that are set.
3. It walks the decoded image list in order. The first image whose name matches exactly, and whose pool and SEP id match when those are set, wins.
4. It writes that image's id (as decimal text), SEP id and pool back into the state. If no image matches, it returns `Cannot find OS Image name %q` and leaves the state untouched.

The schema's argument bounds are modelled as predicates:

- `name`: required, 1 to 128 bytes of UTF-8 (Go's `len`);
- `pool`: 1 to 64 bytes of UTF-8;
- `sep_id`, `tenant_id`, `rgid`: at least 1.

Modules:

- `Wrappers` (wrappers.dfy): `Option` and `Result`.
- `Decimal` (decimal.dfy): Go's `%d` rendering of an integer, and a parser that inverts it.
- `GoQuote` (go_quote.dfy): Go's `%q` quoting of a string, and an unquoting function that inverts it.
- `ImageSchema` (image_schema.dfy): the data source's arguments and the schema's validation bounds.
- `ImageRead` (image_read.dfy): the rest of the read.
  - the criteria built through `GetOk`;
  - the query hints and the in-place `url.Values`;
  - the first-match rule, as a pure function and as the loop that computes it;
  - the `ResourceData` state object;
  - `ReadImage`, which models `dataSourceImageRead`.

Nothing that the read cannot see is invented. The listing call (`controller.decsAPICall`) and the JSON decoder are parameters of `ReadImage`:

- `api` maps the query to a response body or an error;
- `decode` maps a body to a list of candidate images or an error.

Both errors are returned to the caller as they are.

## Model

| member | source | states |
|---|---|---|
| `Decimal.NatToDecimal` | decs/data_source_image.go:41 | the decimal text of a natural number is a non-empty string of digits that begins with '0' only for zero |
| `Decimal.DecimalString` | decs/data_source_image.go:72 | `%d` text of an integer: a '-' exactly for negatives, then digits with no leading zero |
| `Decimal.DecimalRoundTrip` | decs/data_source_image.go:72 | parsing the decimal text of any integer gives back that integer |
| `Decimal.DecimalInjective` | decs/data_source_image.go:72 | distinct image ids give distinct state ids |
| `GoQuote.Quote` | decs/data_source_image.go:80 | `%q` text starts and ends with a double quote |
| `GoQuote.UnquoteQuote` | decs/data_source_image.go:80 | unquoting the `%q` text of any string gives back that exact string, whatever quotes, backslashes or control characters it holds |
| `ImageSchema.Utf8CharLength` | decs/data_source_image.go:98 | one character takes 1 to 4 bytes of UTF-8, and exactly 1 when it is ASCII |
| `ImageSchema.Utf8Length` | decs/data_source_image.go:98 | Go's `len` of a string, its UTF-8 byte length, lies between the character count and four times it |
| `ImageSchema.StringLenBetween` | decs/data_source_image.go:98 | `validation.StringLenBetween` bounds the byte length; a string that passes has at most `max` characters, and for ASCII text the check is exactly a character-count check |
| `ImageSchema.IntAtLeast` | decs/data_source_image.go:112 | `validation.IntAtLeast`: with a minimum of at least 1, a value that passes is never the zero value that `GetOk` treats as not set |
| `ImageSchema.Utf8LengthBounds` | decs/data_source_image.go:98 | a string's UTF-8 byte length lies between its character count and four times that, and equals the count exactly when the string is ASCII |
| `ImageSchema.WideNameRejected` | decs/data_source_image.go:98 | a name of 65 copies of 'é' (130 bytes) violates the 1..128 bound although it has only 65 characters |
| `ImageSchema.Violations` | decs/data_source_image.go:94-129 | a configuration has no violation exactly when every argument meets its declared check; each violation names the argument it concerns: a missing name exactly when the name is absent, a name length violation exactly when a given name is not 1..128 bytes, a pool length violation exactly when a given pool is not 1..64 bytes, and a below-minimum violation for `sep_id`, `tenant_id` or `rgid` exactly when that argument is given and below 1; no other violation appears |
| `ImageRead.Message` | decs/data_source_image.go:80 | a transport or decoder error keeps its own text; the not-found text begins with "Cannot find OS Image name " and continues past it |
| `ImageRead.NotFoundMessageNamesImage` | decs/data_source_image.go:80 | the not-found message is "Cannot find OS Image name " followed by text that unquotes to exactly the searched name |
| `ImageRead.GetOkString` | decs/data_source_image.go:36 | `GetOk` on a string: the reported value stores back as the value held, and a set string is never empty |
| `ImageRead.GetOkInt` | decs/data_source_image.go:33-35 | `GetOk` on an integer: the reported value stores back as the value held, and a set integer is never zero |
| `ImageRead.ValidConfigReadsBack` | decs/data_source_image.go:33-36 | for a configuration that passed validation, `GetOk` reports `pool`, `sep_id`, `tenant_id` and `rgid` as set exactly when the configuration sets them, with the configured values |
| `ImageRead.QueryHints` | decs/data_source_image.go:39-45 | the query has `accountId` exactly when the tenant is set, and `cloudspaceId` exactly when the resource group is set; each has the decimal text of its id as its only value; no other key appears |
| `ImageRead.QueryHintsReadBack` | decs/data_source_image.go:40-45 | each query value parses back to the tenant or resource-group id it was made from |
| `ImageRead.UrlValues.constructor` | decs/data_source_image.go:39 | a new `url.Values` is empty |
| `ImageRead.UrlValues.Add` | decs/data_source_image.go:41 | `Add` appends the value to that key's values and changes no other key |
| `ImageRead.Matches` | decs/data_source_image.go:62-70 | a surviving candidate has exactly the searched name; a set pool or SEP id that differs from the candidate's rejects it; with neither set, the name alone decides |
| `ImageRead.FindFirst` | decs/data_source_image.go:60-78 | a returned index holds a candidate that matches the name exactly and, when they are set, the pool and SEP id; every earlier candidate fails a filter; None means that no candidate matches |
| `ImageRead.FindFirstIsFirstMatch` | decs/data_source_image.go:60-76 | the first-match search returns index i if and only if candidate i matches and no earlier candidate does |
| `ImageRead.FindFirstIgnoresScope` | decs/data_source_image.go:60-70 | changing the tenant or resource group never changes which candidate is chosen |
| `ImageRead.FirstOfSeveralWins` | decs/data_source_image.go:60-76 | with two images of the same name, the name alone picks the first; naming the second one's pool picks the second |
| `ImageRead.SelectImage` | decs/data_source_image.go:60-78 | the in-order scan, which skips a candidate on a name, pool or SEP mismatch, stops at exactly the index of the first match, or finds none |
| `ImageRead.ReadOutcome` | decs/data_source_image.go:39-80 | a failed listing call or a failed decode gives exactly that error; otherwise the read succeeds exactly when some listed candidate matches, a success is the first matching candidate, and a failure is not-found for the searched name |
| `ImageRead.RereadIsStable` | decs/data_source_image.go:72-74 | after the write-back, a read that adds the written-back pool and SEP id as filters, over the same listing, picks the same image |
| `ImageRead.ScopeOnlyShapesQuery` | decs/data_source_image.go:39-70 | the tenant and resource group change the result of a read only through the query they add to the listing call |
| `ImageRead.ResourceData.FromConfig` | decs/data_source_image.go:32-36 | the host stores each configured argument, and stores the zero value for an absent one |
| `ImageRead.ResourceData.LookupCriteria` | decs/data_source_image.go:32-36 | criteria read through `GetOk` never hold an empty pool or a zero id as a set filter |
| `ImageRead.ResourceData.SetId` | decs/data_source_image.go:72 | sets the state id and nothing else |
| `ImageRead.ResourceData.SetSepId` | decs/data_source_image.go:73 | sets the state's `sep_id` and nothing else |
| `ImageRead.ResourceData.SetPool` | decs/data_source_image.go:74 | sets the state's `pool` and nothing else |
| `ImageRead.ReadImage` | decs/data_source_image.go:31-81 | on success the state id is the decimal text of the first match's `ID`, and the state's `sep_id` and `pool` are the match's; name, tenant and resource group are unchanged, so the criteria the next read takes from the state are the written-back ones that `RereadIsStable` speaks of. An error from the listing call or the decoder is returned unchanged; if nothing matches, the error is not-found for the searched name. On every error the state is untouched |

## Left out

- `main.go`: it only registers the provider with the plugin host.
- The HTTP method (`POST`) and the `ImagesListAPI` endpoint constant: `api` receives only the query. The endpoint's definition is not part of this model.
- Transport, authentication and the query-string encoding inside `decsAPICall`: these are stood in for by the `api` parameter.
- `json.Unmarshal` into `ImagesListResp`: stood in for by the `decode` parameter. Each element is taken to have an integer `ID` and `SepId` and string `Name` and `Pool`.
- The `m.(*ControllerCfg)` type assertion and the `.(string)`/`.(int)` assertions on state values: the model's state fields are already typed.
- `log.Printf`: diagnostics only.
- The read timeouts, `SchemaVersion`, the descriptions and the rest of the `schema.Resource` value: host configuration. Validation runs in the host before the read, so `ReadImage` takes no validity precondition, like the Go function. `ImageSchema.Violations` states what the schema declares.
- The wording of the validation library's messages: violations are structured values that name the argument and its bound.
- Go's `int` (32 or 64 bits by platform): ids are unbounded integers. An id too large for `int` would be a decoder error.
- Comparing an `interface{}` value with a typed field (`pool != item.Pool`, `sep_id != item.SepId`): modelled as plain equality of a string or an integer.
- The error results of `d.Set`: the Go code ignores them, and the model's setters always succeed.
- Byte strings that are not valid UTF-8: Go strings are bytes, the model's strings are sequences of Unicode scalar values, so `len` is modelled as the UTF-8 length of such a sequence.
- GoQuote.Quote: characters at or above U+0080 are kept as they are. strconv.Quote also escapes the non-printable ones among them with `\u` or `\U`.
