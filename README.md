# CLIforAPI route resolution, in Dafny

CLIforAPI turns any OpenAPI 3.x or Swagger 2.0 document into a command line:
`cliforapi GET /pets/5 --limit 10 --body '{...}'`. This project models the
in-memory core that sits between the command line and the HTTP transport, and
proves what that core promises:

- **Spec normalisation** (`SpecModel`). The decoded document becomes an
  `ApiSpec`: `$ref` lookup (a JSON Pointer per section 4 of RFC 6901, without
  the `~0`/`~1` unescaping of section 3), parameter defaulting and merging,
  Swagger 2 and OpenAPI 3 base URLs and security schemes, the per-path
  operations, and the read-through spec cache (`SpecCache`, a class over an
  abstract loader).
- **Route matching** (`PathTemplate`, `Distance`, `Matcher`). Placeholder
  syntax `{x}`, `:x` and `<x>` (OpenAPI 3.0 "Path Templating"), path
  normalisation, segments, a Wagner–Fischer Levenshtein distance, a rule-based
  singulariser, and the five-stage cascade: exact, normalized, positional,
  fuzzy, then ranked suggestions.
- **Request resolution** (`Resolver`). CLI keys are classified into path,
  header and query slots; every placeholder must have a value
  (`MISSING_PARAM`); the template is interpolated; the body is JSON when it
  parses and the raw text otherwise. No match gives `NO_MATCH`.
- **CLI options** (`CliArgs`). The `--key value` / `--flag` tokenizer.
- **Output** (`Output`). Exit codes per status class (section 15 of RFC
  9110) and the TOON text encoder for responses.
- **Authentication** (`Auth`). The precedence chain: CLI option, then
  environment variable, then `.env` value. Bearer credentials follow section
  2.1 of RFC 6750, Basic ones section 2 of RFC 7617, with base64 (section 4
  of RFC 4648) kept as an opaque function.

Supporting modules: `Wrappers` (Option, Result), `Strings` (ASCII case
mapping, prefixes, strip, split and join, replace, integer text),
`OrderedDict` (a Python dict as an insertion-ordered list of pairs) and
`JsonValue` (the decoded JSON tree, with objects as ordered pairs).

Each loop of the source is a method proved equal to a specification
function (`r == Spec(...)`); what the source promises is proved about those
functions as lemmas.

## Model

| member | source | states |
|---|---|---|
| SpecModel.ResolveRef | src/cliforapi/spec.py:56-67 | the pointer walk returns `RefTarget`: always a dict, `{}` for a ref not starting with `#/` |
| SpecModel.Walk | src/cliforapi/spec.py:60-67 | walking through the document always ends on a dict |
| SpecModel.RefTarget | src/cliforapi/spec.py:58-59 | a ref that does not start with `#/` resolves to `{}`, and every result is a dict |
| SpecModel.WalkFromEmpty | src/cliforapi/spec.py:62-66 | once a step lands on `{}`, every further step stays `{}` |
| SpecModel.WalkFollows | src/cliforapi/spec.py:62-67 | the walk reaches the node the keys lead to when every key is present and that node is a dict, and `{}` otherwise |
| SpecModel.RefOfKeys | src/cliforapi/spec.py:56-67 | `#/k1/…/kn` (keys without `/`) resolves to the node those keys lead to, or `{}` when a key is missing or the node is not a dict |
| SpecModel.ParamOf | src/cliforapi/spec.py:77-87 | a raw parameter gives a `ParamSpec` exactly when it has a string `name` after `$ref` resolution |
| SpecModel.ParamsOf | src/cliforapi/spec.py:70-88 | parsing never yields more parameters than raw entries |
| SpecModel.ParseParams | src/cliforapi/spec.py:70-88 | the loop yields `ParamsOf`: one `ParamSpec` per named entry, in input order |
| SpecModel.ParamsOfAppend | src/cliforapi/spec.py:75-87 | parsing distributes over concatenation, so input order is kept |
| SpecModel.ParamDefaults | src/cliforapi/spec.py:84-86 | a parameter with only a name defaults to location `query`, not required, schema type `string` |
| SpecModel.ParamWithoutName | src/cliforapi/spec.py:79-80 | an entry without `name` after resolution is dropped |
| SpecModel.Unseen | src/cliforapi/spec.py:175 | the kept path-level parameters are exactly those whose names are unseen |
| SpecModel.UnseenOne | src/cliforapi/spec.py:175 | one parameter is kept exactly when its name is not seen |
| SpecModel.UnseenAppend | src/cliforapi/spec.py:175 | the filter distributes over concatenation, so kept parameters keep their order and each appears as often as in the input |
| SpecModel.UnseenNothingSeen | src/cliforapi/spec.py:175 | with nothing seen the path-level list is kept unchanged |
| SpecModel.MergeParams | src/cliforapi/spec.py:172-175 | the operation-level parameters come first and unchanged; after them come exactly the path-level parameters whose names the operation does not declare, as the order-keeping filter `Unseen` gives them |
| SpecModel.MergeNoOperationParams | src/cliforapi/spec.py:172-175 | without operation-level parameters the merge is the path-level list itself: same order, each once |
| SpecModel.MergeTailAppend | src/cliforapi/spec.py:172-175 | the merge's path-level tail follows the path-level list piece by piece, in order |
| SpecModel.SchemeV2 | src/cliforapi/spec.py:106-119 | Swagger 2 `basic` becomes http/basic; `apiKey` keeps its name and `in`; `oauth2` stays oauth2; other types are copied |
| SpecModel.CollectSchemes | src/cliforapi/spec.py:92-100 | the loop yields `SchemesOf`: one scheme per entry, a later entry overwriting an earlier one with the same name |
| SpecModel.ParseSecuritySchemesV3 | src/cliforapi/spec.py:91-100 | the v3 schemes come from `components.securitySchemes` |
| SpecModel.ParseSecuritySchemesV2 | src/cliforapi/spec.py:103-120 | the v2 schemes come from `securityDefinitions` |
| SpecModel.SchemesLookup | src/cliforapi/spec.py:91-120 | with distinct names, the schemes keep the document's order and each name maps to its own mapped entry |
| SpecModel.BuildBaseUrlV3 | src/cliforapi/spec.py:123-127 | the first server's `url`, or `""` when there are no servers |
| SpecModel.BuildBaseUrlV2 | src/cliforapi/spec.py:130-137 | with a host: exactly the first scheme (or `https`), `://`, the host and the base path, so it starts with `<scheme>://` and ends in the base path; without one: the base path |
| SpecModel.AnyBodyParam | src/cliforapi/spec.py:179 | true exactly when some raw parameter has `in == "body"` |
| SpecModel.OperationOf | src/cliforapi/spec.py:168-191 | an operation is produced exactly when the method's entry is a non-empty dict; it has the upper-cased method and the path, the operation's parameters merged over the path item's, a request body exactly when a raw parameter is `in: body` (Swagger 2) or the entry has `requestBody` (OpenAPI 3), and the entry's `operationId`, `summary` and `security` |
| SpecModel.ParsePathItem | src/cliforapi/spec.py:165-191 | the method loop of one path item yields `OpsOfPath` |
| SpecModel.ParseOperations | src/cliforapi/spec.py:160-191 | the path loop yields `OpsOfPaths`, skipping non-dict path items |
| SpecModel.ParseSpec | src/cliforapi/spec.py:143-200 | Swagger 2 is detected from `swagger`; base URL and schemes come from the matching version's builders; title, version, global security and operations come from the document |
| SpecModel.OpsOfMethodsOrigin | src/cliforapi/spec.py:167-191 | every operation of a path item has that path and comes from one of its method entries |
| SpecModel.OperationsOrigin | src/cliforapi/spec.py:140-191 | every produced operation comes from a dict path item and has an upper-cased method from `HTTP_METHODS` |
| SpecModel.SpecCache.constructor | src/cliforapi/spec.py:207 | the cache starts empty |
| SpecModel.SpecCache.LoadSpec | src/cliforapi/spec.py:238-245 | a cached reference returns the spec of the earlier load that cached it, even if the document changed since, without loading and without changing the cache; otherwise the loader runs once, on the document as it is now, and a spec it returns is cached |
| SpecModel.LoadTwice | src/cliforapi/spec.py:238-245 | once a load succeeds, a second `load_spec` of the same reference returns the very same spec |
| SpecModel.SpecCache.ClearCache | src/cliforapi/spec.py:248-249 | the cache is emptied |
| PathTemplate.WordRun | src/cliforapi/matcher.py:23 | `\w+` takes the longest run of word characters |
| PathTemplate.MatchAt | src/cliforapi/matcher.py:23 | a placeholder match spans at least two characters, and its name is a word |
| PathTemplate.NormalizePath | src/cliforapi/matcher.py:26-31 | the normalized path has no upper-case letters and never ends in `/` |
| PathTemplate.NormalizePlaceholder | src/cliforapi/matcher.py:26-31 | `{x}`, `:x` and `<x>` each normalize to `{x lower-cased}` |
| PathTemplate.PlaceholderSyntaxEquivalence | src/cliforapi/matcher.py:26-31 | two paths that differ only in one segment's placeholder syntax or name case normalize equally |
| PathTemplate.ExtractParamNames | src/cliforapi/matcher.py:34-39 | every extracted name is a non-empty word |
| PathTemplate.TokenNamesAreWords | src/cliforapi/matcher.py:23-39 | every placeholder the scan finds is named by a word |
| PathTemplate.ExtractNamesOfSegment | src/cliforapi/matcher.py:34-39 | names come out left to right, in their original case, whatever the placeholder syntax |
| PathTemplate.NoPlaceholderNames | src/cliforapi/matcher.py:34-39 | a path without `{`, `:` or `<` has no placeholder names |
| PathTemplate.Segments | src/cliforapi/matcher.py:42-43 | no segment is empty or contains `/` |
| PathTemplate.NonEmpty | src/cliforapi/matcher.py:43 | the filter keeps only non-empty parts of the input |
| PathTemplate.SegmentsRoundTrip | src/cliforapi/matcher.py:42-43 | splitting `/s1/…/sn` gives back the segments `s1 … sn` |
| Distance.Levenshtein | src/cliforapi/matcher.py:50-62 | the row-by-row program computes the edit distance, and `len(a)` when `b` is empty |
| Distance.FirstRow | src/cliforapi/matcher.py:55 | `range(len(b)+1)` is row 0 of the distance table |
| Distance.NextRow | src/cliforapi/matcher.py:56-61 | each inner loop turns row i into row i+1 |
| Distance.EditDistanceSymmetric | src/cliforapi/matcher.py:51-52 | the distance is symmetric, which justifies the length swap |
| Distance.EditDistanceZeroIff | src/cliforapi/matcher.py:50-62 | the distance is 0 exactly when the strings are equal |
| Distance.EditDistanceBound | src/cliforapi/matcher.py:50-62 | the distance never exceeds the longer length |
| Distance.EditDistanceLengthGap | src/cliforapi/matcher.py:50-62 | the distance is at least the difference in lengths |
| Distance.Singularize | src/cliforapi/matcher.py:69-76 | the result is never longer than the word; a word not ending in `s`, or ending in `ss`, is unchanged |
| Distance.SingularOfIes | src/cliforapi/matcher.py:70-71 | `…ies` becomes `…y` |
| Distance.SingularOfEs | src/cliforapi/matcher.py:72-73 | `…ses`, `…xes` and `…zes` lose their `es` |
| Distance.SingularOfS | src/cliforapi/matcher.py:74-75 | any other final `s` not preceded by `s` is dropped |
| Matcher.AlikeCheck | src/cliforapi/matcher.py:84-93 | one aligned pair passes exactly when one side starts with `{`, they are equal, their singulars are equal, or their distance is at most 1 |
| Matcher.FuzzyPathEqual | src/cliforapi/matcher.py:79-94 | false when segment counts differ; otherwise true exactly when every aligned pair is alike |
| Matcher.SegmentName | src/cliforapi/matcher.py:131-132 | a template segment names a placeholder exactly when the scan finds one, and the name is the first found |
| Matcher.CaptureParams | src/cliforapi/matcher.py:128-139 | the capture loop succeeds exactly when `CaptureSegs` does, and then with its dict |
| Matcher.CaptureKeys | src/cliforapi/matcher.py:128-140 | the captured keys are exactly the placeholder names of the template's segments |
| Matcher.CaptureLiterals | src/cliforapi/matcher.py:135-137 | after a capture, every literal segment equals the user's segment ignoring case |
| Matcher.CaptureSound | src/cliforapi/matcher.py:116-142 | a positional hit has the requested method, the same segment count and a non-empty capture keyed by placeholder names, and its literals agree ignoring case |
| Matcher.FirstIndexFrom | src/cliforapi/matcher.py:102-105 | the first-hit scan returns the first index satisfying the test, or none when no element does |
| Matcher.ExactMatch | src/cliforapi/matcher.py:101-105 | returns the first op with the same method and the identical path |
| Matcher.NormalizedMatch | src/cliforapi/matcher.py:108-113 | returns the first op with the same method and an equal normalized path |
| Matcher.TryCapture | src/cliforapi/matcher.py:122-140 | the per-op check of the positional stage computes `Capture` |
| Matcher.PositionalMatch | src/cliforapi/matcher.py:116-142 | returns the first positional hit together with its capture, or nothing |
| Matcher.FuzzyMatch | src/cliforapi/matcher.py:145-154 | returns the first op with the same method whose lower-cased normalized segments are fuzzily equal to the user's |
| Matcher.ScoreOp | src/cliforapi/matcher.py:162-166 | an op's score is the distance between normalized paths, plus 3 when the method differs |
| Matcher.ScoreAll | src/cliforapi/matcher.py:160-167 | the scoring loop yields one scored description per op, in op order |
| Matcher.ScoresOf | src/cliforapi/matcher.py:160-167 | one score per op |
| Matcher.Insert | src/cliforapi/matcher.py:168 | inserting adds exactly one element |
| Matcher.StableSort | src/cliforapi/matcher.py:168 | the sort is a permutation |
| Matcher.InsertSorted | src/cliforapi/matcher.py:168 | insertion keeps the list sorted by score |
| Matcher.StableSortCorrect | src/cliforapi/matcher.py:168 | the result is sorted by score, and the entries with any one score keep their original order (stability) |
| Matcher.SuggestionsOf | src/cliforapi/matcher.py:169 | `min(n, #ops)` suggestions |
| Matcher.ClosestSuggestions | src/cliforapi/matcher.py:157-169 | the method computes `SuggestionsOf` |
| Matcher.SuggestionsRanked | src/cliforapi/matcher.py:157-169 | `min(n, #ops)` suggestions, taken from the front of a stable sort by non-decreasing score |
| Matcher.MatchRoute | src/cliforapi/matcher.py:176-205 | the cascade computes `MatchSpec` on the upper-cased method |
| Matcher.MatchShape | src/cliforapi/matcher.py:176-205 | exactly one of operation and suggestions is present; extracted params only come from a positional hit; the operation is one of the spec's and has the requested method; there are `min(3, #ops)` suggestions |
| Matcher.ExactWins | src/cliforapi/matcher.py:184-187 | when an op with the same method and the identical path exists, the first such op is returned alone |
| Matcher.EarliestStageWins | src/cliforapi/matcher.py:189-205 | a later stage is used only when every earlier stage has no hit; a positional hit returns the first positional operation together with exactly what it captured; suggestions only when no op hits any stage |
| Resolver.NoMatchMessage | src/cliforapi/resolver.py:40-46 | the message starts with `No endpoint matches '` and ends in `?` exactly when there are suggestions |
| Resolver.DeclaredParam | src/cliforapi/resolver.py:57-63 | there is no declared parameter for a lower-cased key exactly when no name matches it; a found one is declared and has that lower-cased name |
| Resolver.DeclaredParamLast | src/cliforapi/resolver.py:57-63 | of several declarations with the same lower-cased name, the last one is found |
| Resolver.ClassifyOne | src/cliforapi/resolver.py:61-75 | one key is placed by `Route`: a declared name at its declared location, a placeholder name in path, anything else in query |
| Resolver.ClassifyParams | src/cliforapi/resolver.py:52-75 | the classification loop yields `ClassifyAll` |
| Resolver.ClassifyGet | src/cliforapi/resolver.py:52-75 | a slot holds the last value routed to it, or its seed value when none is routed |
| Resolver.ClassifyLands | src/cliforapi/resolver.py:60-75 | every CLI key lands in the slot its route names |
| Resolver.RoutedAt | src/cliforapi/resolver.py:60-75 | the value routed to a slot is that of the last CLI entry routed there |
| Resolver.DeclaredPathOverrides | src/cliforapi/resolver.py:52-65 | any CLI entry naming a declared path parameter (ignoring case) overwrites the positionally extracted value of its declared name, unless a later entry is routed to the same name |
| Resolver.FindCI | src/cliforapi/resolver.py:82-85 | the case-insensitive lookup finds a value exactly when some key equals the name ignoring case |
| Resolver.FindCaseInsensitive | src/cliforapi/resolver.py:82-85 | the search loop computes `FindCI` |
| Resolver.FirstMissing | src/cliforapi/resolver.py:78-86 | none is missing exactly when every placeholder has a key; otherwise the missing one has no key |
| Resolver.FirstMissingIsFirst | src/cliforapi/resolver.py:78-91 | every placeholder before the reported one has a key |
| Resolver.CheckRequired | src/cliforapi/resolver.py:78-91 | the validation loop computes `FirstMissing` |
| Resolver.Braced | src/cliforapi/resolver.py:99 | `{name}` is the name in braces |
| Resolver.InterpolatePath | src/cliforapi/resolver.py:93-100 | the interpolation loop computes `Interpolate` |
| Resolver.InterpolateSingle | src/cliforapi/resolver.py:95-100 | `{name}` is replaced by the value of the first key equal to it ignoring case |
| Resolver.InterpolateTemplate | src/cliforapi/resolver.py:93-100 | a template `a0{n1}a1…{nk}ak` whose texts and values hold no `{` becomes `a0 v1 a1 … vk ak`, each `vi` the value of the first key equal to `ni` ignoring case |
| Resolver.BodyOf | src/cliforapi/resolver.py:102-108 | no text or empty text gives no body; parseable text gives the parsed value; other text gives itself |
| Resolver.Resolve | src/cliforapi/resolver.py:29-117 | the method computes `ResolveSpec` |
| Resolver.ResolveNoMatch | src/cliforapi/resolver.py:39-47 | with no matching operation the result is `NO_MATCH`, and its message ends in `?` exactly when there are suggestions |
| Resolver.ResolveOkRequest | src/cliforapi/resolver.py:110-117 | the request carries the matched operation and its method, not the text typed, and the body rule's value |
| Resolver.ResolveOkPlaceholders | src/cliforapi/resolver.py:77-91 | on success every placeholder has a path key equal to it ignoring case |
| Resolver.ResolveOkBuckets | src/cliforapi/resolver.py:60-117 | on success query and headers hold exactly what classification routed there |
| Resolver.ResolveOkPath | src/cliforapi/resolver.py:93-117 | on success, for a template `a0{n1}a1…{nk}ak` whose texts and path values hold no `{`, the request path is `a0 v1 a1 … vk ak` with each `vi` the path value of `ni` |
| Resolver.ResolveMissing | src/cliforapi/resolver.py:77-91 | a missing placeholder gives `MISSING_PARAM` naming the first missing placeholder in template order |
| Resolver.FirstMissingAt | src/cliforapi/resolver.py:78-91 | the first placeholder without a key is the one reported |
| Resolver.PetExample | src/cliforapi/resolver.py:93-100 | `/pets/{petId}` with key `petid=5` validates and interpolates to `/pets/5` |
| CliArgs.ParamsOf | src/cliforapi/cli.py:67-70 | `body` never appears among the params, and keys are distinct |
| CliArgs.BodyIn | src/cliforapi/cli.py:54-68 | the body stays `None` exactly when no binding has key `body` |
| CliArgs.ParamsLastWins | src/cliforapi/cli.py:67-70 | each key but `body` maps to the value it was given last |
| CliArgs.ParseExtraParams | src/cliforapi/cli.py:48-73 | the while loop builds exactly the params and body of the bindings the tokens spell |
| CliArgs.ParseEncodeRoundTrip | src/cliforapi/cli.py:59-63 | `--key value` pairs are read back unchanged when no key starts with `-` and no value with `--` |
| CliArgs.TrimDashes | src/cliforapi/cli.py:60 | the key is the token with its leading dashes stripped |
| CliArgs.FlagIsTrue | src/cliforapi/cli.py:64-66 | a last `--flag`, or one followed by another option, gets `"true"` |
| CliArgs.StrayTokenSkipped | src/cliforapi/cli.py:71-72 | a token that is neither an option nor a consumed value is skipped |
| Output.ExitCodeForStatus | src/cliforapi/output.py:24-33 | no status gives 5; 4xx gives 3; 5xx gives 4; everything else gives 0; never 1 or 2 |
| Output.Spaces | src/cliforapi/output.py:77 | the indent prefix is `indent` spaces |
| Output.ToonValue | src/cliforapi/output.py:40-48 | `null` for None, `true`/`false` for booleans (tested before integers), a decimal numeral for an integer, negative exactly when the integer is, and a string as itself |
| Output.ScalarRoundTrip | src/cliforapi/output.py:40-48 | a scalar's text reads back as the same scalar (null, booleans, integers, and strings that are not keywords or numerals), so `bool` is tested before `int` |
| Output.IntRoundTrip | src/cliforapi/output.py:46-47 | an integer's text reads back as that integer |
| Output.IsUniformListOfDicts | src/cliforapi/output.py:51-58 | false for a non-list or an empty list; when true, every element is a dict with exactly the first element's keys |
| Output.UniformFromKeys | src/cliforapi/output.py:51-58 | a non-empty list of dicts whose elements all have exactly the first element's keys is uniform |
| Output.UniformRowsHaveColumns | src/cliforapi/output.py:51-65 | in a uniform list, every row has every column taken from the first row |
| Output.Cells | src/cliforapi/output.py:69 | one cell per column |
| Output.RowLines | src/cliforapi/output.py:68-70 | one line per row |
| Output.RowLinesAt | src/cliforapi/output.py:68-70 | line k renders row k |
| Output.ToonTabular | src/cliforapi/output.py:61-71 | the method computes `Tabular`: `key[0]:` plus a newline for no rows, otherwise the header and one line per row |
| Output.TabularLayout | src/cliforapi/output.py:61-71 | n rows give n+1 lines; the header comes first, then row k is a space and its cells joined by commas |
| Output.ToonObject | src/cliforapi/output.py:74-94 | the recursive method computes `ObjectText` |
| Output.ListItems | src/cliforapi/output.py:86-91 | the item loop computes `ListLines` |
| Output.ScalarFieldLines | src/cliforapi/output.py:92-93 | a scalar member is the line `key: value` at the indent |
| Output.FlatObjectLines | src/cliforapi/output.py:78-93 | a flat object gives one `key: value` line per member, in order |
| Output.FlatObjectLayout | src/cliforapi/output.py:74-94 | the text of a flat object splits into exactly one line per member |
| Output.EncodeToon | src/cliforapi/output.py:97-127 | the method computes the lines of `ToonLines`, joined by newlines |
| Output.EncodeToonPreamble | src/cliforapi/output.py:99-101 | the text starts with `status: S`, a newline, then `elapsed_ms: E` |
| Output.HeadersShownIff | src/cliforapi/output.py:103-107 | the headers block appears exactly when `content-type` is present and non-empty, and then shows it |
| Output.BodyIsField | src/cliforapi/output.py:109-125 | any body but `None` is rendered like a member named `body` at indent 0 |
| Auth.Lookup | src/cliforapi/auth.py:105 | a lookup finds a value exactly when the key is present |
| Auth.FirstGiven | src/cliforapi/auth.py:103-108 | the `or` chain yields the first non-empty link, and none when every link is absent or empty |
| Auth.ApplySchemeStep | src/cliforapi/auth.py:101-152 | one loop turn applies `ApplyScheme` |
| Auth.ResolveAuth | src/cliforapi/auth.py:86-163 | the method computes `ResolveAuthSpec` |
| Auth.DotenvOrder | src/cliforapi/auth.py:103-150 | with only `.env` tokens, bearer takes `BEARER_TOKEN` and OAuth2 takes `OAUTH_TOKEN` |
| Auth.SchemeTouchesOneEntry | src/cliforapi/auth.py:101-152 | a scheme changes only the entry it owns (`Authorization`, or the API key's name); only a query apiKey scheme touches the query; an unknown scheme type changes nothing |
| Auth.BasicNeedsUsername | src/cliforapi/auth.py:112-128 | basic sets nothing without a user name; with one it sends `Basic` and the encoding of `user:password` |
| Auth.SchemesKeepCliToken | src/cliforapi/auth.py:101-152 | with a CLI token and no scheme that could write another `Authorization` (basic, or an apiKey named `Authorization`), the loop leaves `Authorization` absent or `Bearer <token>` |
| Auth.CliTokenWins | src/cliforapi/auth.py:102-158 | with a CLI token, no CLI API key and no scheme that could write another `Authorization`, the result's `Authorization` is `Bearer <token>` |
| Auth.CliApiKeySent | src/cliforapi/auth.py:160-161 | a CLI API key is always sent, as some header's value or as the bearer token |
| Auth.NoCredentialsNoAuth | src/cliforapi/auth.py:98-163 | no schemes, no CLI credentials and no environment token give no headers and no query parameters |
| Auth.QueryOnlyFromApiKeys | src/cliforapi/auth.py:138-142 | a query parameter only comes from an apiKey scheme located in the query, under its name |
| Auth.SchemesQuery | src/cliforapi/auth.py:101-152 | within the scheme loop, query entries only come from query apiKey schemes |
| Auth.FirstGivenDrop | src/cliforapi/auth.py:103-108 | dropping empty links never changes the chain's value |
| Auth.LookupDrop | src/cliforapi/auth.py:105-107 | an empty variable reads as a missing one |
| Auth.BearerChainDrop | src/cliforapi/auth.py:103-108 | empty values do not change the bearer chain |
| Auth.OAuthChainDrop | src/cliforapi/auth.py:145-150 | empty values do not change the OAuth2 chain |
| Auth.FallbackChainDrop | src/cliforapi/auth.py:156 | empty values do not change the fallback chain |
| Auth.UsernameChainDrop | src/cliforapi/auth.py:114-119 | empty values do not change the user-name chain |
| Auth.PasswordChainDrop | src/cliforapi/auth.py:120-125 | empty values do not change the password chain |
| Auth.ApiKeyChainDrop | src/cliforapi/auth.py:133-137 | empty values do not change the API-key chain |
| Auth.SchemeDrop | src/cliforapi/auth.py:101-152 | one scheme's effect ignores empty sources |
| Auth.SchemesDrop | src/cliforapi/auth.py:101-152 | the whole scheme loop ignores empty sources |
| Auth.EmptyIsAbsent | src/cliforapi/auth.py:103-137 | an empty string counts as absent at every link of every chain: the resolved credentials are those of the sources with empty values removed |

## Left out

- Document loading (`_load_raw`: HTTP, file reads, YAML/JSON decoding) and `_resolve_base_url`: `SpecCache` takes them as one abstract `load(ref, n)` function, where `n` counts the loads so far so that the document may differ from one load to the next, and a load that raises is `None`.
- SpecModel.BuildBaseUrlV2: a `host`, `basePath` or first scheme that is not a string is read as absent (`""`, `""`, `https`), where the f-string would format its `str()`; a `schemes` value that is not a list is read as holding no scheme (`https`), where Python would index into it.
- Resolver.ResolveOkPath and Resolver.InterpolateTemplate: a text or value holding `{` can create or destroy a later placeholder, so the result then depends on replacement order; those templates are left to `Interpolate` itself.
- The HTTP transport (`client.py`): network I/O and wall-clock timing. `ApiResponse` is a plain value, and a `None` body is read as `Null`.
- The CLI plumbing in `cli.py` apart from `_parse_extra_params`: Click, printing, `sys.exit` and the endpoint listing.
- `config.py`: file-system paths, `urlparse` and a Unicode `\w` sanitiser.
- `encode_json`, `format_error` and the `print_*` helpers: `json.dumps` plus printing.
- Floating-point numbers: the JSON model holds integers only, so `str(float)` rendering is out.
- `json.loads` in `resolve`: an abstract `parse: string -> Option<Json>`, where `None` stands for `JSONDecodeError`.
- `HTTP_METHODS` is a Python set, so its iteration order is unspecified: `ParseSpec` takes the order as a parameter `methodOrder`, required to list each method once.
- Pydantic validation: a field of the wrong JSON type is read as if absent (its default), instead of raising or coercing.
- Wrong-typed containers: every JSON value the source calls `.get`, `.items` or `.startswith` on is read as empty (or absent) when it has the wrong type, where Python raises `AttributeError` or `TypeError`. This covers a non-dict document, a non-dict `info`, `paths`, `components`, `components.securitySchemes`, `securityDefinitions` or `servers[0]`, non-dict raw parameters and scheme entries, a non-string `swagger` (read as not Swagger 2), a non-list `servers` (read as no servers) and a non-string `$ref` (read as `""`).
- Case mapping and `\w` are ASCII-only; Python applies Unicode rules.
- Output.ToonValue: a string is written as itself, and a nested list or dict inside a list cell uses a simplified `repr` (no quote choice or escaping).
- Matcher.StableSort: Python's Timsort is modelled as an insertion sort; both are stable sorts by score, and that is what is specified.
- base64: an abstract `b64: string -> string` in `Sources`.
- `save_credentials`, `load_env_credentials` and `prompt_for_credentials` (file I/O, `input()`): the environment and the `.env` contents are input maps in `Sources`.
- `detect_auth_requirements`: a plain copy of the scheme dict's items, not modelled.
- `ResolutionError` and `ResolvedRequest` are values (`Result` and a datatype); the exception mechanism itself is not modelled.
