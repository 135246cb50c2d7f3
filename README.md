# ClickFunnels Ruby SDK: address, envelope and response model

This Dafny project models the logic of the ClickFunnels Ruby SDK (`CF::`). The model covers:

- how a resource type such as `CF::Contacts::AppliedTag` is turned into a URL path for
  `list`, `get`, `create`, `update` and `delete`;
- which caller-supplied parameters are path ids and which go to the query string;
- how create and update attributes are split into parent ids and a body, and under which
  key the body is wrapped;
- how the client validates its configuration, builds the URL, query string and headers,
  and classifies the HTTP response into a parsed value or an error object;
- the `CF::Configuration` settings object and the `CF::Auth` helpers.

A resource type is the sequence of its name parts after `CF`, for example
`["Contacts", "AppliedTag"]`. Ruby hashes are ordered association lists whose keys are
strings standing for Ruby symbols. Ruby values are the `Values.Value` datatype. An
exception raised by the SDK is the `Failure` side of a `Result`.

Files and modules:

| file | module | what it holds |
|---|---|---|
| wrappers.dfy | Wrappers | `Option`, `Result` |
| errors.dfy | Errors | the raised errors and the eleven API error class names |
| strings.dfy | Strings | `end_with?`, `chomp`, `downcase`, `join`, `Integer#to_s` |
| values.dfy | Values | Ruby values, `to_s`, ordered hashes: lookup, store, merge, select |
| inflector.dfy | Inflector | snake-casing, `pluralize`, `singularize` and their laws |
| addressing.dfy | Addressing | the rules of `CF::Resources::Base` as functions |
| path_laws.dfy | PathLaws | what those rules guarantee, as lemmas |
| resources.dfy | Resources | the imperative class methods of `CF::Resources::Base`, proved against Addressing |
| configuration.dfy | Config | `CF::Configuration` as a class with setters |
| auth.dfy | Auth | `CF::Auth` |
| client.dfy | ApiClient | `CF::Client`: query string, response classifier, request pipeline |
| vectors.dfy | Vectors | concrete paths and keys from the SDK's resource list and test suite |

The imperative Ruby methods are Dafny methods. Each one states that it computes the
corresponding Addressing function:

- `resource_path_segments` is `Resources.WalkParts` and `Resources.ResourcePathSegments`.
  The `each_with_index` loop is a `while` loop with an invariant.
- `extract_parent_ids_from_attributes` is `Resources.ExtractParentIdsFromAttributes`. The
  `each` loop with its hash stores is a `for` loop with an invariant.
- `get_expected_parent_ids_for_class` is `Resources.ExpectedParentIdsForClass`. The append
  loop is a `for` loop with an invariant.
- `build_create_path` is `Resources.BuildCreatePath`. It has no loop: it is the in-place
  sequence of `dup`, an assignment to the second-to-last element, `pop` and `push`.

The properties are proved about those functions in PathLaws and Inflector.

Behaviour of the code worth knowing; the model follows the code:

- A parent-id key is `segment.chomp("s") + "_id"`, not the singularised segment plus `_id`.
- The body key keeps the namespace parts as they are (`contacts_tag`); it does not
  pluralise them.
- Bodies of create and update are wrapped under the resource key. This holds even though
  test/cf/resources/workspace_patterns_test.rb:99-115 expects unwrapped bodies.
- With `product_id` given, `CF::Products::Price` reaches `/products/77/prices` through the
  segment walk, which already puts the id after `products`. The create-path rewrite then
  finds no id for the second-to-last segment (`77`) and changes nothing
  (`Vectors.ProductsPriceCreateUnderProduct`).

## Model

| member | source | states |
|---|---|---|
| Errors.ClassName | lib/cf/client.rb:96-117 | every error class name is qualified with `CF::` |
| Errors.ClassNameInjective | lib/cf/client.rb:132 | distinct error classes have distinct `error_type` names |
| Strings.Chomp | lib/cf/resources/base.rb:104 | `chomp` drops exactly one trailing copy of the suffix when present, and changes nothing otherwise |
| Strings.Downcase | lib/cf/resources/base.rb:300-301 | same length; every character is lower-cased |
| Strings.JoinAppend | lib/cf/resources/base.rb:60 | joining two non-empty lists puts exactly one separator between their joins |
| Strings.IntToString | lib/cf/resources/base.rb:64 | an integer's decimal text is non-empty and starts with `-` exactly when the integer is negative |
| Strings.NatToStringValue | lib/cf/resources/base.rb:64 | the digits written for a natural number spell that number |
| Strings.IntToStringValue | lib/cf/resources/base.rb:64 | `Integer#to_s` spells its integer, sign included |
| Strings.IntToStringInjective | lib/cf/client.rb:117 | distinct integers have distinct texts, so `HTTP <status>` names the status |
| Values.ToS | lib/cf/resources/base.rb:109 | `to_s` of a string is the string itself; `to_s` of nil is the empty string; `to_s` of an integer spells it; a float gives its text and a symbol its name |
| Values.Lookup | lib/cf/resources/base.rb:107-109 | `h[k]` is present exactly when some entry has key k, and then it is that entry's value |
| Values.Put | lib/cf/resources/base.rb:189-191 | `h[k] = v` keeps the key order when k is present and appends `(k, v)` otherwise |
| Values.PutLookup | lib/cf/resources/base.rb:189-191 | after `h[k] = v`, k gives v and every other key gives what it gave before |
| Values.PutAbsent | lib/cf/client.rb:75-76 | storing a key the hash lacks appends the entry at the end |
| Values.MergeHasKey | lib/cf/resources/base.rb:27 | the keys of `h.merge(o)` are exactly those of h and of o |
| Values.MergeLookupUntouched | lib/cf/resources/base.rb:27 | a key absent from o keeps h's value after the merge |
| Values.MergeOverrides | lib/cf/resources/base.rb:27 | a key of o takes o's value after the merge |
| Values.Select | lib/cf/resources/base.rb:13 | the selection holds exactly the entries whose key is kept |
| Values.SelectPartition | lib/cf/resources/base.rb:187-193 | selecting by a predicate and by its negation gives two parts that together hold exactly the input |
| Values.SelectIgnoresMergeOfDropped | lib/cf/resources/base.rb:27-30 | merging in only dropped keys leaves the selection unchanged |
| Inflector.SnakeCase | lib/cf/resources/base.rb:93 | the snake-cased name contains no capital letter |
| Inflector.SnakeCaseKeepsSnakeCase | lib/cf/resources/base.rb:93 | a name without capitals or a leading underscore is unchanged |
| Inflector.SnakeCaseCapitalisedWord | lib/cf/resources/base.rb:93 | a single capitalised word is only lower-cased |
| Inflector.SnakeCaseTwoWords | lib/cf/resources/base.rb:93 | two capitalised words are lower-cased and joined by one underscore |
| Inflector.LoweredWords | lib/cf/resources/base.rb:93 | marking capitals and lower-casing a run of capitalised words gives `_` and the lowered words joined by `_` |
| Inflector.SnakeCaseWords | lib/cf/resources/base.rb:93 | a name made of any number of capitalised words becomes those words lower-cased and joined by `_` |
| Inflector.Pluralize | lib/cf/resources/base.rb:345-358 | the plural ends in `s`, is at least as long as the word, and keeps all of the word but its last letter |
| Inflector.PluralizeAddsS | lib/cf/resources/base.rb:355-356 | a word not ending in s, y, x, z or h takes a plain `s` |
| Inflector.PluralizeKeepsPlural | lib/cf/resources/base.rb:348 | a word ending in a single `s` is returned unchanged |
| Inflector.PluralizeIdempotent | lib/cf/resources/base.rb:345-358 | pluralising twice equals pluralising once exactly when the word does not end in `ss` |
| Inflector.Singularize | lib/cf/resources/base.rb:279-293 | a word not ending in `s` is unchanged; otherwise the result is strictly shorter and agrees with the word up to its last letter |
| Inflector.SingularizeUndoesPluralize | lib/cf/resources/base.rb:279-293 | `singularize(pluralize(w)) == w` exactly for the words the rules treat regularly |
| Addressing.ParentIdKey | lib/cf/resources/base.rb:104 | the id key is the segment without one trailing `s`, followed by `_id`; it always counts as a parent-id parameter |
| Addressing.DefaultParentId | lib/cf/resources/base.rb:159-171 | only `workspace_id` and `team_id` have configured defaults |
| Addressing.NamespaceStep | lib/cf/resources/base.rb:99-119 | one namespace adds its name, then the given id, the default id or nothing; it fails exactly when a needed id is missing, with the message naming the key |
| Addressing.SpecialWorkspacePattern | lib/cf/resources/base.rb:295-324 | a special pattern is found only for two-part names |
| Addressing.SpecialWorkspaceId | lib/cf/resources/base.rb:331 | a truthy `workspace_id` parameter wins; a nil, false or absent one falls back to the default |
| Addressing.SpecialWorkspacePath | lib/cf/resources/base.rb:326-343 | the segments are `workspaces`, the id and the suffix; with no id it raises ConfigurationError |
| Addressing.QueryParams | lib/cf/resources/base.rb:173-176 | the query holds exactly the parameters whose key does not end in `_id` |
| Addressing.ExpectedParentIds | lib/cf/resources/base.rb:198-217 | one id key per namespace part, in order; none for a one-part name |
| Addressing.WrapAttributes | lib/cf/resources/base.rb:246-251 | the body is a one-entry hash from the resource key to the attributes |
| PathLaws.WalkFailsIffIdMissing | lib/cf/resources/base.rb:91-121 | the walk raises exactly when some namespace lacks a needed id that no parameter or default supplies |
| PathLaws.WalkReportsFirstMissingId | lib/cf/resources/base.rb:114-118 | the error names the key of the first namespace without an id |
| PathLaws.ExplicitIdsWin | lib/cf/resources/base.rb:106-109 | when every namespace's id is given, the walk never raises, ignores defaults and puts each id after its namespace |
| PathLaws.OnlyWorkspaceAndTeamHaveDefaults | lib/cf/resources/base.rb:159-171 | a contacts or courses namespace without an explicit id always raises |
| PathLaws.WorkspaceAndTeamUseDefaults | lib/cf/resources/base.rb:110-118 | a workspaces or teams namespace without an explicit id takes the configured id, and raises without one |
| PathLaws.OtherNamespacesNeedNoId | lib/cf/resources/base.rb:126-157 | any other namespace without an explicit id adds only its name |
| PathLaws.MemberPathExtendsListPath | lib/cf/resources/base.rb:58-64 | get/update/delete succeed exactly when list does, and their path is the list path plus `/` and the id |
| PathLaws.UnknownActionRaises | lib/cf/resources/base.rb:55-67 | any other action raises: ArgumentError once segments resolve, otherwise the segments' own error first |
| PathLaws.CreatePathInsertsParentId | lib/cf/resources/base.rb:219-243 | the create path is the list path, except that a given id for the second-to-last segment is inserted before the last segment |
| PathLaws.CreatePathOfShortSegments | lib/cf/resources/base.rb:224 | with at most one segment, the create path is the list path |
| PathLaws.SpecialPatternIgnoresCase | lib/cf/resources/base.rb:300-301 | the special lookup depends only on the downcased pair |
| PathLaws.SpecialPatternsLiveUnderWorkspace | lib/cf/resources/base.rb:81-84 | a special name's segments are exactly `workspaces`, the workspace id and the suffix; without an id it raises |
| PathLaws.SpecialPatternTable | lib/cf/resources/base.rb:304-316 | the five special pairs and their suffixes; Orders::Invoice and Contacts::AppliedTag are not special |
| PathLaws.TwoPartSegments | lib/cf/resources/base.rb:91-123 | a non-special two-part name gives its namespace's segments then its plural resource, or the namespace's error |
| PathLaws.StepWithExplicitId | lib/cf/resources/base.rb:107-109 | a namespace whose key is given is followed by the given value's text |
| PathLaws.NestedListPath | lib/cf/resources/base.rb:59-60 | a nested two-part name lists at `/name/id/resources` |
| PathLaws.OrdersInvoiceIsDualNested | lib/cf/resources/base.rb:86-89 | Orders::Invoice uses the workspace path without `order_id` and the order path with it |
| PathLaws.OrdersInvoiceUnderOrder | lib/cf/resources/base.rb:87-89 | with `order_id`, Orders::Invoice resolves to `orders`, the id, `invoices` |
| PathLaws.NilWorkspaceIdInDefaultWalk | lib/cf/resources/base.rb:107-109 | a present but nil `workspace_id` puts an empty id into the default walk |
| PathLaws.NilWorkspaceIdInSpecialPath | lib/cf/resources/base.rb:331 | the special path falls back to the configured workspace for a nil `workspace_id` |
| PathLaws.ExtractionPartitionsAttributes | lib/cf/resources/base.rb:178-196 | the two outputs together are exactly the attributes; the ids side has only expected keys and the other side none |
| PathLaws.SinglePartExtractsNothing | lib/cf/resources/base.rb:205 | a one-part name extracts nothing |
| PathLaws.ExtractedIdsAreParentIds | lib/cf/resources/base.rb:173-176 | every extracted key ends in `_id` |
| PathLaws.MergedIdsStayOutOfQuery | lib/cf/resources/base.rb:27-30 | merging the extracted ids into the params leaves the query unchanged |
| PathLaws.ResourceKeyOfNamespacedResource | lib/cf/resources/base.rb:253-277 | the body key is the snake-cased namespaces, `_`, and the singular snake-cased resource |
| PathLaws.ResourceKeyOfTopLevelResource | lib/cf/resources/base.rb:264-269 | the body key of a one-part name is its singular snake-cased name |
| PathLaws.ResourceKeyOfWords | lib/cf/resources/base.rb:253-277 | for a name whose parts are runs of capitalised words, the key is each part's words lower-cased and joined by `_`, with the last part singularised, and the parts joined by `_` |
| PathLaws.ListCallShape | lib/cf/resources/base.rb:11-15 | list raises what the segments raise, or gets the list path with the non-id parameters |
| PathLaws.GetCallShape | lib/cf/resources/base.rb:17-21 | get does the same on the member path |
| PathLaws.DeleteCallShape | lib/cf/resources/base.rb:47-51 | delete sends a bodiless delete to the member path |
| PathLaws.WriteCalls | lib/cf/resources/base.rb:23-45 | create posts and update patches the wrapped remaining attributes, with paths from the merged params and the query from the given params |
| PathLaws.NoParentIdReachesTheQuery | lib/cf/resources/base.rb:13 | no operation sends a key ending in `_id` as a query parameter |
| Resources.BuildSpecialWorkspacePath | lib/cf/resources/base.rb:326-343 | computes SpecialWorkspacePath |
| Resources.ResourcePathSegments | lib/cf/resources/base.rb:70-124 | computes PathSegments: special pattern, then Orders::Invoice, then the walk |
| Resources.WalkParts | lib/cf/resources/base.rb:91-123 | the `each_with_index` loop computes the default segments, raising at the first missing id |
| Resources.NamespaceSegments | lib/cf/resources/base.rb:99-119 | one namespace extends the walk by its name and the given or configured id; a missing id is the error of the whole walk |
| Resources.OrdinaryNameWalks | lib/cf/resources/base.rb:81-91 | a name that is neither special nor Orders::Invoice without `order_id` takes the default walk |
| Resources.MissingIdEndsSegments | lib/cf/resources/base.rb:116-117 | a missing id raised mid-walk is the error of the whole walk |
| Resources.ExpectedParentIdsForClass | lib/cf/resources/base.rb:198-217 | the loop computes ExpectedParentIds |
| Resources.SelectStep | lib/cf/resources/base.rb:187-193 | one more attribute grows the selected side by storing that entry and leaves the other side alone |
| Resources.ExtractParentIdsFromAttributes | lib/cf/resources/base.rb:178-196 | the loop computes the order-preserving partition ExtractParentIds |
| Resources.BuildCreatePath | lib/cf/resources/base.rb:219-243 | the dup, reassign, pop and push sequence computes CreatePath |
| Resources.BuildPath | lib/cf/resources/base.rb:55-68 | computes PathFor |
| Resources.Dispatch | lib/cf/resources/base.rb:12-14 | a planning error sends nothing and is raised; a planned call goes through the client |
| Resources.List | lib/cf/resources/base.rb:11-15 | sends exactly what ListCall plans and returns the classified response |
| Resources.Get | lib/cf/resources/base.rb:17-21 | sends exactly what GetCall plans |
| Resources.Create | lib/cf/resources/base.rb:23-33 | sends exactly what CreateCall plans |
| Resources.Update | lib/cf/resources/base.rb:35-45 | sends exactly what UpdateCall plans |
| Resources.Delete | lib/cf/resources/base.rb:47-51 | sends exactly what DeleteCall plans |
| Resources.OperationSendsAtMostOnce | lib/cf/client.rb:37-63 | an operation sends at most one request, exactly when planning and configuration both succeed |
| Config.Configuration.constructor | lib/cf/configuration.rb:7-16 | subdomain, token, workspace and team ids nil; version `v2`; debug false; timeout 30 |
| Config.Configuration.BaseUrl | lib/cf/configuration.rb:18-22 | raises without a subdomain; otherwise `https://<subdomain>.myclickfunnels.com/api/<version>` |
| Config.Configuration.IsValid | lib/cf/configuration.rb:24-26 | valid exactly when subdomain and token are both set, and then `base_url` cannot raise |
| Config.Configuration.IsDebug | lib/cf/configuration.rb:28-30 | equals the debug field |
| Config.Configuration.LogRequests | lib/cf/configuration.rb:32-34 | equals the debug field |
| Config.Configuration.SetSubdomain | lib/cf/configuration.rb:5 | sets the subdomain and nothing else |
| Config.Configuration.SetApiToken | lib/cf/configuration.rb:5 | sets the token and nothing else |
| Config.Configuration.SetApiVersion | lib/cf/configuration.rb:5 | sets the API version and nothing else |
| Config.Configuration.SetDebug | lib/cf/configuration.rb:5 | sets debug and nothing else |
| Config.Configuration.SetTimeout | lib/cf/configuration.rb:5 | sets the timeout and nothing else |
| Config.Configuration.SetWorkspaceId | lib/cf/configuration.rb:5 | sets the workspace id and nothing else |
| Config.Configuration.SetTeamId | lib/cf/configuration.rb:5 | sets the team id and nothing else |
| Auth.BearerTokenHeaders | lib/cf/auth.rb:5-10 | exactly the keys Authorization (`Bearer ` + token) and User-Agent (`CF Ruby SDK ` + version) |
| Auth.ValidateToken | lib/cf/auth.rb:12-14 | raises AuthenticationError exactly for a nil or empty token |
| ApiClient.Transport.constructor | lib/cf/client.rb:10 | a new transport has sent nothing |
| ApiClient.Transport.Send | lib/cf/client.rb:45-50 | records the request and returns the server's reply to it |
| ApiClient.QueryStringAppend | lib/cf/client.rb:80-90 | the query string keeps the parameters' order, joined by `&` |
| ApiClient.QueryStringScalar | lib/cf/client.rb:86-87 | a scalar gives `k=esc(v)` |
| ApiClient.QueryStringArray | lib/cf/client.rb:82-83 | an array gives `k[]=esc(v)` per element, in order |
| ApiClient.QueryStringHash | lib/cf/client.rb:84-85 | a hash gives `k[sub]=esc(v)` per entry, in order |
| ApiClient.QueryStringOneEntryHash | lib/cf/client.rb:84-85 | a one-entry hash gives `k[sub]=esc(v)` |
| ApiClient.QueryStringNestedExample | lib/cf/client.rb:80-90 | two hash parameters give `after[id]=100&filter[status]=paid` |
| ApiClient.QueryStringFloatAndSymbol | lib/cf/client.rb:86-87 | `price: 9.99, status: :paid` gives `price=9.99&status=paid`: floats and symbols go through `to_s` |
| ApiClient.StatusOf | lib/cf/client.rb:96-115 | the generic APIError is the only class without a status |
| ApiClient.ErrorTableInverse | lib/cf/client.rb:96-117 | the ten statuses and ten specific classes correspond one to one; any other status gives APIError with `HTTP <status>` |
| ApiClient.CreateErrorResponse | lib/cf/client.rb:129-138 | the error object has exactly the keys error (true), error_type, message, status and response_body |
| ApiClient.ParseResponseBody | lib/cf/client.rb:121-127 | nil or empty body gives nil; parseable JSON gives the parsed value; otherwise the raw body |
| ApiClient.HandleResponse | lib/cf/client.rb:92-119 | a 2xx response gives the parsed body; any other response returns the error object for its status |
| ApiClient.NotFoundExample | lib/cf/client.rb:102-103 | a 404 gives `CF::NotFoundError` with `Not Found` |
| ApiClient.Client.constructor | lib/cf/client.rb:8-11 | the client holds its configuration and transport |
| ApiClient.Client.ValidateConfiguration | lib/cf/client.rb:60-63 | a missing or empty token raises AuthenticationError before an invalid configuration raises ConfigurationError |
| ApiClient.Client.BuildUrl | lib/cf/client.rb:65-71 | the base URL plus path, then `?` and the query string only when there are parameters |
| ApiClient.Client.Headers | lib/cf/client.rb:73-78 | exactly Authorization, User-Agent, Accept and Content-Type, with the JSON types |
| ApiClient.Client.BuildHeaders | lib/cf/client.rb:73-78 | storing the two JSON headers into the bearer headers gives Headers |
| ApiClient.Client.Prepare | lib/cf/client.rb:37-50 | validation comes first; get and delete go without a body; every request has the standard headers and URL |
| ApiClient.Client.Effect | lib/cf/client.rb:37-54 | nothing is sent on a validation error; otherwise one request, whose reply is classified |
| ApiClient.Client.Request | lib/cf/client.rb:37-54 | sends and returns what Effect describes |
| ApiClient.Client.Get | lib/cf/client.rb:13-15 | a get request without a body |
| ApiClient.Client.Post | lib/cf/client.rb:17-19 | a post request with the body |
| ApiClient.Client.Put | lib/cf/client.rb:21-23 | a put request with the body |
| ApiClient.Client.Patch | lib/cf/client.rb:25-27 | a patch request with the body |
| ApiClient.Client.Delete | lib/cf/client.rb:29-31 | a delete request without a body |
| ApiClient.RequestSendsOnceWhenValid | lib/cf/client.rb:37-63 | a request is sent once exactly when the token is non-empty and the subdomain is set |
| ApiClient.RequestUrl | lib/cf/client.rb:65-71 | a valid request's URL is the base URL, the path, `?` and the query string |
| Vectors.OnePartSegments | lib/cf/resources/base.rb:96-98 | a one-part name's only segment is its plural snake-cased name |
| Vectors.UsersListPath | test/cf/resources/base_test.rb:10-15 | `CF::Users.list` goes to `/users` |
| Vectors.UserGetPath | test/cf/resources/base_test.rb:17-22 | `CF::User.get(123)` goes to `/users/123` |
| Vectors.ProductCreate | test/cf/resources/base_test.rb:24-29 | `CF::Product.create(name: "Test")` posts `{product: {name: "Test"}}` to `/products` |
| Vectors.WorkspaceContactDefaultPath | test/cf/resources/base_test.rb:55-64 | Workspaces::Contact lists under the configured workspace |
| Vectors.WorkspaceContactOverridePath | test/cf/resources/base_test.rb:66-75 | a given workspace id overrides the configured one |
| Vectors.ContactsTagPaths | test/cf/resources/workspace_patterns_test.rb:11-97 | Contacts::Tag lists and gets under the configured workspace, and raises ConfigurationError without one |
| Vectors.AppliedTagPath | test/cf/resources/workspace_patterns_test.rb:83-89 | Contacts::AppliedTag lists under the given contact |
| Vectors.AppliedTagWithoutContactId | lib/cf/resources/base.rb:110-118 | without `contact_id`, Contacts::AppliedTag raises even with workspace and team defaults |
| Vectors.OrdersInvoicePaths | test/cf/resources/workspace_patterns_test.rb:67-81 | Orders::Invoice lists under the workspace, or under the given order |
| Vectors.ContactsTagKey | lib/cf/resources/base.rb:256 | the body key of Contacts::Tag is `contacts_tag` |
| Vectors.ContactKey | lib/cf/resources/base.rb:255 | the body key of Contact is `contact` |
| Vectors.ProductsPriceCreateUnderProduct | lib/cf/resources/base.rb:219-222 | Products::Price with `product_id` 77 creates at `/products/77/prices` |
| Vectors.ProductsPriceCreateTopLevel | lib/cf/resources/base.rb:219-222 | Products::Price without `product_id` creates at `/products/prices` |
| Vectors.ConfigurationScenario | test/cf/configuration_test.rb:10-50 | after setting subdomain `test`, the token and debug: valid, debug and logging on, timeout 30, version `v2`, base URL `https://test.myclickfunnels.com/api/v2` |

## Left out

- The HTTP transport (lib/cf/http/net_http_adapter.rb, lib/cf/http/client.rb) is the `Transport` class. It records each request and answers through an unknown server function. Network errors, timeouts and response headers are not modelled.
- Logging is not modelled: `log_request`, `log_response`, `log_error`, the logger and its lazy creation (lib/cf/configuration.rb:36-42), and lib/cf/logger.rb. The `rescue => e ... raise` in `request` only logs before re-raising, so it is not modelled either.
- The runtime generation of resource classes (lib/cf/resources/base.rb:364-525) is not modelled. A resource type is passed as its list of name parts instead.
- The global `CF.configuration` and `CF.client` singletons and `CF.reset!` (lib/cf.rb) are not modelled. The configuration and the client are passed explicitly.
- `JSON.parse`, `JSON.generate` and `CGI.escape` are library calls. The model takes parse and escape as function parameters. Request bodies stay as values and are not serialised.
- lib/cf/version.rb is not part of this model, so `CF::VERSION` is the client's `sdkVersion` field.
- Values.ToS: arrays and hashes render in a simplified `inspect` form, with strings not escaped.
- Strings.Downcase: only ASCII letters are lowered, whereas Ruby's `downcase` also maps non-ASCII letters.
- Inflector.Singularize and Inflector.Pluralize: Ruby's `$` also matches before a newline; the model reads every ending at the end of the string, so words containing a newline are not covered.
- Symbol and string keys are one key space. Ruby's `params.key?(:order_id)` would not see a string key `"order_id"`; the model treats them alike.
- Resources.ExtractParentIdsFromAttributes, Resources.Create, Resources.Update: these require that the attribute keys are unique, which every Ruby Hash guarantees.
- Configuration field types are fixed: debug is a boolean, timeout an integer, and the ids are strings. Ruby accepts any value.
- Config.Configuration: `apiVersion` is a string and never nil. In Ruby a nil `api_version` interpolates as empty text, giving a URL ending in `/api/`.
- Config.Configuration: `subdomain` is nil or a string. In Ruby `subdomain = false` passes `valid?` (lib/cf/configuration.rb:25), because only nil fails `!subdomain.nil?`, yet `base_url` raises on it (lib/cf/configuration.rb:19).
- Values.Value: a float is kept as the text its `to_s` gives, so float arithmetic and formatting are not modelled. Objects other than nil, booleans, integers, floats, strings, symbols, arrays and hashes (times, big decimals, user objects) are not represented.
