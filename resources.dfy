/**
 * The class methods of CF::Resources::Base (lib/cf/resources/base.rb) as the code runs
 * them: the segment walk, the extraction of parent ids and the create path built up step
 * by step, each proved to compute the Addressing function that states its rule, and the
 * five operations, which send through the client what the Addressing plans describe.
 *
 * A resource type is given by its name parts after "CF" (`name.split("::")` without the
 * first part). The configuration whose workspace and team ids serve as defaults is the one
 * the client was built with: `CF.client` is created from `CF.configuration`.
 */
module Resources {
  import opened Wrappers
  import opened Errors
  import opened Strings
  import opened Values
  import opened Inflector
  import opened Addressing
  import opened PathLaws
  import Config
  import ApiClient

  // ---------------------------------------------------------------- path segments

  /** `build_special_workspace_path`: "workspaces", the workspace id, the suffix. */
  method BuildSpecialWorkspacePath(suffix: string, params: AList<Value>, d: Defaults) returns (r: Result<seq<string>, SdkError>)
    ensures r == SpecialWorkspacePath(suffix, params, d)
  {
    var segments := ["workspaces"];
    var workspaceId: Option<string>;
    var given := Lookup(params, "workspace_id");
    if given.Some? && Truthy(given.value) {
      workspaceId := Some(ToS(given.value));
    } else {
      workspaceId := DefaultParentId("workspace_id", d);
    }
    assert workspaceId == SpecialWorkspaceId(params, d);
    if workspaceId.Some? {
      segments := segments + [workspaceId.value];
    } else {
      return Failure(ConfigurationError(MissingIdMessage("workspace_id")));
    }
    segments := segments + [suffix];
    assert segments == ["workspaces", workspaceId.value, suffix];
    r := Success(segments);
  }

  /**
   * `resource_path_segments`: a special pattern first, then Orders::Invoice without an
   * order id, then the walk over the parts, which raises at the first namespace whose id is
   * neither given nor configured.
   */
  method ResourcePathSegments(parts: seq<string>, params: AList<Value>, d: Defaults) returns (r: Result<seq<string>, SdkError>)
    ensures r == PathSegments(parts, params, d)
  {
    var special := SpecialWorkspacePattern(parts);
    if special.Some? {
      r := BuildSpecialWorkspacePath(special.value, params, d);
      return;
    }
    if parts == ["Orders", "Invoice"] && !HasKey(params, "order_id") {
      r := BuildSpecialWorkspacePath("orders/invoices", params, d);
      return;
    }
    OrdinaryNameWalks(parts, params, d);
    r := WalkParts(parts, params, d);
  }

  /**
   * The `each_with_index` walk of `resource_path_segments`: each namespace adds its name and
   * the id from the parameters or, when it needs one, from the configuration; the last part
   * adds its plural.
   */
  method WalkParts(parts: seq<string>, params: AList<Value>, d: Defaults) returns (r: Result<seq<string>, SdkError>)
    ensures r == DefaultSegments(parts, params, d)
  {
    var segments: seq<string> := [];
    var index := 0;
    assert parts[..0] == [];
    while index < |parts|
      invariant 0 <= index <= |parts|
      invariant SegmentsAfter(parts, index, params, d) == Success(segments)
    {
      if index == |parts| - 1 {
        LastPartEndsSegments(parts, params, d, segments);
        segments := segments + [Pluralize(SnakeCase(parts[index]))];
      } else {
        var step := NamespaceSegments(parts, index, params, d, segments);
        if step.Failure? {
          return step;
        }
        segments := step.value;
      }
      index := index + 1;
    }
    r := Success(segments);
  }

  /**
   * One namespace of the walk: its name, then the id from the parameters or, when the
   * namespace needs one, from the configuration; with neither, the walk raises here.
   */
  method NamespaceSegments(parts: seq<string>, index: int, params: AList<Value>, d: Defaults, before: seq<string>)
    returns (r: Result<seq<string>, SdkError>)
    requires 0 <= index < |parts| - 1
    requires SegmentsAfter(parts, index, params, d) == Success(before)
    ensures r.Success? ==> SegmentsAfter(parts, index + 1, params, d) == r
    ensures r.Failure? ==> DefaultSegments(parts, params, d) == r
  {
    var segment := SnakeCase(parts[index]);
    var segments := before + [segment];
    var key := ParentIdKey(segment);
    if HasKey(params, key) {
      segments := segments + [ToS(Lookup(params, key).value)];
      StepWithGivenId(parts, index, params, d, before);
    } else if NeedsParentId(segment) {
      var parentId := DefaultParentId(key, d);
      if parentId.Some? {
        segments := segments + [parentId.value];
        StepWithDefaultId(parts, index, params, d, before);
      } else {
        MissingIdEndsSegments(parts, index, params, d);
        return Failure(ConfigurationError(MissingIdMessage(key)));
      }
    } else {
      StepWithoutId(parts, index, params, d, before);
    }
    r := Success(segments);
  }

  /** A name that is neither special nor Orders::Invoice without an order id takes the default walk. */
  lemma OrdinaryNameWalks(parts: seq<string>, params: AList<Value>, d: Defaults)
    requires SpecialWorkspacePattern(parts).None?
    requires !(parts == ["Orders", "Invoice"] && !HasKey(params, "order_id"))
    ensures PathSegments(parts, params, d) == DefaultSegments(parts, params, d)
  {
  }

  /**
   * The segments the walk has built once it has gone through the first `index` parts: the
   * namespace walk while parts remain, the default segments at the end.
   */
  ghost function SegmentsAfter(parts: seq<string>, index: int, params: AList<Value>, d: Defaults): Result<seq<string>, SdkError>
    requires 0 <= index <= |parts|
  {
    if index < |parts| then NamespaceWalk(parts[..index], params, d) else DefaultSegments(parts, params, d)
  }

  /** A step that succeeds extends the walk by its segments. */
  lemma StepExtendsWalk(parts: seq<string>, index: int, params: AList<Value>, d: Defaults, before: seq<string>, more: seq<string>)
    requires 0 <= index < |parts|
    requires NamespaceWalk(parts[..index], params, d) == Success(before)
    requires NamespaceStep(parts[index], params, d) == Success(more)
    ensures NamespaceWalk(parts[..index + 1], params, d) == Success(before + more)
  {
    WalkOneMore(parts, index, part => NamespaceStep(part, params, d));
  }

  /** A namespace whose id is given adds its name and that id to the walk. */
  lemma StepWithGivenId(parts: seq<string>, index: int, params: AList<Value>, d: Defaults, before: seq<string>)
    requires 0 <= index < |parts| - 1
    requires SegmentsAfter(parts, index, params, d) == Success(before)
    requires HasKey(params, ParentIdKey(SnakeCase(parts[index])))
    ensures SegmentsAfter(parts, index + 1, params, d)
         == Success(before + [SnakeCase(parts[index])] + [ToS(Lookup(params, ParentIdKey(SnakeCase(parts[index]))).value)])
  {
    var more := [SnakeCase(parts[index]), ToS(Lookup(params, ParentIdKey(SnakeCase(parts[index]))).value)];
    assert before + more == before + [more[0]] + [more[1]];
    StepExtendsWalk(parts, index, params, d, before, more);
  }

  /** A namespace that needs an id and has none given adds its name and the configured id. */
  lemma StepWithDefaultId(parts: seq<string>, index: int, params: AList<Value>, d: Defaults, before: seq<string>)
    requires 0 <= index < |parts| - 1
    requires SegmentsAfter(parts, index, params, d) == Success(before)
    requires !HasKey(params, ParentIdKey(SnakeCase(parts[index])))
    requires NeedsParentId(SnakeCase(parts[index]))
    requires DefaultParentId(ParentIdKey(SnakeCase(parts[index])), d).Some?
    ensures SegmentsAfter(parts, index + 1, params, d)
         == Success(before + [SnakeCase(parts[index])] + [DefaultParentId(ParentIdKey(SnakeCase(parts[index])), d).value])
  {
    var more := [SnakeCase(parts[index]), DefaultParentId(ParentIdKey(SnakeCase(parts[index])), d).value];
    assert before + more == before + [more[0]] + [more[1]];
    StepExtendsWalk(parts, index, params, d, before, more);
  }

  /** A namespace that needs no id and has none given adds only its name. */
  lemma StepWithoutId(parts: seq<string>, index: int, params: AList<Value>, d: Defaults, before: seq<string>)
    requires 0 <= index < |parts| - 1
    requires SegmentsAfter(parts, index, params, d) == Success(before)
    requires !HasKey(params, ParentIdKey(SnakeCase(parts[index])))
    requires !NeedsParentId(SnakeCase(parts[index]))
    ensures SegmentsAfter(parts, index + 1, params, d) == Success(before + [SnakeCase(parts[index])])
  {
    StepExtendsWalk(parts, index, params, d, before, [SnakeCase(parts[index])]);
  }

  /** The walk over the namespaces, then the plural resource name, completes the default segments. */
  lemma LastPartEndsSegments(parts: seq<string>, params: AList<Value>, d: Defaults, prefix: seq<string>)
    requires |parts| > 0
    requires SegmentsAfter(parts, |parts| - 1, params, d) == Success(prefix)
    ensures SegmentsAfter(parts, |parts|, params, d) == Success(prefix + [Pluralize(SnakeCase(parts[|parts| - 1]))])
  {
  }

  /** A walk whose prefix succeeds and whose next step fails ends with that step's error. */
  lemma WalkStopsAt(ns: seq<string>, index: int, step: string -> Result<seq<string>, SdkError>, err: SdkError)
    requires 0 <= index < |ns|
    requires Walk(ns[..index], step).Success?
    requires step(ns[index]) == Failure(err)
    ensures Walk(ns, step) == Failure(err)
  {
    WalkOneMore(ns, index, step);
    WalkFailureIsFinal(ns, index + 1, step);
  }

  /** A namespace whose id is missing, reached with the walk so far intact, ends the default segments with its error. */
  lemma MissingIdEndsSegments(parts: seq<string>, index: int, params: AList<Value>, d: Defaults)
    requires 0 <= index < |parts| - 1
    requires SegmentsAfter(parts, index, params, d).Success?
    requires MissingId(parts[index], params, d)
    ensures DefaultSegments(parts, params, d)
         == Failure(ConfigurationError(MissingIdMessage(ParentIdKey(SnakeCase(parts[index])))))
  {
    var step := part => NamespaceStep(part, params, d);
    var ns := parts[..|parts| - 1];
    var err := ConfigurationError(MissingIdMessage(ParentIdKey(SnakeCase(parts[index]))));
    assert ns[..index] == parts[..index];
    assert ns[index] == parts[index];
    assert step(ns[index]) == Failure(err);
    WalkStopsAt(ns, index, step, err);
  }

  // ---------------------------------------------------------------- parent ids

  /** `get_expected_parent_ids_for_class`: the id key of each namespace part, in order. */
  method ExpectedParentIdsForClass(parts: seq<string>) returns (ids: seq<string>)
    ensures ids == ExpectedParentIds(parts)
  {
    if |parts| <= 1 {
      return [];
    }
    ghost var expected := ExpectedParentIds(parts);
    ids := [];
    for i := 0 to |parts| - 1
      invariant ids == expected[..i]
    {
      ids := ids + [ParentIdKey(SnakeCase(parts[i]))];
    }
    assert expected[..|parts| - 1] == expected;
  }

  /** In a hash with unique keys, no selection from the entries before i holds the key of entry i. */
  lemma SelectionLacksLaterKey(h: AList<Value>, i: int, keep: string -> bool)
    requires UniqueKeys(h)
    requires 0 <= i < |h|
    ensures !HasKey(Select(h[..i], keep), h[i].0)
  {
    var s := Select(h[..i], keep);
    forall j | 0 <= j < |s| ensures s[j].0 != h[i].0 {
      assert s[j] in h[..i];
      var m :| 0 <= m < i && h[..i][m] == s[j];
      assert h[m] == s[j];
    }
  }

  /**
   * One more entry of a hash with unique keys: its selection grows by putting the entry
   * when the entry is kept, and stays as it was otherwise.
   */
  lemma SelectStep(h: AList<Value>, i: int, keep: string -> bool)
    requires UniqueKeys(h)
    requires 0 <= i < |h|
    ensures Select(h[..i + 1], keep)
         == if keep(h[i].0) then Values.Put(Select(h[..i], keep), h[i].0, h[i].1) else Select(h[..i], keep)
  {
    assert h[..i + 1] == h[..i] + [h[i]];
    SelectSnoc(h[..i], h[i], keep);
    SelectionLacksLaterKey(h, i, keep);
  }

  /**
   * `extract_parent_ids_from_attributes`: each attribute goes into the parameters when its
   * key is an expected parent id and into the remaining attributes otherwise. The
   * attributes are a Ruby Hash, so their keys are unique.
   */
  method ExtractParentIdsFromAttributes(parts: seq<string>, attributes: AList<Value>)
    returns (remaining: AList<Value>, params: AList<Value>)
    requires UniqueKeys(attributes)
    ensures (remaining, params) == ExtractParentIds(parts, attributes)
  {
    var expected := ExpectedParentIdsForClass(parts);
    params := [];
    remaining := [];
    for i := 0 to |attributes|
      invariant params == Select(attributes[..i], IsExpected(expected))
      invariant remaining == Select(attributes[..i], IsNotExpected(expected))
    {
      var (key, value) := attributes[i];
      SelectStep(attributes, i, IsExpected(expected));
      SelectStep(attributes, i, IsNotExpected(expected));
      if key in expected {
        params := Values.Put(params, key, value);
      } else {
        remaining := Values.Put(remaining, key, value);
      }
    }
    assert attributes[..|attributes|] == attributes;
  }

  // ---------------------------------------------------------------- paths

  /**
   * `build_create_path`: with a parameter for the second-to-last segment's id, a copy of
   * the segments has that segment replaced by "segment/id", its last segment popped and
   * pushed back, and is joined; otherwise the segments are joined as they are.
   */
  method BuildCreatePath(segments: seq<string>, params: AList<Value>) returns (path: string)
    ensures path == CreatePath(segments, params)
  {
    if |segments| <= 1 {
      return "/" + Join(segments, "/");
    }
    var parentResource := segments[|segments| - 2];
    var resource := segments[|segments| - 1];
    var key := ParentIdKey(parentResource);
    if HasKey(params, key) {
      var pathSegments := segments;
      pathSegments := pathSegments[|pathSegments| - 2 := parentResource + "/" + ToS(Lookup(params, key).value)];
      pathSegments := pathSegments[..|pathSegments| - 1];
      pathSegments := pathSegments + [resource];
      assert pathSegments == segments[..|segments| - 2] + [parentResource + "/" + ToS(Lookup(params, key).value), resource];
      path := "/" + Join(pathSegments, "/");
    } else {
      path := "/" + Join(segments, "/");
    }
  }

  /**
   * `build_path`: the segments are resolved first, then the action picks the collection
   * path, the create path or the member path; any other action raises.
   */
  method BuildPath(parts: seq<string>, action: string, id: Value, params: AList<Value>, d: Defaults)
    returns (r: Result<string, SdkError>)
    ensures r == PathFor(parts, action, id, params, d)
  {
    var segments := ResourcePathSegments(parts, params, d);
    if segments.Failure? {
      return Failure(segments.error);
    }
    if action == "list" {
      r := Success("/" + Join(segments.value, "/"));
    } else if action == "create" {
      var path := BuildCreatePath(segments.value, params);
      r := Success(path);
    } else if action == "get" || action == "update" || action == "delete" {
      r := Success("/" + Join(segments.value, "/") + "/" + ToS(id));
    } else {
      r := Failure(ArgumentError("Unknown action: " + action));
    }
  }

  // ---------------------------------------------------------------- the five operations

  /** The parent-id fallbacks `get_default_parent_id` reads from the configuration. */
  function DefaultsOf(configuration: Config.Configuration): (d: Defaults)
    reads configuration
    ensures d.workspaceId == configuration.workspaceId && d.teamId == configuration.teamId
  {
    Defaults(configuration.workspaceId, configuration.teamId)
  }

  /**
   * What an operation does with its plan: an error raised while planning sends nothing and
   * is raised; a planned call is made through the client.
   */
  function Dispatch(c: ApiClient.Client, plan: Result<Call, SdkError>): (e: (seq<ApiClient.HttpRequest>, Result<Value, SdkError>))
    reads c.configuration
    ensures plan.Failure? ==> e == ([], Failure(plan.error))
    ensures plan.Success? ==> e == c.Effect(plan.value.verb, plan.value.path, plan.value.body, plan.value.query)
  {
    match plan
    case Failure(err) => ([], Failure(err))
    case Success(call) => c.Effect(call.verb, call.path, call.body, call.query)
  }

  /** `list(params)`: a get of the collection path with the non-id parameters. */
  method List(c: ApiClient.Client, parts: seq<string>, params: AList<Value>) returns (r: Result<Value, SdkError>)
    modifies c.transport`sent
    ensures c.transport.sent == old(c.transport.sent) + Dispatch(c, ListCall(parts, params, DefaultsOf(c.configuration))).0
    ensures r == Dispatch(c, ListCall(parts, params, DefaultsOf(c.configuration))).1
  {
    var path := BuildPath(parts, "list", Nil, params, DefaultsOf(c.configuration));
    if path.Failure? {
      return Failure(path.error);
    }
    var query := QueryParams(params);
    r := c.Get(path.value, query);
  }

  /** `get(id, params)`: a get of the member path. */
  method Get(c: ApiClient.Client, parts: seq<string>, id: Value, params: AList<Value>) returns (r: Result<Value, SdkError>)
    modifies c.transport`sent
    ensures c.transport.sent == old(c.transport.sent) + Dispatch(c, GetCall(parts, id, params, DefaultsOf(c.configuration))).0
    ensures r == Dispatch(c, GetCall(parts, id, params, DefaultsOf(c.configuration))).1
  {
    var path := BuildPath(parts, "get", id, params, DefaultsOf(c.configuration));
    if path.Failure? {
      return Failure(path.error);
    }
    var query := QueryParams(params);
    r := c.Get(path.value, query);
  }

  /**
   * `create(attributes, params)`: the expected parent ids move from the attributes into the
   * parameters, and the remaining attributes, wrapped under the resource key, are posted to
   * the create path.
   */
  method Create(c: ApiClient.Client, parts: seq<string>, attributes: AList<Value>, params: AList<Value>)
    returns (r: Result<Value, SdkError>)
    requires UniqueKeys(attributes)
    modifies c.transport`sent
    ensures c.transport.sent == old(c.transport.sent) + Dispatch(c, CreateCall(parts, attributes, params, DefaultsOf(c.configuration))).0
    ensures r == Dispatch(c, CreateCall(parts, attributes, params, DefaultsOf(c.configuration))).1
  {
    var remaining, extracted := ExtractParentIdsFromAttributes(parts, attributes);
    var merged := Merge(params, extracted);
    var path := BuildPath(parts, "create", Nil, merged, DefaultsOf(c.configuration));
    if path.Failure? {
      return Failure(path.error);
    }
    var query := QueryParams(merged);
    var wrapped := Hash([(ResourceKey(parts), Hash(remaining))]);
    r := c.Post(path.value, Some(wrapped), query);
  }

  /** `update(id, attributes, params)`: as create, but patched to the member path. */
  method Update(c: ApiClient.Client, parts: seq<string>, id: Value, attributes: AList<Value>, params: AList<Value>)
    returns (r: Result<Value, SdkError>)
    requires UniqueKeys(attributes)
    modifies c.transport`sent
    ensures c.transport.sent == old(c.transport.sent) + Dispatch(c, UpdateCall(parts, id, attributes, params, DefaultsOf(c.configuration))).0
    ensures r == Dispatch(c, UpdateCall(parts, id, attributes, params, DefaultsOf(c.configuration))).1
  {
    var remaining, extracted := ExtractParentIdsFromAttributes(parts, attributes);
    var merged := Merge(params, extracted);
    var path := BuildPath(parts, "update", id, merged, DefaultsOf(c.configuration));
    if path.Failure? {
      return Failure(path.error);
    }
    var query := QueryParams(merged);
    var wrapped := Hash([(ResourceKey(parts), Hash(remaining))]);
    r := c.Patch(path.value, Some(wrapped), query);
  }

  /** `delete(id, params)`: a delete of the member path. */
  method Delete(c: ApiClient.Client, parts: seq<string>, id: Value, params: AList<Value>) returns (r: Result<Value, SdkError>)
    modifies c.transport`sent
    ensures c.transport.sent == old(c.transport.sent) + Dispatch(c, DeleteCall(parts, id, params, DefaultsOf(c.configuration))).0
    ensures r == Dispatch(c, DeleteCall(parts, id, params, DefaultsOf(c.configuration))).1
  {
    var path := BuildPath(parts, "delete", id, params, DefaultsOf(c.configuration));
    if path.Failure? {
      return Failure(path.error);
    }
    var query := QueryParams(params);
    r := c.Delete(path.value, query);
  }

  /**
   * An operation sends at most one request; it sends one exactly when planning succeeds and
   * the client's configuration lets a request through, and it then returns the classified
   * response. A planning error is raised before any request.
   */
  lemma OperationSendsAtMostOnce(c: ApiClient.Client, plan: Result<Call, SdkError>)
    ensures |Dispatch(c, plan).0| <= 1
    ensures |Dispatch(c, plan).0| == 1 <==>
              plan.Success? && c.configuration.apiToken.Some? && c.configuration.apiToken != Some("")
              && c.configuration.subdomain.Some?
    ensures Dispatch(c, plan).1.Success? <==> |Dispatch(c, plan).0| == 1
  {
    if plan.Success? {
      ApiClient.RequestSendsOnceWhenValid(c, plan.value.verb, plan.value.path, plan.value.body, plan.value.query);
    }
  }
}
