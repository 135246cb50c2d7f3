/**
 * The address and envelope rules of CF::Resources::Base (lib/cf/resources/base.rb), stated
 * as functions of a resource type's name parts: the URL path of each operation, the
 * parent ids that path needs, the query parameters, the split of attributes into parent
 * ids and body, and the key the body is wrapped under. The imperative code that computes
 * the same things step by step is in resources.dfy.
 */
module Addressing {
  import opened Wrappers
  import opened Errors
  import opened Strings
  import opened Values
  import opened Inflector
  import ApiClient

  /**
   * The configured fallbacks for parent ids (`CF.configuration.workspace_id` and
   * `team_id`); no other parent id has one.
   */
  datatype Defaults = Defaults(workspaceId: Option<string>, teamId: Option<string>)

  // ---------------------------------------------------------------- parent ids

  /** The parameter that carries a namespace's id: `"#{segment.chomp("s")}_id"`. */
  function ParentIdKey(segment: string): (k: string)
    ensures IsParentIdParam(k)
    ensures EndsWith(segment, "s") ==> k == segment[..|segment| - 1] + "_id"
    ensures !EndsWith(segment, "s") ==> k == segment + "_id"
  {
    Chomp(segment, "s") + "_id"
  }

  /** `parent_id_param?`: every key ending in "_id" counts as a parent id. */
  predicate IsParentIdParam(key: string)
  {
    EndsWith(key, "_id")
  }

  /** `needs_parent_id_for_namespace?`: the four namespaces whose paths always carry an id. */
  predicate NeedsParentId(segment: string)
  {
    var s := Downcase(segment);
    s == "workspaces" || s == "teams" || s == "contacts" || s == "courses"
  }

  /** `get_default_parent_id`: the configured id for workspace_id and team_id, nothing for any other key. */
  function DefaultParentId(key: string, d: Defaults): (r: Option<string>)
    ensures key == "workspace_id" ==> r == d.workspaceId
    ensures key == "team_id" ==> r == d.teamId
    ensures key != "workspace_id" && key != "team_id" ==> r.None?
  {
    if key == "workspace_id" then d.workspaceId
    else if key == "team_id" then d.teamId
    else None
  }

  /** The message of the ConfigurationError raised for a missing parent id. */
  function MissingIdMessage(key: string): string
  {
    key + " is required. Provide it as a parameter or set it in configuration."
  }

  // ---------------------------------------------------------------- path segments

  /**
   * True when the namespace part needs an id that neither the parameters nor the
   * configuration supply, so that the walk raises a ConfigurationError at it.
   */
  predicate MissingId(part: string, params: AList<Value>, d: Defaults)
  {
    var key := ParentIdKey(SnakeCase(part));
    !HasKey(params, key) && NeedsParentId(SnakeCase(part)) && DefaultParentId(key, d).None?
  }

  /**
   * The segments one namespace part contributes: its snake-cased name, followed by the id
   * from the parameters if the key is present, else by the configured default if the
   * namespace needs one.
   */
  function NamespaceStep(part: string, params: AList<Value>, d: Defaults): (r: Result<seq<string>, SdkError>)
    ensures r.Failure? <==> MissingId(part, params, d)
    ensures r.Failure? ==> r.error == ConfigurationError(MissingIdMessage(ParentIdKey(SnakeCase(part))))
    ensures r.Success? ==> 1 <= |r.value| <= 2 && r.value[0] == SnakeCase(part)
    ensures r.Success? && |r.value| == 1 ==> !HasKey(params, ParentIdKey(SnakeCase(part)))
  {
    var segment := SnakeCase(part);
    var key := ParentIdKey(segment);
    match Lookup(params, key)
    case Some(v) => Success([segment, ToS(v)])
    case None =>
      if NeedsParentId(segment) then
        match DefaultParentId(key, d)
        case Some(id) => Success([segment, id])
        case None => Failure(ConfigurationError(MissingIdMessage(key)))
      else Success([segment])
  }

  /** A left-to-right walk over name parts that appends each step's segments and stops at the first failing step. */
  function Walk(ns: seq<string>, step: string -> Result<seq<string>, SdkError>): Result<seq<string>, SdkError>
    decreases |ns|
  {
    if |ns| == 0 then Success([])
    else
      match Walk(ns[..|ns| - 1], step)
      case Failure(e) => Failure(e)
      case Success(prefix) =>
        match step(ns[|ns| - 1])
        case Failure(e) => Failure(e)
        case Success(more) => Success(prefix + more)
  }

  /** The namespace parts of the default walk, left to right; the first missing id raises. */
  function NamespaceWalk(ns: seq<string>, params: AList<Value>, d: Defaults): Result<seq<string>, SdkError>
  {
    Walk(ns, part => NamespaceStep(part, params, d))
  }

  /** The default walk: the namespaces, then the snake-cased and pluralised resource name. */
  function DefaultSegments(parts: seq<string>, params: AList<Value>, d: Defaults): Result<seq<string>, SdkError>
  {
    if |parts| == 0 then Success([])
    else
      match NamespaceWalk(parts[..|parts| - 1], params, d)
      case Failure(e) => Failure(e)
      case Success(prefix) => Success(prefix + [Pluralize(SnakeCase(parts[|parts| - 1]))])
  }

  /**
   * `special_workspace_pattern`: the path suffix of the five two-part names that live
   * under a workspace whatever their namespace. The pair is compared after `downcase`,
   * not after snake-casing; orders/invoice is explicitly not one of them.
   */
  function SpecialWorkspacePattern(parts: seq<string>): (r: Option<string>)
    ensures r.Some? ==> |parts| == 2
  {
    if |parts| != 2 then None
    else
      var namespace := Downcase(parts[0]);
      var resource := Downcase(parts[1]);
      if namespace == "orders" && resource == "invoice" then None
      else if namespace == "contacts" && resource == "tag" then Some("contacts/tags")
      else if namespace == "orders" && resource == "tag" then Some("orders/tags")
      else if namespace == "funnels" && resource == "tag" then Some("funnels/tags")
      else if namespace == "products" && resource == "tag" then Some("products/tags")
      else if namespace == "products" && resource == "collection" then Some("products/collections")
      else None
  }

  /**
   * The workspace id of a special path: `params[:workspace_id] || default`. Unlike the
   * default walk, a present but nil (or false) parameter falls back to the default.
   */
  function SpecialWorkspaceId(params: AList<Value>, d: Defaults): (r: Option<string>)
    ensures HasKey(params, "workspace_id") && Truthy(Lookup(params, "workspace_id").value) ==>
              r == Some(ToS(Lookup(params, "workspace_id").value))
    ensures !(HasKey(params, "workspace_id") && Truthy(Lookup(params, "workspace_id").value)) ==>
              r == d.workspaceId
  {
    match Lookup(params, "workspace_id")
    case Some(v) => if Truthy(v) then Some(ToS(v)) else d.workspaceId
    case None => d.workspaceId
  }

  /** `build_special_workspace_path`: workspaces, the workspace id, the suffix. */
  function SpecialWorkspacePath(suffix: string, params: AList<Value>, d: Defaults): (r: Result<seq<string>, SdkError>)
    ensures r.Failure? <==> SpecialWorkspaceId(params, d).None?
    ensures r.Failure? ==> r.error == ConfigurationError(MissingIdMessage("workspace_id"))
    ensures r.Success? ==> r.value == ["workspaces", SpecialWorkspaceId(params, d).value, suffix]
  {
    match SpecialWorkspaceId(params, d)
    case Some(ws) => Success(["workspaces", ws, suffix])
    case None => Failure(ConfigurationError(MissingIdMessage("workspace_id")))
  }

  /** `resource_path_segments`: a special pattern, then Orders::Invoice, then the default walk. */
  function PathSegments(parts: seq<string>, params: AList<Value>, d: Defaults): Result<seq<string>, SdkError>
  {
    match SpecialWorkspacePattern(parts)
    case Some(suffix) => SpecialWorkspacePath(suffix, params, d)
    case None =>
      if parts == ["Orders", "Invoice"] && !HasKey(params, "order_id") then
        SpecialWorkspacePath("orders/invoices", params, d)
      else DefaultSegments(parts, params, d)
  }

  // ---------------------------------------------------------------- paths

  /** The collection path: a slash, then the segments joined by slashes. */
  function ListPath(segments: seq<string>): string
  {
    "/" + Join(segments, "/")
  }

  /**
   * `build_create_path`: the collection path, except that when the parameters hold the id
   * key of the second-to-last segment, that segment is followed by the id.
   */
  function CreatePath(segments: seq<string>, params: AList<Value>): string
  {
    if |segments| <= 1 then ListPath(segments)
    else
      var parent := segments[|segments| - 2];
      match Lookup(params, ParentIdKey(parent))
      case Some(v) =>
        ListPath(segments[..|segments| - 2] + [parent + "/" + ToS(v), segments[|segments| - 1]])
      case None => ListPath(segments)
  }

  /** `build_path`: the segments are resolved first, so their errors come before an unknown action. */
  function PathFor(parts: seq<string>, action: string, id: Value, params: AList<Value>, d: Defaults): Result<string, SdkError>
  {
    match PathSegments(parts, params, d)
    case Failure(e) => Failure(e)
    case Success(segments) =>
      if action == "list" then Success(ListPath(segments))
      else if action == "create" then Success(CreatePath(segments, params))
      else if action == "get" || action == "update" || action == "delete" then
        Success(ListPath(segments) + "/" + ToS(id))
      else Failure(ArgumentError("Unknown action: " + action))
  }

  // ---------------------------------------------------------------- parameters and body

  /** The keys `reject { |k, _v| parent_id_param?(k) }` keeps. */
  function InQuery(): string -> bool
  {
    k => !IsParentIdParam(k)
  }

  /** The query parameters of every operation: the parameters without the parent ids, in order. */
  function QueryParams(params: AList<Value>): (q: AList<Value>)
    ensures forall i :: 0 <= i < |q| ==> q[i] in params && !IsParentIdParam(q[i].0)
    ensures forall i :: 0 <= i < |params| && !IsParentIdParam(params[i].0) ==> params[i] in q
  {
    Select(params, InQuery())
  }

  /** `get_expected_parent_ids_for_class`: the id key of every namespace part. */
  function ExpectedParentIds(parts: seq<string>): (ids: seq<string>)
    ensures |parts| <= 1 ==> ids == []
    ensures |parts| > 1 ==> |ids| == |parts| - 1
    ensures forall i :: 0 <= i < |ids| ==> ids[i] == ParentIdKey(SnakeCase(parts[i]))
  {
    if |parts| <= 1 then []
    else seq(|parts| - 1, i requires 0 <= i < |parts| - 1 => ParentIdKey(SnakeCase(parts[i])))
  }

  /** The keys `expected_parent_ids.include?(key)` accepts, and those it rejects. */
  function IsExpected(expected: seq<string>): string -> bool
  {
    k => k in expected
  }

  function IsNotExpected(expected: seq<string>): string -> bool
  {
    k => k !in expected
  }

  /**
   * `extract_parent_ids_from_attributes`: the attributes that are not expected parent ids,
   * and those that are, each in the attributes' order.
   */
  function ExtractParentIds(parts: seq<string>, attributes: AList<Value>): (AList<Value>, AList<Value>)
  {
    var expected := ExpectedParentIds(parts);
    (Select(attributes, IsNotExpected(expected)), Select(attributes, IsExpected(expected)))
  }

  /** `generate_resource_key`: the snake-cased namespaces and the singular resource, joined by "_". */
  function ResourceKey(parts: seq<string>): string
  {
    Join(seq(|parts|, i requires 0 <= i < |parts| =>
               if i == |parts| - 1 then Singularize(SnakeCase(parts[i])) else SnakeCase(parts[i])), "_")
  }

  /** `wrap_attributes_for_request`: a one-entry hash from the resource key to the attributes. */
  function WrapAttributes(parts: seq<string>, attributes: AList<Value>): (v: Value)
    ensures v.Hash? && Keys(v.entries) == [ResourceKey(parts)]
    ensures Lookup(v.entries, ResourceKey(parts)) == Some(Hash(attributes))
  {
    Hash([(ResourceKey(parts), Hash(attributes))])
  }

  // ---------------------------------------------------------------- operations

  /** The client call one of the five operations makes: verb, path, body and query parameters. */
  datatype Call = Call(verb: ApiClient.Verb, path: string, body: Option<Value>, query: AList<Value>)

  /** The call `list` makes, or the error it raises before calling. */
  function ListCall(parts: seq<string>, params: AList<Value>, d: Defaults): Result<Call, SdkError>
  {
    match PathFor(parts, "list", Nil, params, d)
    case Failure(e) => Failure(e)
    case Success(path) => Success(Call(ApiClient.Verb.Get, path, None, QueryParams(params)))
  }

  /** The call `get` makes. */
  function GetCall(parts: seq<string>, id: Value, params: AList<Value>, d: Defaults): Result<Call, SdkError>
  {
    match PathFor(parts, "get", id, params, d)
    case Failure(e) => Failure(e)
    case Success(path) => Success(Call(ApiClient.Verb.Get, path, None, QueryParams(params)))
  }

  /** The parameters of create and update: the given ones merged with the ids taken from the attributes. */
  function MergedParams(parts: seq<string>, attributes: AList<Value>, params: AList<Value>): AList<Value>
  {
    Merge(params, ExtractParentIds(parts, attributes).1)
  }

  /** The call `create` makes: a post of the wrapped remaining attributes. */
  function CreateCall(parts: seq<string>, attributes: AList<Value>, params: AList<Value>, d: Defaults): Result<Call, SdkError>
  {
    var merged := MergedParams(parts, attributes, params);
    match PathFor(parts, "create", Nil, merged, d)
    case Failure(e) => Failure(e)
    case Success(path) =>
      Success(Call(ApiClient.Verb.Post, path, Some(WrapAttributes(parts, ExtractParentIds(parts, attributes).0)),
                   QueryParams(merged)))
  }

  /** The call `update` makes: a patch of the wrapped remaining attributes. */
  function UpdateCall(parts: seq<string>, id: Value, attributes: AList<Value>, params: AList<Value>, d: Defaults): Result<Call, SdkError>
  {
    var merged := MergedParams(parts, attributes, params);
    match PathFor(parts, "update", id, merged, d)
    case Failure(e) => Failure(e)
    case Success(path) =>
      Success(Call(ApiClient.Verb.Patch, path, Some(WrapAttributes(parts, ExtractParentIds(parts, attributes).0)),
                   QueryParams(merged)))
  }

  /** The call `delete` makes. */
  function DeleteCall(parts: seq<string>, id: Value, params: AList<Value>, d: Defaults): Result<Call, SdkError>
  {
    match PathFor(parts, "delete", id, params, d)
    case Failure(e) => Failure(e)
    case Success(path) => Success(Call(ApiClient.Verb.Delete, path, None, QueryParams(params)))
  }
}
