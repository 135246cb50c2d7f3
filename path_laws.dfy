/**
 * What the address and envelope rules of lib/cf/resources/base.rb guarantee, proved about
 * the functions of the Addressing module.
 */
module PathLaws {
  import opened Wrappers
  import opened Errors
  import opened Strings
  import opened Values
  import opened Inflector
  import opened Addressing

  // ---------------------------------------------------------------- the default walk

  /** A walk fails exactly when one of its steps fails. */
  lemma {:induction false} WalkFailsIffStepFails(ns: seq<string>, step: string -> Result<seq<string>, SdkError>)
    ensures Walk(ns, step).Failure? <==> exists i :: 0 <= i < |ns| && step(ns[i]).Failure?
    decreases |ns|
  {
    if |ns| > 0 {
      var init := ns[..|ns| - 1];
      WalkFailsIffStepFails(init, step);
      if Walk(init, step).Failure? {
        var i :| 0 <= i < |init| && step(init[i]).Failure?;
        assert init[i] == ns[i];
      } else {
        forall j | 0 <= j < |ns| - 1 ensures step(ns[j]).Success? {
          assert init[j] == ns[j];
        }
      }
    }
  }

  /** A failing walk reports the error of its first failing step. */
  lemma {:induction false} WalkReportsFirstFailure(ns: seq<string>, step: string -> Result<seq<string>, SdkError>)
    requires Walk(ns, step).Failure?
    ensures exists i :: 0 <= i < |ns| && step(ns[i]).Failure? && Walk(ns, step).error == step(ns[i]).error
              && forall j :: 0 <= j < i ==> step(ns[j]).Success?
    decreases |ns|
  {
    var init := ns[..|ns| - 1];
    if Walk(init, step).Failure? {
      WalkReportsFirstFailure(init, step);
      var i :| 0 <= i < |init| && step(init[i]).Failure? && Walk(init, step).error == step(init[i]).error
               && forall j :: 0 <= j < i ==> step(init[j]).Success?;
      assert init[i] == ns[i];
      forall j | 0 <= j < i ensures step(ns[j]).Success? {
        assert init[j] == ns[j];
      }
    } else {
      WalkFailsIffStepFails(init, step);
      forall j | 0 <= j < |ns| - 1 ensures step(ns[j]).Success? {
        assert init[j] == ns[j];
      }
    }
  }

  /** Once a prefix of the walk has failed, the whole walk fails with the same error. */
  lemma {:induction false} WalkFailureIsFinal(ns: seq<string>, i: int, step: string -> Result<seq<string>, SdkError>)
    requires 0 <= i <= |ns|
    requires Walk(ns[..i], step).Failure?
    ensures Walk(ns, step) == Walk(ns[..i], step)
    decreases |ns|
  {
    if i < |ns| {
      var init := ns[..|ns| - 1];
      assert init[..i] == ns[..i];
      WalkFailureIsFinal(init, i, step);
    } else {
      assert ns[..i] == ns;
    }
  }

  /** One more part: the walk of a longer prefix is the shorter walk followed by that part's step. */
  lemma WalkOneMore(ns: seq<string>, i: int, step: string -> Result<seq<string>, SdkError>)
    requires 0 <= i < |ns|
    ensures Walk(ns[..i + 1], step)
         == match Walk(ns[..i], step)
            case Failure(e) => Failure(e)
            case Success(prefix) =>
              match step(ns[i])
              case Failure(e) => Failure(e)
              case Success(more) => Success(prefix + more)
  {
    assert ns[..i + 1][..i] == ns[..i];
    assert ns[..i + 1][i] == ns[i];
  }

  /** A namespace step fails exactly when the namespace's id is missing. */
  lemma StepFailsIffIdMissing(ns: seq<string>, params: AList<Value>, d: Defaults)
    ensures forall i :: 0 <= i < |ns| ==>
              ((part => NamespaceStep(part, params, d))(ns[i]).Failure? <==> MissingId(ns[i], params, d))
  {
  }

  /** The namespace walk raises exactly when some namespace lacks an id it needs. */
  lemma WalkFailsIffIdMissing(ns: seq<string>, params: AList<Value>, d: Defaults)
    ensures NamespaceWalk(ns, params, d).Failure? <==> exists i :: 0 <= i < |ns| && MissingId(ns[i], params, d)
  {
    WalkFailsIffStepFails(ns, part => NamespaceStep(part, params, d));
    StepFailsIffIdMissing(ns, params, d);
  }

  /** When the namespace walk raises, its message names the key of the first namespace without an id. */
  lemma WalkReportsFirstMissingId(ns: seq<string>, params: AList<Value>, d: Defaults)
    requires NamespaceWalk(ns, params, d).Failure?
    ensures exists i :: 0 <= i < |ns| && FirstMissingIdAt(ns, i, params, d)
              && NamespaceWalk(ns, params, d).error == ConfigurationError(MissingIdMessage(ParentIdKey(SnakeCase(ns[i]))))
  {
    var step := part => NamespaceStep(part, params, d);
    WalkReportsFirstFailure(ns, step);
    StepFailsIffIdMissing(ns, params, d);
    var i :| 0 <= i < |ns| && step(ns[i]).Failure? && Walk(ns, step).error == step(ns[i]).error
             && forall j :: 0 <= j < i ==> step(ns[j]).Success?;
    assert FirstMissingIdAt(ns, i, params, d);
  }

  /** Position i holds the first namespace whose id is missing. */
  predicate FirstMissingIdAt(ns: seq<string>, i: int, params: AList<Value>, d: Defaults)
    requires 0 <= i < |ns|
  {
    MissingId(ns[i], params, d) && forall j :: 0 <= j < i ==> !MissingId(ns[j], params, d)
  }

  /** The id text a namespace contributes when its key is in the parameters. */
  function ExplicitId(part: string, params: AList<Value>): string
  {
    match Lookup(params, ParentIdKey(SnakeCase(part)))
    case Some(v) => ToS(v)
    case None => ""
  }

  /** The segments of every part, in order, concatenated. */
  function FlatMap(ns: seq<string>, f: string -> seq<string>): seq<string>
    decreases |ns|
  {
    if |ns| == 0 then [] else FlatMap(ns[..|ns| - 1], f) + f(ns[|ns| - 1])
  }

  /** A walk whose every step succeeds concatenates the steps' segments. */
  lemma {:induction false} WalkOfSucceedingSteps(ns: seq<string>, step: string -> Result<seq<string>, SdkError>, f: string -> seq<string>)
    requires forall i :: 0 <= i < |ns| ==> step(ns[i]) == Success(f(ns[i]))
    ensures Walk(ns, step) == Success(FlatMap(ns, f))
    decreases |ns|
  {
    if |ns| > 0 {
      var init := ns[..|ns| - 1];
      forall i | 0 <= i < |init| ensures step(init[i]) == Success(f(init[i])) {
        assert init[i] == ns[i];
      }
      WalkOfSucceedingSteps(init, step, f);
    }
  }

  /** When every part gives two segments, part i gives the segments at 2i and 2i+1. */
  lemma {:induction false} FlatMapOfPairs(ns: seq<string>, f: string -> seq<string>)
    requires forall i :: 0 <= i < |ns| ==> |f(ns[i])| == 2
    ensures |FlatMap(ns, f)| == 2 * |ns|
    ensures forall i :: 0 <= i < |ns| ==> FlatMap(ns, f)[2 * i] == f(ns[i])[0] && FlatMap(ns, f)[2 * i + 1] == f(ns[i])[1]
    decreases |ns|
  {
    if |ns| > 0 {
      var init := ns[..|ns| - 1];
      forall i | 0 <= i < |init| ensures |f(init[i])| == 2 {
        assert init[i] == ns[i];
      }
      FlatMapOfPairs(init, f);
      forall i | 0 <= i < |ns| ensures FlatMap(ns, f)[2 * i] == f(ns[i])[0] && FlatMap(ns, f)[2 * i + 1] == f(ns[i])[1] {
        if i < |init| {
          assert init[i] == ns[i];
        }
      }
    }
  }

  /** The segments of a walk in which every namespace is followed by its explicit id. */
  function ExplicitWalk(ns: seq<string>, params: AList<Value>): seq<string>
  {
    FlatMap(ns, part => [SnakeCase(part), ExplicitId(part, params)])
  }

  /**
   * When the parameters carry the id of every namespace, the walk never raises, ignores
   * the configured defaults, and puts each namespace's id right after its name.
   */
  lemma ExplicitIdsWin(ns: seq<string>, params: AList<Value>, d: Defaults)
    requires forall i :: 0 <= i < |ns| ==> HasKey(params, ParentIdKey(SnakeCase(ns[i])))
    ensures NamespaceWalk(ns, params, d) == Success(ExplicitWalk(ns, params))
    ensures |ExplicitWalk(ns, params)| == 2 * |ns|
    ensures forall i :: 0 <= i < |ns| ==>
              ExplicitWalk(ns, params)[2 * i] == SnakeCase(ns[i]) && ExplicitWalk(ns, params)[2 * i + 1] == ExplicitId(ns[i], params)
  {
    var f := part => [SnakeCase(part), ExplicitId(part, params)];
    var step := part => NamespaceStep(part, params, d);
    forall i | 0 <= i < |ns| ensures step(ns[i]) == Success(f(ns[i])) {
      assert HasKey(params, ParentIdKey(SnakeCase(ns[i])));
    }
    WalkOfSucceedingSteps(ns, step, f);
    FlatMapOfPairs(ns, f);
  }

  /**
   * Of the four namespaces that need an id, only workspaces and teams can take it from the
   * configuration: a contacts or courses namespace without an explicit id always raises.
   */
  lemma OnlyWorkspaceAndTeamHaveDefaults(part: string, params: AList<Value>, d: Defaults)
    requires SnakeCase(part) == "contacts" || SnakeCase(part) == "courses"
    requires !HasKey(params, ParentIdKey(SnakeCase(part)))
    ensures MissingId(part, params, d)
    ensures NamespaceStep(part, params, d) == Failure(ConfigurationError(MissingIdMessage(ParentIdKey(SnakeCase(part)))))
  {
    var s := SnakeCase(part);
    DowncaseNoUpper(s);
    if s == "contacts" {
      assert EndsWith(s, "s");
      assert ParentIdKey(s) == "contact_id";
    } else {
      assert EndsWith(s, "s");
      assert ParentIdKey(s) == "course_id";
    }
  }

  /** A workspaces or teams namespace without an explicit id takes the configured one. */
  lemma WorkspaceAndTeamUseDefaults(part: string, params: AList<Value>, d: Defaults)
    requires SnakeCase(part) == "workspaces" || SnakeCase(part) == "teams"
    requires !HasKey(params, ParentIdKey(SnakeCase(part)))
    ensures SnakeCase(part) == "workspaces" && d.workspaceId.Some? ==>
              NamespaceStep(part, params, d) == Success(["workspaces", d.workspaceId.value])
    ensures SnakeCase(part) == "teams" && d.teamId.Some? ==>
              NamespaceStep(part, params, d) == Success(["teams", d.teamId.value])
    ensures MissingId(part, params, d) <==>
              (if SnakeCase(part) == "workspaces" then d.workspaceId.None? else d.teamId.None?)
  {
    var s := SnakeCase(part);
    DowncaseNoUpper(s);
    assert EndsWith(s, "s");
    if s == "workspaces" {
      assert ParentIdKey(s) == "workspace_id";
    } else {
      assert ParentIdKey(s) == "team_id";
    }
  }

  /** A namespace outside the four never needs an id: without an explicit one it adds only its name. */
  lemma OtherNamespacesNeedNoId(part: string, params: AList<Value>, d: Defaults)
    requires !NeedsParentId(SnakeCase(part))
    requires !HasKey(params, ParentIdKey(SnakeCase(part)))
    ensures NamespaceStep(part, params, d) == Success([SnakeCase(part)])
  {
  }

  // ---------------------------------------------------------------- paths

  /**
   * get, update and delete address one member of the list path: they fail exactly when
   * list fails, with the same error, and otherwise append "/" and the id to it.
   */
  lemma MemberPathExtendsListPath(parts: seq<string>, action: string, id: Value, params: AList<Value>, d: Defaults)
    requires action == "get" || action == "update" || action == "delete"
    ensures PathFor(parts, action, id, params, d).Success? <==> PathFor(parts, "list", Nil, params, d).Success?
    ensures PathFor(parts, action, id, params, d).Success? ==>
              PathFor(parts, action, id, params, d).value == PathFor(parts, "list", Nil, params, d).value + "/" + ToS(id)
    ensures PathFor(parts, action, id, params, d).Failure? ==>
              PathFor(parts, action, id, params, d) == PathFor(parts, "list", Nil, params, d)
  {
  }

  /**
   * Any action other than the five raises: an ArgumentError naming it when the segments
   * resolve, else the segments' own ConfigurationError, which is raised first.
   */
  lemma UnknownActionRaises(parts: seq<string>, action: string, id: Value, params: AList<Value>, d: Defaults)
    requires action != "list" && action != "create" && action != "get" && action != "update" && action != "delete"
    ensures PathFor(parts, action, id, params, d).Failure?
    ensures PathSegments(parts, params, d).Success? ==>
              PathFor(parts, action, id, params, d).error == ArgumentError("Unknown action: " + action)
    ensures PathSegments(parts, params, d).Failure? ==>
              PathFor(parts, action, id, params, d).error == PathSegments(parts, params, d).error
  {
  }

  /** The joined path of a prefix followed by one more segment. */
  lemma ListPathAppendOne(a: seq<string>, x: string)
    ensures ListPath(a + [x]) == (if |a| == 0 then "/" + x else ListPath(a) + "/" + x)
  {
    if |a| > 0 {
      JoinSnoc(a, x, "/");
    } else {
      assert a + [x] == [x];
    }
  }

  lemma ListPathOfOne(a: string)
    ensures ListPath([a]) == "/" + a
  {
  }

  lemma ListPathOfThree(a: string, b: string, c: string)
    ensures ListPath([a, b, c]) == "/" + a + "/" + b + "/" + c
  {
    assert [a, b, c] == [a, b] + [c] && [a, b] == [a] + [b];
    ListPathAppendOne([a], b);
    ListPathAppendOne([a, b], c);
  }

  /** Replacing the second-to-last segment p by "p/x" inserts "/x" before the last segment. */
  lemma ListPathInsert(a: seq<string>, parent: string, x: string, last: string)
    ensures ListPath(a + [parent + "/" + x, last]) == ListPath(a + [parent]) + "/" + x + "/" + last
  {
    var y := parent + "/" + x;
    assert a + [y, last] == (a + [y]) + [last];
    ListPathAppendOne(a + [y], last);
    ListPathAppendOne(a, y);
    ListPathAppendOne(a, parent);
  }

  /**
   * The create path is the list path, except that when the parameters hold the id key of
   * the second-to-last segment, the id is inserted between that segment and the last one.
   */
  lemma CreatePathInsertsParentId(segments: seq<string>, params: AList<Value>)
    requires |segments| >= 2
    ensures HasKey(params, ParentIdKey(segments[|segments| - 2])) ==>
              CreatePath(segments, params)
              == ListPath(segments[..|segments| - 1]) + "/" + ToS(Lookup(params, ParentIdKey(segments[|segments| - 2])).value)
                 + "/" + segments[|segments| - 1]
    ensures !HasKey(params, ParentIdKey(segments[|segments| - 2])) ==> CreatePath(segments, params) == ListPath(segments)
  {
    var n := |segments|;
    var parent := segments[n - 2];
    if HasKey(params, ParentIdKey(parent)) {
      assert segments[..n - 1] == segments[..n - 2] + [parent];
      ListPathInsert(segments[..n - 2], parent, ToS(Lookup(params, ParentIdKey(parent)).value), segments[n - 1]);
    }
  }

  /** With at most one segment, create posts to the list path. */
  lemma CreatePathOfShortSegments(segments: seq<string>, params: AList<Value>)
    requires |segments| <= 1
    ensures CreatePath(segments, params) == ListPath(segments)
  {
  }

  // ---------------------------------------------------------------- special patterns

  lemma DowncaseIdempotent(s: string)
    ensures Downcase(Downcase(s)) == Downcase(s)
  {
  }

  /** The special patterns ignore letter case: only the downcased pair counts. */
  lemma SpecialPatternIgnoresCase(parts: seq<string>)
    requires |parts| == 2
    ensures SpecialWorkspacePattern(parts) == SpecialWorkspacePattern([Downcase(parts[0]), Downcase(parts[1])])
  {
    DowncaseIdempotent(parts[0]);
    DowncaseIdempotent(parts[1]);
  }

  /**
   * A two-part name on the special list lives under its workspace: the segments are
   * "workspaces", the workspace id and the suffix, and with no workspace id at all the
   * lookup raises.
   */
  lemma SpecialPatternsLiveUnderWorkspace(parts: seq<string>, params: AList<Value>, d: Defaults)
    requires SpecialWorkspacePattern(parts).Some?
    ensures PathSegments(parts, params, d).Failure? <==> SpecialWorkspaceId(params, d).None?
    ensures PathSegments(parts, params, d).Failure? ==>
              PathSegments(parts, params, d).error == ConfigurationError(MissingIdMessage("workspace_id"))
    ensures PathSegments(parts, params, d).Success? ==>
              PathSegments(parts, params, d).value
              == ["workspaces", SpecialWorkspaceId(params, d).value, SpecialWorkspacePattern(parts).value]
  {
  }

  /** The five pairs of the table, and their suffixes. */
  lemma SpecialPatternTable()
    ensures SpecialWorkspacePattern(["Contacts", "Tag"]) == Some("contacts/tags")
    ensures SpecialWorkspacePattern(["Orders", "Tag"]) == Some("orders/tags")
    ensures SpecialWorkspacePattern(["Funnels", "Tag"]) == Some("funnels/tags")
    ensures SpecialWorkspacePattern(["Products", "Tag"]) == Some("products/tags")
    ensures SpecialWorkspacePattern(["Products", "Collection"]) == Some("products/collections")
    ensures SpecialWorkspacePattern(["Orders", "Invoice"]) == None
    ensures SpecialWorkspacePattern(["Contacts", "AppliedTag"]) == None
  {
    assert Downcase("Contacts") == "contacts";
    assert Downcase("Orders") == "orders";
    assert Downcase("Funnels") == "funnels";
    assert Downcase("Products") == "products";
    assert Downcase("Tag") == "tag";
    assert Downcase("Collection") == "collection";
    assert Downcase("Invoice") == "invoice";
    assert Downcase("AppliedTag") == "appliedtag";
  }

  /** A two-part name that is not special: the namespace's step, then the plural resource. */
  lemma TwoPartSegments(a: string, b: string, params: AList<Value>, d: Defaults)
    requires SpecialWorkspacePattern([a, b]).None?
    requires [a, b] != ["Orders", "Invoice"] || HasKey(params, "order_id")
    ensures NamespaceStep(a, params, d).Failure? ==> PathSegments([a, b], params, d) == Failure(NamespaceStep(a, params, d).error)
    ensures NamespaceStep(a, params, d).Success? ==>
              PathSegments([a, b], params, d) == Success(NamespaceStep(a, params, d).value + [Pluralize(SnakeCase(b))])
  {
    var ns := [a, b][..1];
    assert ns == [a] && ns[..0] == [];
    var step := part => NamespaceStep(part, params, d);
    assert Walk(ns[..0], step) == Success([]);
    if NamespaceStep(a, params, d).Success? {
      assert [] + NamespaceStep(a, params, d).value == NamespaceStep(a, params, d).value;
      assert NamespaceWalk(ns, params, d) == Success(NamespaceStep(a, params, d).value);
      assert DefaultSegments([a, b], params, d) == Success(NamespaceStep(a, params, d).value + [Pluralize(SnakeCase(b))]);
    } else {
      assert NamespaceWalk(ns, params, d) == Failure(NamespaceStep(a, params, d).error);
    }
  }

  /** A namespace whose id key is in the parameters is followed by that id. */
  lemma StepWithExplicitId(part: string, params: AList<Value>, d: Defaults)
    requires HasKey(params, ParentIdKey(SnakeCase(part)))
    ensures NamespaceStep(part, params, d) == Success([SnakeCase(part), ToS(Lookup(params, ParentIdKey(SnakeCase(part))).value)])
  {
  }

  /**
   * A two-part name that is not special, whose namespace adds a name and an id: the
   * segments are that name, that id and the plural resource ...
   */
  lemma NestedSegments(a: string, b: string, params: AList<Value>, d: Defaults, parent: string, id: string)
    requires SpecialWorkspacePattern([a, b]).None?
    requires [a, b] != ["Orders", "Invoice"] || HasKey(params, "order_id")
    requires NamespaceStep(a, params, d) == Success([parent, id])
    ensures PathSegments([a, b], params, d) == Success([parent, id, Pluralize(SnakeCase(b))])
  {
    TwoPartSegments(a, b, params, d);
    assert [parent, id] + [Pluralize(SnakeCase(b))] == [parent, id, Pluralize(SnakeCase(b))];
  }

  /** ... and the list path is "/name/id/resources". */
  lemma NestedListPath(a: string, b: string, params: AList<Value>, d: Defaults, parent: string, id: string)
    requires SpecialWorkspacePattern([a, b]).None?
    requires [a, b] != ["Orders", "Invoice"] || HasKey(params, "order_id")
    requires NamespaceStep(a, params, d) == Success([parent, id])
    ensures PathFor([a, b], "list", Nil, params, d) == Success("/" + parent + "/" + id + "/" + Pluralize(SnakeCase(b)))
  {
    NestedSegments(a, b, params, d, parent, id);
    ListPathOfThree(parent, id, Pluralize(SnakeCase(b)));
  }

  lemma OrdersNames()
    ensures SnakeCase("Orders") == "orders" && ParentIdKey("orders") == "order_id"
  {
    SnakeCaseCapitalisedWord("Orders");
    assert EndsWith("orders", "s");
  }

  lemma InvoiceNames()
    ensures SnakeCase("Invoice") == "invoice" && Pluralize("invoice") == "invoices"
  {
    SnakeCaseCapitalisedWord("Invoice");
    assert Last("invoice", 0) == 'e';
    PluralizeAddsS("invoice");
  }

  /**
   * Orders::Invoice is nested two ways: without an order_id parameter it lives under the
   * workspace like the special pairs, with one it lives under that order.
   */
  lemma OrdersInvoiceIsDualNested(params: AList<Value>, d: Defaults)
    ensures !HasKey(params, "order_id") ==>
              PathSegments(["Orders", "Invoice"], params, d) == SpecialWorkspacePath("orders/invoices", params, d)
    ensures HasKey(params, "order_id") ==>
              PathSegments(["Orders", "Invoice"], params, d)
              == Success(["orders", ToS(Lookup(params, "order_id").value), "invoices"])
  {
    SpecialPatternTable();
    if HasKey(params, "order_id") {
      OrdersInvoiceUnderOrder(params, d);
    }
  }

  /** With an order_id, Orders::Invoice takes the default walk under that order. */
  lemma OrdersInvoiceUnderOrder(params: AList<Value>, d: Defaults)
    requires HasKey(params, "order_id")
    ensures PathSegments(["Orders", "Invoice"], params, d)
         == Success(["orders", ToS(Lookup(params, "order_id").value), "invoices"])
  {
    SpecialPatternTable();
    OrdersNames();
    InvoiceNames();
    StepWithExplicitId("Orders", params, d);
    var v := Lookup(params, "order_id").value;
    assert NamespaceStep("Orders", params, d) == Success(["orders", ToS(v)]);
    NestedSegments("Orders", "Invoice", params, d, "orders", ToS(v));
  }

  lemma WorkspacesNames()
    ensures SnakeCase("Workspaces") == "workspaces" && ParentIdKey("workspaces") == "workspace_id"
  {
    SnakeCaseCapitalisedWord("Workspaces");
    assert EndsWith("workspaces", "s");
  }

  lemma ContactNames()
    ensures SnakeCase("Contact") == "contact" && Pluralize("contact") == "contacts"
  {
    SnakeCaseCapitalisedWord("Contact");
    assert Last("contact", 0) == 't';
    PluralizeAddsS("contact");
  }

  lemma WorkspacesContactIsNotSpecial()
    ensures SpecialWorkspacePattern(["Workspaces", "Contact"]).None?
  {
    assert Downcase("Workspaces") == "workspaces";
  }

  /**
   * A present but nil workspace_id is used as it stands by the default walk, which puts
   * an empty id into the path ...
   */
  lemma NilWorkspaceIdInDefaultWalk(w: string)
    ensures PathSegments(["Workspaces", "Contact"], [("workspace_id", Nil)], Defaults(Some(w), None))
         == Success(["workspaces", "", "contacts"])
  {
    var params: AList<Value> := [("workspace_id", Nil)];
    var d := Defaults(Some(w), None);
    WorkspacesNames();
    ContactNames();
    WorkspacesContactIsNotSpecial();
    StepWithExplicitId("Workspaces", params, d);
    assert NamespaceStep("Workspaces", params, d) == Success(["workspaces", ""]);
    NestedSegments("Workspaces", "Contact", params, d, "workspaces", "");
  }

  /** ... while the special path falls back to the configured id. */
  lemma NilWorkspaceIdInSpecialPath(w: string)
    ensures PathSegments(["Contacts", "Tag"], [("workspace_id", Nil)], Defaults(Some(w), None))
         == Success(["workspaces", w, "contacts/tags"])
  {
    SpecialPatternTable();
  }

  // ---------------------------------------------------------------- attributes, key, query

  /**
   * Extraction splits the attributes in two: together the parts hold exactly the
   * attributes, the ids side holds only expected parent ids and the other side none.
   */
  lemma ExtractionPartitionsAttributes(parts: seq<string>, attributes: AList<Value>)
    ensures multiset(ExtractParentIds(parts, attributes).0) + multiset(ExtractParentIds(parts, attributes).1)
         == multiset(attributes)
    ensures |ExtractParentIds(parts, attributes).0| + |ExtractParentIds(parts, attributes).1| == |attributes|
    ensures forall i :: 0 <= i < |ExtractParentIds(parts, attributes).1| ==>
              ExtractParentIds(parts, attributes).1[i].0 in ExpectedParentIds(parts)
    ensures forall i :: 0 <= i < |ExtractParentIds(parts, attributes).0| ==>
              ExtractParentIds(parts, attributes).0[i].0 !in ExpectedParentIds(parts)
  {
    var expected := ExpectedParentIds(parts);
    SelectPartition(attributes, IsNotExpected(expected), IsExpected(expected));
  }

  /** A single-part name expects no parent ids, so nothing is extracted. */
  lemma SinglePartExtractsNothing(parts: seq<string>, attributes: AList<Value>)
    requires |parts| <= 1
    ensures ExtractParentIds(parts, attributes) == (attributes, [])
  {
    SelectAll(attributes, IsNotExpected([]));
    SelectNone(attributes, IsExpected([]));
  }

  /** Every extracted id is a parent-id parameter, so none of them reaches the query. */
  lemma ExtractedIdsAreParentIds(parts: seq<string>, attributes: AList<Value>)
    ensures forall i :: 0 <= i < |ExtractParentIds(parts, attributes).1| ==>
              IsParentIdParam(ExtractParentIds(parts, attributes).1[i].0)
  {
    ExtractionPartitionsAttributes(parts, attributes);
  }

  /**
   * The parameters of create and update leave the query as it was: merging the extracted
   * ids adds only parent-id keys, which the query drops.
   */
  lemma MergedIdsStayOutOfQuery(parts: seq<string>, attributes: AList<Value>, params: AList<Value>)
    ensures QueryParams(MergedParams(parts, attributes, params)) == QueryParams(params)
  {
    var ids := ExtractParentIds(parts, attributes).1;
    ExtractedIdsAreParentIds(parts, attributes);
    SelectIgnoresMergeOfDropped(params, ids, InQuery());
  }

  /** The key of a namespaced resource: the snake-cased namespaces, "_", the singular resource. */
  lemma ResourceKeyOfNamespacedResource(parts: seq<string>)
    requires |parts| >= 2
    ensures ResourceKey(parts)
         == Join(seq(|parts| - 1, i requires 0 <= i < |parts| - 1 => SnakeCase(parts[i])), "_")
            + "_" + Singularize(SnakeCase(parts[|parts| - 1]))
  {
    var n := |parts|;
    var xs := seq(n, i requires 0 <= i < n => if i == n - 1 then Singularize(SnakeCase(parts[i])) else SnakeCase(parts[i]));
    assert xs[..n - 1] == seq(n - 1, i requires 0 <= i < n - 1 => SnakeCase(parts[i]));
  }

  /** The key of a top-level resource is its singular snake-cased name. */
  lemma ResourceKeyOfTopLevelResource(part: string)
    ensures ResourceKey([part]) == Singularize(SnakeCase(part))
  {
  }

  /**
   * The key of a name whose every part is a run of capitalised words (`Contacts`,
   * `AppliedTag`): each part's words lower-cased and joined by "_", the last part
   * singularised, and the parts joined by "_".
   */
  lemma ResourceKeyOfWords(words: seq<seq<string>>)
    requires |words| > 0
    requires forall i :: 0 <= i < |words| ==> |words[i]| > 0
    requires forall i, j :: 0 <= i < |words| && 0 <= j < |words[i]| ==> Capitalised(words[i][j])
    ensures ResourceKey(seq(|words|, i requires 0 <= i < |words| => Concat(words[i])))
         == Join(seq(|words|, i requires 0 <= i < |words| =>
                       if i == |words| - 1 then Singularize(Join(DowncaseAll(words[i]), "_"))
                       else Join(DowncaseAll(words[i]), "_")), "_")
  {
    var n := |words|;
    var parts := seq(n, i requires 0 <= i < n => Concat(words[i]));
    forall i | 0 <= i < n
      ensures SnakeCase(parts[i]) == Join(DowncaseAll(words[i]), "_")
    {
      SnakeCaseWords(words[i]);
    }
    assert seq(n, i requires 0 <= i < n => if i == n - 1 then Singularize(SnakeCase(parts[i])) else SnakeCase(parts[i]))
        == seq(n, i requires 0 <= i < n =>
                 if i == n - 1 then Singularize(Join(DowncaseAll(words[i]), "_"))
                 else Join(DowncaseAll(words[i]), "_"));
  }

  // ---------------------------------------------------------------- the five operations

  /** list raises exactly what resolving the segments raises, else gets the list path with the non-id parameters. */
  lemma ListCallShape(parts: seq<string>, params: AList<Value>, d: Defaults)
    ensures ListCall(parts, params, d).Failure? <==> PathSegments(parts, params, d).Failure?
    ensures PathSegments(parts, params, d).Failure? ==> ListCall(parts, params, d).error == PathSegments(parts, params, d).error
    ensures PathSegments(parts, params, d).Success? ==>
              ListCall(parts, params, d).value
              == Call(ApiClient.Verb.Get, ListPath(PathSegments(parts, params, d).value), None, QueryParams(params))
  {
  }

  /** get does the same on the member path, the list path followed by "/" and the id. */
  lemma GetCallShape(parts: seq<string>, id: Value, params: AList<Value>, d: Defaults)
    ensures GetCall(parts, id, params, d).Failure? <==> PathSegments(parts, params, d).Failure?
    ensures PathSegments(parts, params, d).Failure? ==> GetCall(parts, id, params, d).error == PathSegments(parts, params, d).error
    ensures PathSegments(parts, params, d).Success? ==>
              GetCall(parts, id, params, d).value
              == Call(ApiClient.Verb.Get, ListPath(PathSegments(parts, params, d).value) + "/" + ToS(id), None, QueryParams(params))
  {
  }

  /** delete sends a bodiless delete to the member path. */
  lemma DeleteCallShape(parts: seq<string>, id: Value, params: AList<Value>, d: Defaults)
    ensures DeleteCall(parts, id, params, d).Failure? <==> PathSegments(parts, params, d).Failure?
    ensures PathSegments(parts, params, d).Failure? ==> DeleteCall(parts, id, params, d).error == PathSegments(parts, params, d).error
    ensures PathSegments(parts, params, d).Success? ==>
              DeleteCall(parts, id, params, d).value
              == Call(ApiClient.Verb.Delete, ListPath(PathSegments(parts, params, d).value) + "/" + ToS(id), None, QueryParams(params))
  {
  }

  /**
   * create and update resolve their path with the parameters merged with the ids taken
   * from the attributes, send the remaining attributes wrapped under the resource key,
   * and query with exactly the non-id parameters they were given.
   */
  lemma WriteCalls(parts: seq<string>, id: Value, attributes: AList<Value>, params: AList<Value>, d: Defaults)
    ensures var merged := MergedParams(parts, attributes, params);
            && (CreateCall(parts, attributes, params, d).Failure? <==> PathSegments(parts, merged, d).Failure?)
            && (UpdateCall(parts, id, attributes, params, d).Failure? <==> PathSegments(parts, merged, d).Failure?)
    ensures var merged := MergedParams(parts, attributes, params);
            PathSegments(parts, merged, d).Success? ==>
              var segments := PathSegments(parts, merged, d).value;
              var body := Some(WrapAttributes(parts, ExtractParentIds(parts, attributes).0));
              && CreateCall(parts, attributes, params, d).value
                 == Call(ApiClient.Verb.Post, CreatePath(segments, merged), body, QueryParams(params))
              && UpdateCall(parts, id, attributes, params, d).value
                 == Call(ApiClient.Verb.Patch, ListPath(segments) + "/" + ToS(id), body, QueryParams(params))
  {
    CreateCallShape(parts, attributes, params, d);
    UpdateCallShape(parts, id, attributes, params, d);
  }

  /** create: a post of the create path of the merged parameters. */
  lemma CreateCallShape(parts: seq<string>, attributes: AList<Value>, params: AList<Value>, d: Defaults)
    ensures var merged := MergedParams(parts, attributes, params);
            && (CreateCall(parts, attributes, params, d).Failure? <==> PathSegments(parts, merged, d).Failure?)
            && (PathSegments(parts, merged, d).Success? ==>
                  CreateCall(parts, attributes, params, d).value
                  == Call(ApiClient.Verb.Post, CreatePath(PathSegments(parts, merged, d).value, merged),
                          Some(WrapAttributes(parts, ExtractParentIds(parts, attributes).0)), QueryParams(params)))
  {
    MergedIdsStayOutOfQuery(parts, attributes, params);
  }

  /** update: a patch of the member path of the merged parameters. */
  lemma UpdateCallShape(parts: seq<string>, id: Value, attributes: AList<Value>, params: AList<Value>, d: Defaults)
    ensures var merged := MergedParams(parts, attributes, params);
            && (UpdateCall(parts, id, attributes, params, d).Failure? <==> PathSegments(parts, merged, d).Failure?)
            && (PathSegments(parts, merged, d).Success? ==>
                  UpdateCall(parts, id, attributes, params, d).value
                  == Call(ApiClient.Verb.Patch, ListPath(PathSegments(parts, merged, d).value) + "/" + ToS(id),
                          Some(WrapAttributes(parts, ExtractParentIds(parts, attributes).0)), QueryParams(params)))
  {
    MergedIdsStayOutOfQuery(parts, attributes, params);
    var merged := MergedParams(parts, attributes, params);
    assert "update" != "list" && "update" != "create";
    match PathSegments(parts, merged, d)
    case Failure(e) =>
      assert PathFor(parts, "update", id, merged, d) == Failure(e);
    case Success(segments) =>
      assert PathFor(parts, "update", id, merged, d) == Success(ListPath(segments) + "/" + ToS(id));
  }

  /** No operation ever sends a parameter whose key ends in "_id" as a query parameter. */
  lemma NoParentIdReachesTheQuery(call: Call, parts: seq<string>, id: Value, attributes: AList<Value>, params: AList<Value>, d: Defaults)
    requires ListCall(parts, params, d) == Success(call) || GetCall(parts, id, params, d) == Success(call)
          || DeleteCall(parts, id, params, d) == Success(call) || CreateCall(parts, attributes, params, d) == Success(call)
          || UpdateCall(parts, id, attributes, params, d) == Success(call)
    ensures call.query == QueryParams(params)
    ensures forall i :: 0 <= i < |call.query| ==> !IsParentIdParam(call.query[i].0)
  {
    MergedIdsStayOutOfQuery(parts, attributes, params);
  }
}
