/**
 * Concrete addresses and keys of resource types the SDK defines, and of the cases its
 * test suite describes, derived from the general rules.
 */
module Vectors {
  import opened Wrappers
  import opened Errors
  import opened Strings
  import opened Values
  import opened Inflector
  import opened Addressing
  import opened PathLaws
  import Config

  const NoDefaults := Defaults(None, None)

  lemma UsersNames()
    ensures SnakeCase("Users") == "users" && Pluralize("users") == "users"
    ensures SnakeCase("User") == "user" && Pluralize("user") == "users"
  {
    SnakeCaseCapitalisedWord("Users");
    SnakeCaseCapitalisedWord("User");
    assert Last("users", 0) == 's' && Last("users", 1) == 'r' && Last("user", 0) == 'r';
    PluralizeKeepsPlural("users");
    PluralizeAddsS("user");
  }

  /** A one-part name: its snake-cased, pluralised name is the only segment. */
  lemma OnePartSegments(part: string, params: AList<Value>, d: Defaults)
    ensures PathSegments([part], params, d) == Success([Pluralize(SnakeCase(part))])
  {
    assert [part][..0] == [];
    assert NamespaceWalk([], params, d) == Success([]);
    assert [] + [Pluralize(SnakeCase(part))] == [Pluralize(SnakeCase(part))];
    assert DefaultSegments([part], params, d) == Success([Pluralize(SnakeCase(part))]);
  }

  lemma IntText123()
    ensures ToS(Int(123)) == "123"
  {
    assert "0123456789"[1] == '1' && "0123456789"[2] == '2' && "0123456789"[3] == '3';
    assert NatToString(1) == "1";
    assert NatToString(12) == NatToString(1) + "2";
    assert NatToString(123) == NatToString(12) + "3";
  }

  /** CF::Users.list goes to /users. */
  lemma UsersListPath(params: AList<Value>, d: Defaults)
    ensures PathFor(["Users"], "list", Nil, params, d) == Success("/" + "users")
  {
    UsersNames();
    OnePartSegments("Users", params, d);
    ListPathOfOne("users");
  }

  /** CF::User.get(123) goes to /users/123. */
  lemma UserGetPath(params: AList<Value>, d: Defaults)
    ensures PathFor(["User"], "get", Int(123), params, d) == Success("/" + "users" + "/" + "123")
  {
    UsersNames();
    OnePartSegments("User", params, d);
    ListPathOfOne("users");
    IntText123();
  }

  lemma ProductNames()
    ensures SnakeCase("Product") == "product" && Pluralize("product") == "products"
    ensures Singularize("product") == "product"
  {
    SnakeCaseCapitalisedWord("Product");
    assert Last("product", 0) == 't';
    EndsWith1("product", 's');
    PluralizeAddsS("product");
  }

  /** CF::Product.create(name: "Test") posts { product: { name: "Test" } } to /products. */
  lemma ProductCreate(d: Defaults)
    ensures CreateCall(["Product"], [("name", Str("Test"))], [], d)
         == Success(Call(ApiClient.Verb.Post, "/" + "products",
                         Some(Hash([("product", Hash([("name", Str("Test"))]))])), []))
  {
    var attributes: AList<Value> := [("name", Str("Test"))];
    ProductNames();
    SinglePartExtractsNothing(["Product"], attributes);
    assert MergedParams(["Product"], attributes, []) == [];
    ResourceKeyOfTopLevelResource("Product");
    OnePartSegments("Product", [], d);
    WriteCalls(["Product"], Nil, attributes, [], d);
    ListPathOfOne("products");
    assert QueryParams([]) == [];
  }

  /** CF::Workspaces::Contact.list uses the configured workspace ... */
  lemma WorkspaceContactDefaultPath()
    ensures PathFor(["Workspaces", "Contact"], "list", Nil, [], Defaults(Some("default_workspace_123"), None))
         == Success("/" + "workspaces" + "/" + "default_workspace_123" + "/" + "contacts")
  {
    WorkspacesNames();
    ContactNames();
    WorkspacesContactIsNotSpecial();
    var d := Defaults(Some("default_workspace_123"), None);
    WorkspaceAndTeamUseDefaults("Workspaces", [], d);
    NestedListPath("Workspaces", "Contact", [], d, "workspaces", "default_workspace_123");
  }

  /** ... unless one is passed. */
  lemma WorkspaceContactOverridePath()
    ensures PathFor(["Workspaces", "Contact"], "list", Nil, [("workspace_id", Str("override_456"))],
                    Defaults(Some("default_workspace_123"), None))
         == Success("/" + "workspaces" + "/" + "override_456" + "/" + "contacts")
  {
    WorkspacesNames();
    ContactNames();
    WorkspacesContactIsNotSpecial();
    var d := Defaults(Some("default_workspace_123"), None);
    var params: AList<Value> := [("workspace_id", Str("override_456"))];
    StepWithExplicitId("Workspaces", params, d);
    NestedListPath("Workspaces", "Contact", params, d, "workspaces", "override_456");
  }

  /** CF::Contacts::Tag lives under the workspace for list and get, and raises without one. */
  lemma ContactsTagPaths()
    ensures PathFor(["Contacts", "Tag"], "list", Nil, [], Defaults(Some("ws_default"), None))
         == Success("/" + "workspaces" + "/" + "ws_default" + "/" + "contacts/tags")
    ensures PathFor(["Contacts", "Tag"], "get", Str("tag_123"), [], Defaults(Some("ws_default"), None))
         == Success("/" + "workspaces" + "/" + "ws_default" + "/" + "contacts/tags" + "/" + "tag_123")
    ensures PathFor(["Contacts", "Tag"], "list", Nil, [], NoDefaults)
         == Failure(ConfigurationError("workspace_id" + " is required. Provide it as a parameter or set it in configuration."))
  {
    SpecialPatternTable();
    ListPathOfThree("workspaces", "ws_default", "contacts/tags");
  }

  lemma ContactsNames()
    ensures SnakeCase("Contacts") == "contacts" && ParentIdKey("contacts") == "contact_id"
  {
    SnakeCaseCapitalisedWord("Contacts");
    assert EndsWith("contacts", "s");
  }

  lemma DowncaseApplied()
    ensures Downcase("Applied") == "applied" && Downcase("Tag") == "tag"
  {
  }

  lemma AppliedTagWords()
    ensures "AppliedTag" == "Applied" + "Tag"
    ensures IsUpper("Applied"[0]) && NoUpper("Applied"[1..])
    ensures IsUpper("Tag"[0]) && NoUpper("Tag"[1..])
  {
  }

  lemma AppliedTagSnakeCase()
    ensures SnakeCase("AppliedTag") == "applied_tag"
  {
    AppliedTagWords();
    SnakeCaseTwoWords("Applied", "Tag");
    DowncaseApplied();
  }

  lemma AppliedTagPlural()
    ensures Pluralize("applied_tag") == "applied_tags"
  {
    var w := "applied_tag";
    Endings(w);
    assert Last(w, 0) == 'g' && Last(w, 1) == 'a';
  }

  lemma AppliedTagNames()
    ensures SnakeCase("Contacts") == "contacts" && ParentIdKey("contacts") == "contact_id"
    ensures SnakeCase("AppliedTag") == "applied_tag" && Pluralize("applied_tag") == "applied_tags"
  {
    ContactsNames();
    AppliedTagSnakeCase();
    AppliedTagPlural();
  }

  /** CF::Contacts::AppliedTag nests under the contact ... */
  lemma AppliedTagPath()
    ensures PathFor(["Contacts", "AppliedTag"], "list", Nil, [("contact_id", Str("contact_123"))], NoDefaults)
         == Success("/" + "contacts" + "/" + "contact_123" + "/" + "applied_tags")
  {
    SpecialPatternTable();
    AppliedTagNames();
    var params: AList<Value> := [("contact_id", Str("contact_123"))];
    StepWithExplicitId("Contacts", params, NoDefaults);
    NestedListPath("Contacts", "AppliedTag", params, NoDefaults, "contacts", "contact_123");
  }

  /** ... whose id has no default, so without one the lookup raises. */
  lemma AppliedTagWithoutContactId()
    ensures PathFor(["Contacts", "AppliedTag"], "list", Nil, [], Defaults(Some("ws"), Some("team")))
         == Failure(ConfigurationError("contact_id" + " is required. Provide it as a parameter or set it in configuration."))
  {
    SpecialPatternTable();
    ContactsNames();
    var d := Defaults(Some("ws"), Some("team"));
    OnlyWorkspaceAndTeamHaveDefaults("Contacts", [], d);
    TwoPartSegments("Contacts", "AppliedTag", [], d);
  }

  /** CF::Orders::Invoice: under the workspace by default, under the order when one is given. */
  lemma OrdersInvoicePaths()
    ensures PathFor(["Orders", "Invoice"], "list", Nil, [], Defaults(Some("ws_default"), None))
         == Success("/" + "workspaces" + "/" + "ws_default" + "/" + "orders/invoices")
    ensures PathFor(["Orders", "Invoice"], "list", Nil, [("order_id", Str("order_123"))], Defaults(Some("ws_default"), None))
         == Success("/" + "orders" + "/" + "order_123" + "/" + "invoices")
  {
    OrdersInvoiceIsDualNested([], Defaults(Some("ws_default"), None));
    OrdersInvoiceIsDualNested([("order_id", Str("order_123"))], Defaults(Some("ws_default"), None));
    ListPathOfThree("workspaces", "ws_default", "orders/invoices");
    ListPathOfThree("orders", "order_123", "invoices");
  }

  lemma ContactsTagWords()
    ensures SnakeCase("Contacts") == "contacts" && SnakeCase("Tag") == "tag"
  {
    SnakeCaseCapitalisedWord("Contacts");
    SnakeCaseCapitalisedWord("Tag");
    assert Downcase("Contacts") == "contacts";
    assert Downcase("Tag") == "tag";
  }

  /** The body key of CF::Contacts::Tag. */
  lemma ContactsTagKey()
    ensures ResourceKey(["Contacts", "Tag"]) == "contacts" + "_" + "tag"
  {
    ContactsTagWords();
    assert Singularize("tag") == "tag" by {
      assert !EndsWith("tag", "s");
    }
    ResourceKeyOfNamespacedResource(["Contacts", "Tag"]);
    var ns := seq(1, i requires 0 <= i < 1 => SnakeCase(["Contacts", "Tag"][i]));
    assert ns == ["contacts"];
    assert Join(ns, "_") == "contacts";
  }

  /** The body key of CF::Contact. */
  lemma ContactKey()
    ensures ResourceKey(["Contact"]) == "contact"
  {
    SnakeCaseCapitalisedWord("Contact");
    assert Downcase("Contact") == "contact";
    assert Singularize("contact") == "contact" by {
      assert !EndsWith("contact", "s");
    }
    ResourceKeyOfTopLevelResource("Contact");
  }

  lemma ProductsNames()
    ensures SnakeCase("Products") == "products" && ParentIdKey("products") == "product_id"
    ensures !NeedsParentId("products")
  {
    SnakeCaseCapitalisedWord("Products");
    assert Downcase("Products") == "products";
    assert EndsWith("products", "s");
  }

  lemma PriceNames()
    ensures SnakeCase("Price") == "price" && Pluralize("price") == "prices"
  {
    SnakeCaseCapitalisedWord("Price");
    assert Downcase("Price") == "price";
    assert Last("price", 0) == 'e';
    PluralizeAddsS("price");
  }

  lemma ProductsPriceIsNotSpecial()
    ensures SpecialWorkspacePattern(["Products", "Price"]).None?
  {
    assert Downcase("Products") == "products" && Downcase("Price") == "price";
  }

  /** With product_id 77, the walk puts the id after "products". */
  lemma ProductsPriceSegmentsUnderProduct(d: Defaults)
    ensures PathSegments(["Products", "Price"], [("product_id", Str("77"))], d) == Success(["products", "77", "prices"])
  {
    ProductsNames();
    PriceNames();
    ProductsPriceIsNotSpecial();
    var params: AList<Value> := [("product_id", Str("77"))];
    StepWithExplicitId("Products", params, d);
    NestedSegments("Products", "Price", params, d, "products", "77");
  }

  /** The create path of those segments: no "77_id" parameter, so the collection path. */
  lemma CreatePathUnderProduct()
    ensures CreatePath(["products", "77", "prices"], [("product_id", Str("77"))])
         == "/" + "products" + "/" + "77" + "/" + "prices"
  {
    var params: AList<Value> := [("product_id", Str("77"))];
    assert ParentIdKey("77") == "77_id" by {
      assert !EndsWith("77", "s");
    }
    assert Lookup(params, "77_id").None?;
    ListPathOfThree("products", "77", "prices");
  }

  /**
   * CF::Products::Price.create posts to /products/77/prices when given product_id 77: the
   * walk has already put the id after "products", so the create path finds no id for the
   * second-to-last segment ("77") and adds nothing more.
   */
  lemma ProductsPriceCreateUnderProduct(d: Defaults)
    ensures PathFor(["Products", "Price"], "create", Nil, [("product_id", Str("77"))], d)
         == Success("/" + "products" + "/" + "77" + "/" + "prices")
  {
    ProductsPriceSegmentsUnderProduct(d);
    CreatePathUnderProduct();
  }

  /** Without product_id, CF::Products::Price.create posts to the top-level /products/prices. */
  lemma ProductsPriceCreateTopLevel(d: Defaults)
    ensures PathFor(["Products", "Price"], "create", Nil, [], d) == Success("/" + "products" + "/" + "prices")
  {
    ProductsNames();
    PriceNames();
    ProductsPriceIsNotSpecial();
    OtherNamespacesNeedNoId("Products", [], d);
    TwoPartSegments("Products", "Price", [], d);
    CreatePathInsertsParentId(["products", "prices"], []);
    ListPathAppendOne(["products"], "prices");
    assert ["products"] + ["prices"] == ["products", "prices"];
  }

  /**
   * The configuration tests as one scenario: a fresh configuration has the defaults and no
   * base URL, stays invalid with only a subdomain, becomes valid with the token, and then
   * has the base URL with the default API version; setting debug turns on request logging.
   */
  method ConfigurationScenario() returns (c: Config.Configuration)
    ensures c.IsValid() && c.IsDebug() && c.LogRequests()
    ensures c.BaseUrl() == Success("https://" + "test" + ".myclickfunnels.com/api/" + "v2")
    ensures c.timeout == 30 && c.apiVersion == "v2"
  {
    c := new Config.Configuration();
    assert c.subdomain.None? && c.apiToken.None? && c.apiVersion == "v2" && !c.debug && c.timeout == 30;
    assert !c.IsValid() && c.BaseUrl().Failure?;
    assert !c.IsDebug();
    c.SetSubdomain(Some("test"));
    assert !c.IsValid();
    c.SetApiToken(Some("token"));
    assert c.IsValid();
    c.SetDebug(true);
  }
}
