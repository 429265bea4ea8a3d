/**
 * The documents of the transformer's test suite, and what it asserts of
 * them, stated over the model.
 */
module HalScenarios {
  import opened Wrappers
  import opened JsonData
  import opened Http
  import opened Hal
  import opened HalResources

  function HrefOnly(href: string): Json {
    JObj(map["href" := JStr(href)])
  }

  function HrefWithMethod(href: string, verb: string): Json {
    JObj(map["href" := JStr(href), "method" := JStr(verb)])
  }

  /** The `_links` of the `Hello` document: one link per HTTP method, `self` and a null href. */
  function HelloLinks(href: string): map<string, Json> {
    map["post" := HrefWithMethod(href, "post"),
        "put" := HrefWithMethod(href, "put"),
        "patch" := HrefWithMethod(href, "patch"),
        "get" := HrefOnly(href),
        "delete" := HrefWithMethod(href, "delete"),
        "self" := HrefOnly(href),
        "nullHref" := JObj(map["href" := JNull])]
  }

  function HelloLinksFields(href: string): map<string, Json> {
    map["_type" := JStr("Hello"), LinksKey := JObj(HelloLinks(href))]
  }

  /** A link with an href and a declared method issues that method, upper-cased. */
  lemma ParseHrefWithMethod(href: string, verb: string)
    ensures RequestOf(ParseLink(HrefWithMethod(href, verb)), false) == Some(Request(Upper(verb), href))
  {
    assert StringField(HrefWithMethod(href, verb), "method") == Some(verb);
  }

  /** A link with only an href issues a GET, called directly or through `.list`. */
  lemma ParseHrefOnly(href: string)
    ensures RequestOf(ParseLink(HrefOnly(href)), false) == Some(Request("GET", href))
    ensures RequestOf(ParseLink(HrefOnly(href)), true) == Some(Request("GET", href))
  {
    assert StringField(HrefOnly(href), "method") == None;
    assert Upper(DefaultMethod) == "GET";
  }

  lemma HelloLinksEntries(href: string)
    ensures HelloLinks(href)["post"] == HrefWithMethod(href, "post")
    ensures HelloLinks(href)["put"] == HrefWithMethod(href, "put")
    ensures HelloLinks(href)["patch"] == HrefWithMethod(href, "patch")
    ensures HelloLinks(href)["delete"] == HrefWithMethod(href, "delete")
    ensures HelloLinks(href)["get"] == HrefOnly(href)
    ensures HelloLinks(href)["self"] == HrefOnly(href)
    ensures HelloLinks(href)["nullHref"] == JObj(map["href" := JNull])
    ensures LinksKey !in HelloLinks(href) && "_type" !in HelloLinks(href)
  {
  }

  lemma HelloLinksUnpacked(href: string)
    ensures IsResourceShaped(JObj(HelloLinksFields(href)))
    ensures ObjectField(HelloLinksFields(href), LinksKey) == HelloLinks(href)
    ensures ObjectField(HelloLinksFields(href), EmbeddedKey) == map[]
    ensures HelloLinks(href).Keys == {"post", "put", "patch", "get", "delete", "self", "nullHref"}
  {
  }

  lemma HelloIsResource(href: string)
    ensures HalTransform(JObj(HelloLinksFields(href))) == Res(TransformObject(HelloLinksFields(href)))
  {
    HelloLinksUnpacked(href);
  }

  lemma HelloLinkRelations(href: string)
    ensures TransformObject(HelloLinksFields(href)).links.Keys == {"post", "put", "patch", "get", "delete", "self", "nullHref"}
  {
    HelloLinksUnpacked(href);
  }

  lemma HelloLinksKeyDropped(href: string)
    ensures LinksKey !in TransformObject(HelloLinksFields(href)).props
  {
    HelloLinksEntries(href);
    HelloLinksUnpacked(href);
    TransformFlagsAndFacets(HelloLinksFields(href));
  }

  lemma HelloTypeKept(href: string)
    ensures TransformObject(HelloLinksFields(href)).props["_type"] == Plain(JStr("Hello"))
  {
    HelloLinksEntries(href);
    HelloLinksUnpacked(href);
    OrdinaryPropertiesKept(HelloLinksFields(href), "_type");
  }

  /** The descriptor of one relation of the `Hello` document. */
  lemma HelloLinkDescriptor(href: string, rel: string)
    requires rel in HelloLinks(href)
    ensures rel in TransformObject(HelloLinksFields(href)).links
    ensures TransformObject(HelloLinksFields(href)).links[rel] == ParseLink(HelloLinks(href)[rel])
  {
    HelloLinksUnpacked(href);
  }

  /**
   * Transforming the `Hello` document flags it, keeps exactly its link
   * relations and its `_type`, and drops `_links`.
   */
  lemma HelloLinksScenario(href: string)
    ensures IsHalTransformed(HalTransform(JObj(HelloLinksFields(href))))
    ensures var s := TransformObject(HelloLinksFields(href));
      && HalTransform(JObj(HelloLinksFields(href))) == Res(s)
      && s.links.Keys == {"post", "put", "patch", "get", "delete", "self", "nullHref"}
      && LinksKey !in s.props
      && s.props["_type"] == Plain(JStr("Hello"))
  {
    HelloIsResource(href);
    HelloLinkRelations(href);
    HelloLinksKeyDropped(href);
    HelloTypeKept(href);
  }

  /** A relation of the `Hello` document that declares a method issues it, upper-cased. */
  lemma HelloDeclaredRequest(href: string, rel: string)
    requires rel in {"post", "put", "patch", "delete"}
    ensures RequestOf(TransformObject(HelloLinksFields(href)).links[rel], false) == Some(Request(Upper(rel), href))
  {
    HelloLinksEntries(href);
    HelloLinkDescriptor(href, rel);
    ParseHrefWithMethod(href, rel);
  }

  /** A relation of the `Hello` document without a method issues a GET, listed or not. */
  lemma HelloDefaultRequest(href: string, rel: string, list: bool)
    requires rel in {"get", "self"}
    ensures RequestOf(TransformObject(HelloLinksFields(href)).links[rel], list) == Some(Request("GET", href))
  {
    HelloLinksEntries(href);
    HelloLinkDescriptor(href, rel);
    ParseHrefOnly(href);
  }

  /** The `nullHref` relation issues no request. */
  lemma HelloNullRequest(href: string)
    ensures RequestOf(TransformObject(HelloLinksFields(href)).links["nullHref"], false) == None
  {
    HelloLinksEntries(href);
    HelloLinkDescriptor(href, "nullHref");
    assert StringField(JObj(map["href" := JNull]), "href") == None;
  }

  /** Each link of the `Hello` document issues the request the tests expect. */
  lemma HelloRequestsScenario(href: string)
    ensures var links := TransformObject(HelloLinksFields(href)).links;
      && RequestOf(links["post"], false) == Some(Request("POST", href))
      && RequestOf(links["put"], false) == Some(Request("PUT", href))
      && RequestOf(links["patch"], false) == Some(Request("PATCH", href))
      && RequestOf(links["delete"], false) == Some(Request("DELETE", href))
      && RequestOf(links["get"], false) == Some(Request("GET", href))
      && RequestOf(links["get"], true) == Some(Request("GET", href))
      && RequestOf(links["self"], false) == Some(Request("GET", href))
      && RequestOf(links["nullHref"], false) == None
  {
    DeclaredMethodsUpperCased();
    HelloDeclaredRequest(href, "post");
    HelloDeclaredRequest(href, "put");
    HelloDeclaredRequest(href, "patch");
    HelloDeclaredRequest(href, "delete");
    HelloDefaultRequest(href, "get", false);
    HelloDefaultRequest(href, "get", true);
    HelloDefaultRequest(href, "self", false);
    HelloNullRequest(href);
  }

  /** The innermost embedded resource: `_links` and a scalar `property`. */
  function SecondFields(bottom: Json): map<string, Json> {
    map[LinksKey := JObj(map[]), "property" := bottom]
  }

  /** The middle embedded resource: `_embedded` holding `second`, and a scalar `property`. */
  function FirstFields(middle: Json, bottom: Json): map<string, Json> {
    map[EmbeddedKey := JObj(map["second" := JObj(SecondFields(bottom))]), "property" := middle]
  }

  /** The outer embedded resource: empty `_links` and `_embedded` holding `first`. */
  function ResourceFields(middle: Json, bottom: Json): map<string, Json> {
    map[LinksKey := JObj(map[]), EmbeddedKey := JObj(map["first" := JObj(FirstFields(middle, bottom))])]
  }

  /** Three levels of embedded resources beside a scalar embedded `property`. */
  function NestedEmbeddedFields(top: Json, middle: Json, bottom: Json): map<string, Json> {
    map["_type" := JStr("Hello"),
        EmbeddedKey := JObj(map["resource" := JObj(ResourceFields(middle, bottom)), "property" := top])]
  }

  lemma SecondLevel(bottom: Json)
    ensures HalTransform(JObj(SecondFields(bottom))) == Res(TransformObject(SecondFields(bottom)))
    ensures TransformObject(SecondFields(bottom)).props["property"] == Plain(bottom)
  {
    OrdinaryPropertiesKept(SecondFields(bottom), "property");
  }

  lemma FirstLevel(middle: Json, bottom: Json)
    ensures HalTransform(JObj(FirstFields(middle, bottom))) == Res(TransformObject(FirstFields(middle, bottom)))
    ensures TransformObject(FirstFields(middle, bottom)).props["property"] == Plain(middle)
    ensures TransformObject(FirstFields(middle, bottom)).embedded["second"] == HalTransform(JObj(SecondFields(bottom)))
  {
    var fields := FirstFields(middle, bottom);
    assert ObjectField(fields, EmbeddedKey) == map["second" := JObj(SecondFields(bottom))];
    OrdinaryPropertiesKept(fields, "property");
  }

  lemma ResourceLevel(middle: Json, bottom: Json)
    ensures HalTransform(JObj(ResourceFields(middle, bottom))) == Res(TransformObject(ResourceFields(middle, bottom)))
    ensures TransformObject(ResourceFields(middle, bottom)).embedded["first"] == HalTransform(JObj(FirstFields(middle, bottom)))
  {
    assert ObjectField(ResourceFields(middle, bottom), EmbeddedKey) == map["first" := JObj(FirstFields(middle, bottom))];
  }

  lemma TopLevel(top: Json, middle: Json, bottom: Json)
    requires !IsResourceShaped(top)
    ensures var v := HalTransform(JObj(NestedEmbeddedFields(top, middle, bottom)));
      && v == Res(TransformObject(NestedEmbeddedFields(top, middle, bottom)))
      && EmbeddedKey !in v.res.props
      && v.res.embedded.Keys == {"resource", "property"}
      && v.res.embedded["property"] == Plain(top)
      && v.res.embedded["resource"] == HalTransform(JObj(ResourceFields(middle, bottom)))
  {
    var fields := NestedEmbeddedFields(top, middle, bottom);
    var e := map["resource" := JObj(ResourceFields(middle, bottom)), "property" := top];
    assert ObjectField(fields, EmbeddedKey) == e;
    assert ObjectField(fields, LinksKey) == map[];
    assert e.Keys == {"resource", "property"};
    TransformFlagsAndFacets(fields);
  }

  /**
   * Every embedded resource is transformed, at every depth, and keeps its
   * own scalar properties; the scalar embedded value is not transformed.
   */
  lemma NestedEmbeddedScenario(top: string, middle: string, bottom: string)
    ensures var v := HalTransform(JObj(NestedEmbeddedFields(JStr(top), JStr(middle), JStr(bottom))));
      && IsHalTransformed(v) && EmbeddedKey !in v.res.props
      && v.res.embedded.Keys == {"resource", "property"}
      && v.res.embedded["property"] == Plain(JStr(top))
      && IsHalTransformed(v.res.embedded["resource"])
      && var resource := v.res.embedded["resource"].res;
      && "first" in resource.embedded && IsHalTransformed(resource.embedded["first"])
      && var first := resource.embedded["first"].res;
      && first.props["property"] == Plain(JStr(middle))
      && "second" in first.embedded && IsHalTransformed(first.embedded["second"])
      && first.embedded["second"].res.props["property"] == Plain(JStr(bottom))
  {
    TopLevel(JStr(top), JStr(middle), JStr(bottom));
    ResourceLevel(JStr(middle), JStr(bottom));
    FirstLevel(JStr(middle), JStr(bottom));
    SecondLevel(JStr(bottom));
  }

  /** The link to `property`, with an href and a title. */
  function PropertyLink(href: string, title: string): Json {
    JObj(map["href" := JStr(href), "title" := JStr(title)])
  }

  /** A document whose relations are links, an embedded value, or both. */
  function PropertyLinksFields(href: string, title: string): map<string, Json> {
    map[LinksKey := JObj(map[
          "property" := PropertyLink(href, title),
          "embeddedProperty" := HrefOnly("/api/embedded-property"),
          "action" := HrefWithMethod("/api/action", "post")]),
        EmbeddedKey := JObj(map["embeddedProperty" := JObj(map["name" := JStr("name")])])]
  }

  lemma PropertyLinksUnpacked(href: string, title: string)
    ensures var fields := PropertyLinksFields(href, title);
      && IsResourceShaped(JObj(fields))
      && ObjectField(fields, LinksKey).Keys == {"property", "embeddedProperty", "action"}
      && ObjectField(fields, EmbeddedKey).Keys == {"embeddedProperty"}
      && ObjectField(fields, LinksKey)["property"] == PropertyLink(href, title)
  {
  }

  /** Every relation of the document is a property of the transformed resource. */
  lemma PropertyLinksScenario(href: string, title: string)
    ensures var s := TransformObject(PropertyLinksFields(href, title));
      && s.props.Keys >= {"property", "embeddedProperty", "action"}
      && s.links["property"] == ParseLink(PropertyLink(href, title))
      && s.props["property"] == Plain(PropertyLink(href, title))
  {
    PropertyLinksUnpacked(href, title);
    RelationsBecomeProperties(PropertyLinksFields(href, title));
  }

  /** The document of relations, transformed in place. */
  method TransformedPropertyLinks(href: string, title: string) returns (r: Resource)
    ensures fresh(r) && r.Valid() && r.halTransformed
    ensures r.props.Keys >= {"property", "embeddedProperty", "action"}
    ensures "property" in r.links && r.links["property"] == ParseLink(PropertyLink(href, title))
    ensures r.props["property"] == Plain(PropertyLink(href, title))
  {
    r := new Resource(PropertyLinksFields(href, title));
    PropertyLinksUnpacked(href, title);
    r.Transform();
    PropertyLinksScenario(href, title);
  }

  /**
   * The link-only `property` exposes its href and title; invoking its link
   * sends one GET to its href and writes a plain answer back, so that the
   * answer's fields show through the property.
   */
  method PropertyMergeBackScenario(href: string, title: string, answer: Json) returns (before: Json, after: Json, sent: seq<Request>)
    requires !IsResourceShaped(answer)
    ensures StringField(before, "href") == Some(href)
    ensures StringField(before, "title") == Some(title)
    ensures after == answer
    ensures sent == [Request("GET", href)]
  {
    var r := TransformedPropertyLinks(href, title);
    before := r.props["property"].json;
    var link := r.links["property"];
    assert RequestOf(link, false) == Some(Request("GET", href)) by {
      assert StringField(PropertyLink(href, title), "method") == None;
      assert Upper(DefaultMethod) == "GET";
    }
    var backend := new Backend((q: Request) => Success(answer));
    var o := r.Invoke("property", false, backend);
    assert o == Resolved(Plain(answer));
    after := r.props["property"].json;
    sent := backend.log;
  }

  /** The `Hello` document, transformed in place. */
  method TransformedHello(href: string) returns (r: Resource)
    ensures fresh(r) && r.Valid() && r.halTransformed
    ensures r.Current() == TransformObject(HelloLinksFields(href))
  {
    r := new Resource(HelloLinksFields(href));
    HelloLinksUnpacked(href);
    r.Transform();
  }

  /**
   * Invoking `self` with a resource-shaped answer resolves to a transformed
   * value, which also becomes the parent's `self` property; a plain answer
   * resolves unflagged.
   */
  method SelfLinkScenario(href: string, body: Json) returns (resolved: Value, property: Value, sent: seq<Request>)
    ensures IsHalTransformed(resolved) <==> IsResourceShaped(body)
    ensures resolved == property
    ensures sent == [Request("GET", href)]
  {
    var r := TransformedHello(href);
    HelloRequestsScenario(href);
    HelloLinksScenario(href);
    var backend := new Backend((q: Request) => Success(body));
    var o := r.Invoke("self", false, backend);
    resolved := o.value;
    property := r.props["self"];
    sent := backend.log;
  }

  /**
   * Changing the `_links` of a `$plain()` snapshot does not change the live
   * `$links`.
   */
  method SnapshotIndependenceScenario(href: string) returns (snapshotHref: Json, liveHref: Option<string>)
    ensures snapshotHref == JStr("some value")
    ensures liveHref == Some(href)
  {
    var r := TransformedHello(href);
    HelloRequestsScenario(href);
    HelloLinksScenario(href);
    var snapshot := r.Snapshot();
    var plainLinks := snapshot.fields[LinksKey].fields;
    var self := plainLinks["self"].fields["href" := JStr("some value")];
    snapshot := JObj(snapshot.fields[LinksKey := JObj(plainLinks["self" := JObj(self)])]);
    snapshotHref := snapshot.fields[LinksKey].fields["self"].fields["href"];
    liveHref := r.links["self"].href;
  }
}
