/**
 * The pure part of the HAL resource transformer: link descriptors, the
 * request a link issues, the recursive promotion of `_embedded` values and
 * the `$plain()` snapshot. The wire format is HAL (draft-kelly-json-hal,
 * section 4.1.1 for `_links`, section 4.1.2 for `_embedded`).
 */
module Hal {
  import opened Wrappers
  import opened JsonData
  import opened Http

  /** The two reserved keys of a HAL document. */
  const LinksKey: string := "_links"
  const EmbeddedKey: string := "_embedded"
  const Reserved: set<string> := {LinksKey, EmbeddedKey}

  /** The method a link without a declared method is invoked with. */
  const DefaultMethod: string := "GET"
  /** The method `.list()` always uses, whatever the link declares. */
  const ListMethod: string := "GET"

  /**
   * A link descriptor: what a `$links` entry carries. `raw` is the link
   * object as it came in; it is what a link-only property exposes and what
   * `$plain()` puts back under `_links`.
   */
  datatype Link = Link(href: Option<string>, verb: string, title: Option<string>, raw: Json)

  /**
   * A property value of a transformed resource: either a plain JSON value or
   * a nested transformed resource (one whose `$halTransformed` flag is set).
   */
  datatype Value = Plain(json: Json) | Res(res: State)

  /** What a transformed resource holds: its properties, `$links` and `$embedded`. */
  datatype State = State(props: map<string, Value>, links: map<string, Link>, embedded: map<string, Value>)

  /** How the promise returned by invoking a link settles. */
  datatype Outcome = Resolved(value: Value) | Rejected(error: string)

  /**
   * A value is resource-shaped when it is an object carrying the key
   * `_links` or `_embedded`: presence of the key decides, so `{_links: null}`
   * is resource-shaped and gets empty `$links`.
   */
  predicate IsResourceShaped(j: Json) {
    j.JObj? && (LinksKey in j.fields || EmbeddedKey in j.fields)
  }

  /** The `$halTransformed` flag of a value. */
  predicate IsHalTransformed(v: Value) {
    v.Res?
  }

  /** The object stored under a reserved key; anything else there counts as empty. */
  function ObjectField(fields: map<string, Json>, key: string): (m: map<string, Json>)
    ensures key in fields && fields[key].JObj? ==> m == fields[key].fields
    ensures !(key in fields && fields[key].JObj?) ==> m == map[]
  {
    if key in fields && fields[key].JObj? then fields[key].fields else map[]
  }

  // ---------------------------------------------------------------------------
  // Link descriptors and the request a link issues

  /**
   * Reads one `_links` entry: the href and the title when they are strings
   * (a missing, `null` or non-string href counts as `null`), the declared
   * method or GET when there is none, and the entry itself.
   */
  function ParseLink(raw: Json): (link: Link)
    ensures link.raw == raw
    ensures link.href == StringField(raw, "href") && link.title == StringField(raw, "title")
    ensures StringField(raw, "method").None? ==> link.verb == DefaultMethod
    ensures StringField(raw, "method").Some? ==> link.verb == StringField(raw, "method").value
  {
    var declared := StringField(raw, "method");
    Link(StringField(raw, "href"),
         if declared.Some? then declared.value else DefaultMethod,
         StringField(raw, "title"),
         raw)
  }

  /** One descriptor per relation of `_links`. */
  function ParseLinks(rawLinks: map<string, Json>): (links: map<string, Link>)
    ensures links.Keys == rawLinks.Keys
    ensures forall rel :: rel in links ==> links[rel] == ParseLink(rawLinks[rel]) && links[rel].raw == rawLinks[rel]
  {
    map rel | rel in rawLinks :: ParseLink(rawLinks[rel])
  }

  /**
   * The request invoking a link issues: none when its href is null,
   * otherwise one to its href, with GET for `.list()` and the declared
   * method for a plain call.
   */
  function RequestOf(link: Link, list: bool): (q: Option<Request>)
    ensures q.None? <==> link.href.None?
    ensures q.Some? ==> q.value.href == link.href.value
    ensures q.Some? && list ==> q.value.verb == ListMethod
    ensures q.Some? && !list ==> q.value.verb == Upper(link.verb)
  {
    if link.href.None? then None
    else Some(Request(if list then ListMethod else Upper(link.verb), link.href.value))
  }

  // ---------------------------------------------------------------------------
  // The transformer

  /**
   * `halTransform` on a value: a resource-shaped object becomes a transformed
   * resource; anything else is returned as it is, without the flag.
   */
  function HalTransform(raw: Json): (v: Value)
    ensures IsHalTransformed(v) <==> IsResourceShaped(raw)
    ensures !IsResourceShaped(raw) ==> v == Plain(raw)
    decreases raw, 2
  {
    if IsResourceShaped(raw) then Res(TransformObject(raw.fields)) else Plain(raw)
  }

  /** Every `_embedded` value, promoted by the transformer when resource-shaped. */
  function ExpandEmbedded(rawEmbedded: map<string, Json>): (embedded: map<string, Value>)
    ensures embedded.Keys == rawEmbedded.Keys
    ensures forall rel :: rel in embedded ==> embedded[rel] == HalTransform(rawEmbedded[rel])
    decreases JObj(rawEmbedded), 1
  {
    map rel | rel in rawEmbedded :: HalTransform(rawEmbedded[rel])
  }

  /**
   * The properties of the transformed resource: the ordinary properties,
   * then every link relation (exposing the link object) and every embedded
   * relation (exposing the promoted value). A relation in both is given its
   * embedded value.
   */
  function MergeProperties(own: map<string, Json>, rawLinks: map<string, Json>, embedded: map<string, Value>): (props: map<string, Value>)
    ensures props.Keys == own.Keys + rawLinks.Keys + embedded.Keys
    ensures forall k :: k in own && k !in rawLinks && k !in embedded ==> props[k] == Plain(own[k])
    ensures forall rel :: rel in rawLinks && rel !in embedded ==> props[rel] == Plain(rawLinks[rel])
    ensures forall rel :: rel in embedded && rel !in rawLinks ==> props[rel] == embedded[rel]
  {
    map k | k in own.Keys + rawLinks.Keys + embedded.Keys ::
      if k in embedded then embedded[k]
      else if k in rawLinks then Plain(rawLinks[k])
      else Plain(own[k])
  }

  /** The transformation of a resource-shaped object's fields. */
  function TransformObject(fields: map<string, Json>): (s: State)
    ensures s.links.Keys == ObjectField(fields, LinksKey).Keys
    ensures forall rel :: rel in s.links ==> s.links[rel] == ParseLink(ObjectField(fields, LinksKey)[rel])
    ensures s.embedded.Keys == ObjectField(fields, EmbeddedKey).Keys
    ensures forall rel :: rel in s.embedded ==> s.embedded[rel] == HalTransform(ObjectField(fields, EmbeddedKey)[rel])
    ensures s.props.Keys == (fields.Keys - Reserved) + s.links.Keys + s.embedded.Keys
    ensures forall k :: k in fields && k !in Reserved && k !in s.links && k !in s.embedded ==> s.props[k] == Plain(fields[k])
    ensures forall rel :: rel in s.links && rel !in s.embedded ==> s.props[rel] == Plain(s.links[rel].raw)
    ensures forall rel :: rel in s.embedded && rel !in s.links ==> s.props[rel] == s.embedded[rel]
    decreases JObj(fields), 0
  {
    var rawLinks := ObjectField(fields, LinksKey);
    var embedded := if EmbeddedKey in fields && fields[EmbeddedKey].JObj?
                    then ExpandEmbedded(fields[EmbeddedKey].fields)
                    else map[];
    State(MergeProperties(fields - Reserved, rawLinks, embedded), ParseLinks(rawLinks), embedded)
  }

  // ---------------------------------------------------------------------------
  // Invoking a link

  /**
   * How invoking a link settles: `{}` without a request when the href is
   * null; otherwise the transport's rejection, or its body, transformed.
   */
  function InvokeOutcome(link: Link, list: bool, request: Transport): (o: Outcome)
    ensures link.href.None? ==> o == Resolved(Plain(EmptyObject))
    ensures link.href.Some? ==> var resp := request(RequestOf(link, list).value);
      (resp.Failure? ==> o == Rejected(resp.error)) &&
      (resp.Success? ==> o == Resolved(HalTransform(resp.value)))
  {
    match RequestOf(link, list)
    case None => Resolved(Plain(EmptyObject))
    case Some(q) =>
      match request(q)
      case Failure(e) => Rejected(e)
      case Success(body) => Resolved(HalTransform(body))
  }

  // ---------------------------------------------------------------------------
  // The `$plain()` snapshot

  /** The plain JSON form of a property value. */
  function PlainOf(v: Value): Json
    decreases v, 0
  {
    match v
    case Plain(j) => j
    case Res(s) => ToPlain(s)
  }

  /**
   * `$plain()`: the properties as plain JSON, with `$links` collapsed back
   * into `_links` and `$embedded` into `_embedded`.
   */
  function ToPlain(s: State): (j: Json)
    ensures j.JObj? && LinksKey in j.fields && EmbeddedKey in j.fields
    ensures j.fields[LinksKey].JObj? && j.fields[LinksKey].fields.Keys == s.links.Keys
    ensures forall rel :: rel in s.links ==> j.fields[LinksKey].fields[rel] == s.links[rel].raw
    ensures j.fields[EmbeddedKey].JObj? && j.fields[EmbeddedKey].fields.Keys == s.embedded.Keys
    ensures forall rel :: rel in s.embedded ==> j.fields[EmbeddedKey].fields[rel] == PlainOf(s.embedded[rel])
    ensures j.fields.Keys == s.props.Keys + Reserved
    ensures forall k :: k in s.props && k !in Reserved ==> k in j.fields && j.fields[k] == PlainOf(s.props[k])
    decreases s, 1
  {
    var own := map k | k in s.props :: PlainOf(s.props[k]);
    var links := map rel | rel in s.links :: s.links[rel].raw;
    var embedded := map rel | rel in s.embedded :: PlainOf(s.embedded[rel]);
    JObj(own[LinksKey := JObj(links)][EmbeddedKey := JObj(embedded)])
  }

  // ---------------------------------------------------------------------------
  // Properties

  /**
   * An embedded value is promoted at every depth: each plain value under
   * `$embedded` is not resource-shaped, and each transformed one is promoted
   * in turn.
   */
  ghost predicate Promoted(v: Value)
    decreases v
  {
    match v
    case Plain(j) => !IsResourceShaped(j)
    case Res(s) => forall rel :: rel in s.embedded ==> Promoted(s.embedded[rel])
  }

  /** The transformer leaves no resource-shaped embedded value untransformed, at any depth. */
  lemma {:induction false} EveryLevelPromoted(raw: Json)
    ensures Promoted(HalTransform(raw))
    decreases raw
  {
    if IsResourceShaped(raw) {
      var s := TransformObject(raw.fields);
      forall rel | rel in s.embedded
        ensures Promoted(s.embedded[rel])
      {
        var e := raw.fields[EmbeddedKey].fields;
        EveryLevelPromoted(e[rel]);
      }
    }
  }

  /** A value without `_links` or `_embedded` is returned as it is and not flagged. */
  lemma PlainValueUntouched(raw: Json)
    requires !IsResourceShaped(raw)
    ensures HalTransform(raw) == Plain(raw) && !IsHalTransformed(HalTransform(raw))
  {
  }

  /**
   * Transforming an object with `_links` or `_embedded` flags it, yields
   * `$links` with exactly the relations of `_links` and `$embedded` with
   * exactly those of `_embedded`, and drops both reserved keys unless a
   * relation bears that name.
   */
  lemma TransformFlagsAndFacets(fields: map<string, Json>)
    requires IsResourceShaped(JObj(fields))
    ensures var v := HalTransform(JObj(fields));
      && IsHalTransformed(v)
      && v.res.links.Keys == ObjectField(fields, LinksKey).Keys
      && v.res.embedded.Keys == ObjectField(fields, EmbeddedKey).Keys
      && (forall k :: k in Reserved && k in v.res.props ==> k in v.res.links || k in v.res.embedded)
  {
  }

  /** Every link relation and every embedded relation becomes a property. */
  lemma RelationsBecomeProperties(fields: map<string, Json>)
    requires IsResourceShaped(JObj(fields))
    ensures var s := TransformObject(fields);
      && (forall rel :: rel in ObjectField(fields, LinksKey) ==> rel in s.props)
      && (forall rel :: rel in ObjectField(fields, EmbeddedKey) ==> rel in s.props)
  {
  }

  /**
   * A link-only property exposes the link's href and title before the link
   * is invoked.
   */
  lemma LinkPropertyExposesHrefAndTitle(fields: map<string, Json>, rel: string)
    requires rel in ObjectField(fields, LinksKey) && rel !in ObjectField(fields, EmbeddedKey)
    ensures var s := TransformObject(fields); var link := s.links[rel];
      && rel in s.props && s.props[rel].Plain?
      && StringField(s.props[rel].json, "href") == link.href
      && StringField(s.props[rel].json, "title") == link.title
  {
  }

  /** The ordinary properties of every resource keep their values. */
  lemma OrdinaryPropertiesKept(fields: map<string, Json>, k: string)
    requires k in fields && k !in Reserved
    requires k !in ObjectField(fields, LinksKey) && k !in ObjectField(fields, EmbeddedKey)
    ensures TransformObject(fields).props[k] == Plain(fields[k])
  {
  }

  /**
   * The method a link is invoked with: the declared one (upper-cased), GET
   * when none is declared, and GET for `.list()` whatever is declared.
   */
  lemma MethodDefaulting(raw: Json, href: string)
    requires StringField(raw, "href") == Some(href)
    ensures StringField(raw, "method").None? ==> RequestOf(ParseLink(raw), false) == Some(Request("GET", href))
    ensures StringField(raw, "method").Some? ==> RequestOf(ParseLink(raw), false) == Some(Request(Upper(StringField(raw, "method").value), href))
    ensures RequestOf(ParseLink(raw), true) == Some(Request("GET", href))
  {
    assert Upper(DefaultMethod) == "GET";
  }

  /**
   * A link whose href is null resolves to `{}` and issues no request: its
   * outcome does not depend on the transport at all.
   */
  lemma NullHrefShortCircuit(link: Link, list: bool, t1: Transport, t2: Transport)
    requires link.href.None?
    ensures RequestOf(link, list).None?
    ensures InvokeOutcome(link, list, t1) == InvokeOutcome(link, list, t2) == Resolved(Plain(EmptyObject))
  {
  }

  /**
   * A `_links` entry whose href is missing, `null` or not a string gives a
   * link that issues no request and settles with `{}`, whatever the transport.
   */
  lemma NullHrefEntrySettlesEmpty(raw: Json, list: bool, request: Transport)
    requires StringField(raw, "href").None?
    ensures ParseLink(raw).href.None? && RequestOf(ParseLink(raw), list).None?
    ensures InvokeOutcome(ParseLink(raw), list, request) == Resolved(Plain(EmptyObject))
  {
  }

  /**
   * A response is transformed exactly when it is resource-shaped; otherwise
   * it is resolved unchanged and unflagged.
   */
  lemma ResponseTransformedIffResource(link: Link, list: bool, request: Transport, body: Json)
    requires link.href.Some? && request(RequestOf(link, list).value) == Success(body)
    ensures var o := InvokeOutcome(link, list, request);
      && o.Resolved?
      && (IsHalTransformed(o.value) <==> IsResourceShaped(body))
      && (!IsResourceShaped(body) ==> o.value == Plain(body))
  {
  }

  /** Two link maps with the same relations and the same descriptors are equal. */
  lemma SameLinks(a: map<string, Link>, b: map<string, Link>)
    requires a.Keys == b.Keys && forall rel :: rel in b ==> a[rel] == b[rel]
    ensures a == b
  {
  }

  /** One link of a `$plain()` snapshot re-parses to the descriptor it came from. */
  lemma SnapshotLinkReparses(s: State, rel: string)
    requires rel in s.links && s.links[rel] == ParseLink(s.links[rel].raw)
    ensures var p := ToPlain(s); var t := TransformObject(p.fields);
      rel in t.links && t.links[rel] == s.links[rel]
  {
    var p := ToPlain(s);
    assert ObjectField(p.fields, LinksKey)[rel] == s.links[rel].raw;
  }

  /**
   * Re-transforming a `$plain()` snapshot gives back the same link
   * descriptors and the same embedded relations.
   */
  lemma SnapshotRetransforms(fields: map<string, Json>)
    ensures var s := TransformObject(fields); var v := HalTransform(ToPlain(s));
      && IsHalTransformed(v)
      && v.res.links == s.links
      && v.res.embedded.Keys == s.embedded.Keys
  {
    var s := TransformObject(fields);
    var p := ToPlain(s);
    assert IsResourceShaped(p);
    var t := TransformObject(p.fields);
    forall rel | rel in s.links
      ensures t.links[rel] == s.links[rel]
    {
      SnapshotLinkReparses(s, rel);
    }
    SameLinks(t.links, s.links);
  }
}
