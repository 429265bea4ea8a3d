/**
 * The live side of the HAL transformer: `halTransform` rewrites the object
 * it is given in place, and invoking one of its `$links` writes the result
 * back into the property of the same name.
 */
module HalResources {
  import opened Wrappers
  import opened JsonData
  import opened Http
  import opened Hal

  /**
   * The HTTP backend: answers each request with `respond` and records every
   * request it receives, in order.
   */
  class Backend {
    const respond: Transport
    var log: seq<Request>

    constructor (respond: Transport)
      ensures this.respond == respond && log == []
    {
      this.respond := respond;
      log := [];
    }

    method Send(q: Request) returns (r: Result<Json, string>)
      modifies this
      ensures log == old(log) + [q]
      ensures r == respond(q)
    {
      log := log + [q];
      r := respond(q);
    }
  }

  /**
   * A JSON object that `halTransform` can rewrite in place. Before the
   * transformation every property is plain JSON and there are no `$links`
   * or `$embedded`; afterwards `halTransformed` is set.
   */
  class Resource {
    var props: map<string, Value>
    var links: map<string, Link>
    var embedded: map<string, Value>
    var halTransformed: bool

    ghost predicate Valid()
      reads this
    {
      !halTransformed ==> links == map[] && embedded == map[] && forall k :: k in props ==> props[k].Plain?
    }

    /** The object's fields as plain JSON, before the transformation. */
    function RawFields(): (fields: map<string, Json>)
      reads this
      requires Valid() && !halTransformed
      ensures fields.Keys == props.Keys
      ensures forall k :: k in props ==> props[k] == Plain(fields[k])
    {
      map k | k in props :: props[k].json
    }

    /** The transformed resource's current properties, `$links` and `$embedded`. */
    function Current(): State
      reads this
    {
      State(props, links, embedded)
    }

    /** A plain object with the given fields. */
    constructor (fields: map<string, Json>)
      ensures Valid() && !halTransformed
      ensures RawFields() == fields
    {
      props := map k | k in fields :: Plain(fields[k]);
      links := map[];
      embedded := map[];
      halTransformed := false;
    }

    /**
     * `halTransform(element)`: a resource-shaped object that is not yet
     * transformed is rewritten into its transformed form and flagged; any
     * other object, and an object already transformed, is left as it is.
     */
    method Transform()
      requires Valid()
      modifies this
      ensures Valid()
      ensures old(halTransformed) ==> unchanged(this)
      ensures !old(halTransformed) && !IsResourceShaped(JObj(old(RawFields()))) ==> unchanged(this)
      ensures !old(halTransformed) && IsResourceShaped(JObj(old(RawFields()))) ==>
        halTransformed && Current() == TransformObject(old(RawFields()))
    {
      if !halTransformed && (LinksKey in props || EmbeddedKey in props) {
        var s := TransformObject(RawFields());
        props, links, embedded, halTransformed := s.props, s.links, s.embedded, true;
      }
    }

    /**
     * Invokes `$links[rel]` (or `$links[rel].list()` when `list` holds).
     * A null href settles with `{}` and sends nothing. Otherwise the request
     * goes to the backend; a rejection leaves the resource as it is, and a
     * body is transformed when resource-shaped and written back as the
     * property `rel`.
     */
    method Invoke(rel: string, list: bool, backend: Backend) returns (o: Outcome)
      requires Valid() && rel in links
      modifies this, backend
      ensures Valid()
      ensures o == InvokeOutcome(old(links[rel]), list, backend.respond)
      ensures RequestOf(old(links[rel]), list).None? ==> backend.log == old(backend.log)
      ensures RequestOf(old(links[rel]), list).Some? ==>
        backend.log == old(backend.log) + [RequestOf(old(links[rel]), list).value]
      ensures links == old(links) && embedded == old(embedded) && halTransformed == old(halTransformed)
      ensures old(links[rel]).href.Some? && o.Resolved? ==> props == old(props)[rel := o.value]
      ensures old(links[rel]).href.None? || o.Rejected? ==> props == old(props)
    {
      var link := links[rel];
      var q := RequestOf(link, list);
      if q.None? {
        o := Resolved(Plain(EmptyObject));
      } else {
        var response := backend.Send(q.value);
        if response.Failure? {
          o := Rejected(response.error);
        } else {
          var v := HalTransform(response.value);
          props := props[rel := v];
          o := Resolved(v);
        }
      }
    }

    /** `$plain()`: an independent snapshot; taking it changes nothing. */
    method Snapshot() returns (j: Json)
      requires halTransformed
      ensures j == ToPlain(Current())
    {
      j := ToPlain(Current());
    }
  }
}
