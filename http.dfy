/**
 * The HTTP boundary the resource service talks to: a request is a method and
 * an href, and the transport answers it with a body or a rejection.
 */
module Http {
  import opened Wrappers
  import opened JsonData

  /** One call of the transport: `request(method, href)`. */
  datatype Request = Request(verb: string, href: string)

  /** The transport boundary: answers a request with a body or a rejection. */
  type Transport = Request -> Result<Json, string>

  function UpperChar(c: char): char {
    if 'a' <= c <= 'z' then (c as int - 32) as char else c
  }

  /** ASCII upper case: the HTTP layer sends a declared `post` as `POST`. */
  function Upper(s: string): (r: string)
    ensures |r| == |s|
    ensures forall i :: 0 <= i < |s| ==> r[i] == UpperChar(s[i])
  {
    if s == [] then [] else [UpperChar(s[0])] + Upper(s[1..])
  }

  /** Upper-casing the methods the API declares. */
  lemma DeclaredMethodsUpperCased()
    ensures Upper("post") == "POST" && Upper("put") == "PUT" && Upper("patch") == "PATCH"
    ensures Upper("delete") == "DELETE" && Upper("get") == "GET" && Upper("GET") == "GET"
  {
    UpperCasesPost();
    UpperCasesDelete();
  }

  lemma UpperCasesPost()
    ensures Upper("post") == "POST" && Upper("put") == "PUT" && Upper("patch") == "PATCH"
  {
  }

  lemma UpperCasesDelete()
    ensures Upper("delete") == "DELETE" && Upper("get") == "GET" && Upper("GET") == "GET"
  {
  }
}
