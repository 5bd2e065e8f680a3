/** HTTP responses, as the route handlers leave them on the Koa context. */
module Http {
  import Rdf

  datatype Body =
    | NoBody
    | Text(text: string)
      /** Static triples, then the named raw fragment file, then paging metadata. */
    | FragmentPage(staticText: string, fragmentPath: string, metadata: seq<Rdf.Triple>)
      /** Statements serialised as TriG. */
    | Statements(triples: seq<Rdf.Triple>)

  datatype Response = Response(status: int, headers: map<string, string>, body: Body)

  const AllowOrigin := map["Access-Control-Allow-Origin" := "*"]

  /** Koa's answer when a handler throws. */
  const InternalError := Response(500, map[], Text("Internal Server Error"))

  /** The handlers' answer for a missing fragment; the routes set the CORS header first. */
  const NotFound := Response(404, AllowOrigin, Text("No data found"))

  /** `ctx.redirect(url)` with status 302: a Location header and no payload of ours. */
  function Redirect(url: string): (r: Response)
    ensures r.status == 302 && "Location" in r.headers && r.headers["Location"] == url
  {
    Response(302, map["Location" := url], NoBody)
  }
}
