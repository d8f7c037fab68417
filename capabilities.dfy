/** The read-only capability data a client holds once the server's
    capabilities document has been parsed. */
module Capabilities {

  /** A coordinate reference system as the client's CRS objects expose it:
      the identifier declared by the server, the plain code (`getcode()`),
      the URN form (`getcodeurn()`), the encoding it was written in and its axis order. */
  datatype Crs = Crs(id: string, code: string, codeurn: string, encoding: string, axisorder: string)

  /** Two CRS objects are equal when they denote the same URN code. */
  predicate SameCrs(a: Crs, b: Crs)
  {
    a.codeurn == b.codeurn
  }

  /** One DCP entry of the GetFeature operation: the HTTP method type and its URL. */
  datatype Method = Method(kind: string, url: string)

  /** The client's view of one server: the negotiated protocol version, the CRS
      options declared per feature type (first is the default), the GetFeature
      methods, and the CRS parser (`Crs(name)`), which is not part of this model. */
  datatype Service = Service(
    version: string,
    contents: map<string, seq<Crs>>,
    getFeatureMethods: seq<Method>,
    parseCrs: string -> Crs)
}
