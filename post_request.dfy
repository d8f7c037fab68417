/** The WFS 2.0.0 POST document builder, reduced to the record of the setter
    calls made on it; the XML it would write is not part of this model. */
module PostRequest {

  /** One setter call on the builder, with its argument. */
  datatype Call =
    | CreateQuery(typenames: string)
    | SetFeatureId(ids: seq<string>)
    | SetBBox(bbox: seq<string>)
    | SetFilter(filter: string)
    | SetMaxFeatures(count: int)
    | SetOutputFormat(format: string)
    | SetStartIndex(index: int)
    | SetPropertyName(names: seq<string>)
    | SetSortBy(names: seq<string>)

  /** A GetFeature POST document under construction. */
  class PostRequest200 {
    /** The setter calls made so far, oldest first. */
    var calls: seq<Call>

    constructor ()
      ensures calls == []
    {
      calls := [];
    }

    method CreateQuery(typenames: string)
      modifies this
      ensures calls == old(calls) + [Call.CreateQuery(typenames)]
    {
      calls := calls + [Call.CreateQuery(typenames)];
    }

    method SetFeatureId(ids: seq<string>)
      modifies this
      ensures calls == old(calls) + [Call.SetFeatureId(ids)]
    {
      calls := calls + [Call.SetFeatureId(ids)];
    }

    method SetBBox(bbox: seq<string>)
      modifies this
      ensures calls == old(calls) + [Call.SetBBox(bbox)]
    {
      calls := calls + [Call.SetBBox(bbox)];
    }

    method SetFilter(filter: string)
      modifies this
      ensures calls == old(calls) + [Call.SetFilter(filter)]
    {
      calls := calls + [Call.SetFilter(filter)];
    }

    method SetMaxFeatures(count: int)
      modifies this
      ensures calls == old(calls) + [Call.SetMaxFeatures(count)]
    {
      calls := calls + [Call.SetMaxFeatures(count)];
    }

    method SetOutputFormat(format: string)
      modifies this
      ensures calls == old(calls) + [Call.SetOutputFormat(format)]
    {
      calls := calls + [Call.SetOutputFormat(format)];
    }

    method SetStartIndex(index: int)
      modifies this
      ensures calls == old(calls) + [Call.SetStartIndex(index)]
    {
      calls := calls + [Call.SetStartIndex(index)];
    }

    method SetPropertyName(names: seq<string>)
      modifies this
      ensures calls == old(calls) + [Call.SetPropertyName(names)]
    {
      calls := calls + [Call.SetPropertyName(names)];
    }

    method SetSortBy(names: seq<string>)
      modifies this
      ensures calls == old(calls) + [Call.SetSortBy(names)]
    {
      calls := calls + [Call.SetSortBy(names)];
    }

    /** `to_string()`: the document, described by the calls that built it. */
    function Document(): seq<Call>
      reads this
    {
      calls
    }
  }
}
