/** `getGETGetFeatureRequest`: a GetFeature request in KVP encoding. */
module FeatureGet {
  import opened Wrappers
  import opened Strings
  import opened Capabilities
  import opened KvpParams
  import opened Feature

  /** `int(version.split(".")[0])`. */
  function MajorVersion(version: string): Option<nat>
  {
    ParseNat(Split(version, '.')[0])
  }

  /** A version that is a decimal number, alone or followed by a dot and
      anything, has that number as its major version. */
  lemma MajorVersionOfNumber(n: nat, rest: string)
    ensures MajorVersion(NatToString(n)) == Some(n)
    ensures MajorVersion(NatToString(n) + "." + rest) == Some(n)
  {
    var s := NatToString(n);
    assert '.' !in s by {
      forall i | 0 <= i < |s|
        ensures s[i] != '.'
      {
        assert IsDigit(s[i]);
      }
    }
    SplitWhole(s, '.');
    SplitPrefix(s, '.', rest);
    ParseNatToString(n);
  }

  /** The three parameters every GetFeature request starts with. */
  function BaseParams(version: string): (r: Params)
    ensures Keys(r) == ["service", "version", "request"]
    ensures Lookup(r, "service") == Some(Text("WFS"))
    ensures Lookup(r, "version") == Some(Text(version))
    ensures Lookup(r, "request") == Some(Text("GetFeature"))
    ensures DistinctKeys(r)
  {
    var r := [("service", Text("WFS")), ("version", Text(version)), ("request", Text("GetFeature"))];
    assert r[1..][1..][1..] == [];
    assert Keys(r[1..][1..]) == ["request"];
    assert Keys(r[1..]) == ["version", "request"];
    assert Lookup(r[1..][1..], "request") == Some(Text("GetFeature"));
    r
  }

  /** featureid, else bbox, else filter: the first one given is the only one
      encoded. A bbox without a CRS of its own takes the default CRS of the
      first of `names`; only formatting the bbox can fail. */
  function WithSelector(svc: Service, q: GetFeatureQuery, names: seq<string>, p: Params): (r: Result<Params, Error>)
    ensures r.Err? <==> |q.featureid| == 0 && |q.bbox| > 0 && BBoxKvp(svc, q.bbox, names).Err?
    ensures r.Err? ==> r.error == BBoxKvp(svc, q.bbox, names).error
    ensures r.Ok? ==> Keys(p) <= Keys(r.value)
  {
    if |q.featureid| > 0 then Ok(Upsert(p, "featureid", Text(Join(q.featureid, ','))))
    else if |q.bbox| > 0 then
      var b :- BBoxKvp(svc, q.bbox, names);
      Ok(Upsert(p, "bbox", Text(b)))
    else if q.filter != "" then Ok(Upsert(p, "query", Text(q.filter)))
    else Ok(p)
  }

  /** The key names protocol major version 2 and later use. */
  predicate CountKeys(major: nat)
  {
    major >= 2
  }

  /** The type names, comma-joined under the version's key name; a version
      whose major number does not parse fails only when names are given. */
  function WithTypeNames(svc: Service, q: GetFeatureQuery, p: Params): (r: Result<Params, Error>)
    ensures r.Err? <==> TypeNamesGiven(q.typename) && MajorVersion(svc.version).None?
    ensures r.Err? ==> r.error == BadVersion(svc.version)
    ensures r.Ok? ==> Keys(p) <= Keys(r.value)
  {
    if !TypeNamesGiven(q.typename) then Ok(p)
    else match MajorVersion(svc.version)
      case None => Err(BadVersion(svc.version))
      case Some(major) =>
        Ok(Upsert(p, if CountKeys(major) then "typenames" else "typename", Text(Join(TypeNames(q.typename), ','))))
  }

  /** propertyname, sortby and featureversion, each only when given. */
  function WithListParams(q: GetFeatureQuery, p: Params): (r: Params)
    ensures Keys(p) <= Keys(r)
  {
    var p1 := if |q.propertyname| > 0 then Upsert(p, "propertyname", Text(Join(q.propertyname, ','))) else p;
    var p2 := if |q.sortby| > 0 then Upsert(p1, "sortby", Text(Join(q.sortby, ','))) else p1;
    assert Keys(p) <= Keys(p1) <= Keys(p2);
    if q.featureversion != "" then Upsert(p2, "featureversion", Text(q.featureversion)) else p2
  }

  /** The feature limit in decimal under the version's key name; a version
      whose major number does not parse fails only when a limit is given. */
  function WithMaxFeatures(svc: Service, q: GetFeatureQuery, p: Params): (r: Result<Params, Error>)
    ensures r.Err? <==> q.maxfeatures != 0 && MajorVersion(svc.version).None?
    ensures r.Err? ==> r.error == BadVersion(svc.version)
    ensures r.Ok? ==> Keys(p) <= Keys(r.value)
  {
    if q.maxfeatures == 0 then Ok(p)
    else match MajorVersion(svc.version)
      case None => Err(BadVersion(svc.version))
      case Some(major) =>
        Ok(Upsert(p, if CountKeys(major) then "count" else "maxfeatures", Text(IntToString(q.maxfeatures))))
  }

  /** The stored query's id, then its parameters merged over the dictionary. */
  function WithStoredQuery(q: GetFeatureQuery, p: Params): (r: Params)
    ensures Keys(p) <= Keys(r)
  {
    if q.storedQueryID != "" then
      var u := Upsert(p, "storedQuery_id", Text(q.storedQueryID));
      assert Keys(p) <= Keys(u) <= Keys(Merge(u, q.storedQueryParams));
      Merge(u, q.storedQueryParams)
    else p
  }

  /** startindex in decimal, only when non-zero. */
  function WithStartIndex(q: GetFeatureQuery, p: Params): (r: Params)
    ensures Keys(p) <= Keys(r)
  {
    if q.startindex != 0 then Upsert(p, "startindex", Text(IntToString(q.startindex))) else p
  }

  /** outputFormat whenever it is not None. */
  function WithOutputFormat(q: GetFeatureQuery, p: Params): (r: Params)
    ensures Keys(p) <= Keys(r)
  {
    if q.outputFormat.Some? then Upsert(p, "outputFormat", Text(q.outputFormat.value)) else p
  }

  /** The request dictionary, key by key in the order the client fills it, with
      the bbox's default CRS taken from the first of `names`. It starts with
      service, version and request, and fails only for a bbox that cannot be
      formatted or a major version that does not parse when it is needed. */
  function GetParamsWith(svc: Service, q: GetFeatureQuery, names: seq<string>): (r: Result<Params, Error>)
    ensures r.Ok? ==> ["service", "version", "request"] <= Keys(r.value)
    ensures r.Err? <==>
      || (|q.featureid| == 0 && |q.bbox| > 0 && BBoxKvp(svc, q.bbox, names).Err?)
      || ((TypeNamesGiven(q.typename) || q.maxfeatures != 0) && MajorVersion(svc.version).None?)
  {
    var p1 :- WithSelector(svc, q, names, BaseParams(svc.version));
    var p2 :- WithTypeNames(svc, q, p1);
    var p3 := WithListParams(q, p2);
    var p4 :- WithMaxFeatures(svc, q, p3);
    var p5 := WithStartIndex(q, p4);
    var p6 := WithStoredQuery(q, p5);
    assert Keys(BaseParams(svc.version)) <= Keys(p1) <= Keys(p2) <= Keys(p3) <= Keys(p4) <= Keys(p5) <= Keys(p6);
    Ok(WithOutputFormat(q, p6))
  }

  /** The dictionary the model uses: the bbox's default CRS comes from the
      first type name, a single string counting as a one-name list. */
  function GetParams(svc: Service, q: GetFeatureQuery): Result<Params, Error>
  {
    GetParamsWith(svc, q, TypeNames(q.typename))
  }

  /** The dictionary as line 182 builds it: the bbox's default CRS comes from
      `typename[0]` of the unwrapped argument. */
  function GetParamsAsWritten(svc: Service, q: GetFeatureQuery): Result<Params, Error>
  {
    GetParamsWith(svc, q, BBoxTypeNamesAsWritten(q.typename))
  }

  lemma GetParamsOfStages(svc: Service, q: GetFeatureQuery, p1: Params, p2: Params, p4: Params)
    requires WithSelector(svc, q, TypeNames(q.typename), BaseParams(svc.version)) == Ok(p1)
    requires WithTypeNames(svc, q, p1) == Ok(p2)
    requires WithMaxFeatures(svc, q, WithListParams(q, p2)) == Ok(p4)
    ensures GetParams(svc, q) == Ok(WithOutputFormat(q, WithStoredQuery(q, WithStartIndex(q, p4))))
  {
  }

  /** The request URL: the GET endpoint with exactly one trailing `?`, then the
      encoded dictionary; it fails exactly when the endpoint or the dictionary does. */
  function GetRequestUrl(svc: Service, q: GetFeatureQuery, quote: string -> string): (r: Result<string, Error>)
    ensures r.Err? <==> Endpoint(svc.getFeatureMethods, q.methodType).Err? || GetParams(svc, q).Err?
    ensures r.Ok? ==> GetBaseUrl(Endpoint(svc.getFeatureMethods, q.methodType).value) <= r.value
  {
    var url :- Endpoint(svc.getFeatureMethods, q.methodType);
    var p :- GetParams(svc, q);
    Ok(GetBaseUrl(url) + Encode(p, quote))
  }

  /** `for param in params: request[param] = params[param]`. */
  method MergeInto(request: ParamMap, params: seq<(string, Value)>)
    requires request.Valid()
    modifies request
    ensures request.Valid() && request.entries == Merge(old(request.entries), params)
  {
    var i := 0;
    while i < |params|
      invariant 0 <= i <= |params|
      invariant request.Valid()
      invariant request.entries == Merge(old(request.entries), params[..i])
    {
      ghost var done := params[..i + 1];
      assert done[..i] == params[..i] && done[i] == params[i];
      request.Set(params[i].0, params[i].1);
      assert request.entries == Merge(old(request.entries), done);
      i := i + 1;
    }
    assert params[..|params|] == params;
  }

  /** Fills featureid, else bbox, else query into the dictionary. */
  method SetSelector(svc: Service, q: GetFeatureQuery, request: ParamMap) returns (err: Option<Error>)
    requires request.Valid()
    modifies request
    ensures request.Valid()
    ensures WithSelector(svc, q, TypeNames(q.typename), old(request.entries)) == if err.Some? then Err(err.value) else Ok(request.entries)
  {
    err := None;
    if |q.featureid| > 0 {
      request.Set("featureid", Text(Join(q.featureid, ',')));
    } else if |q.bbox| > 0 {
      var b := BBoxKvp(svc, q.bbox, TypeNames(q.typename));
      if b.Err? {
        return Some(b.error);
      }
      request.Set("bbox", Text(b.value));
    } else if q.filter != "" {
      request.Set("query", Text(q.filter));
    }
  }

  /** Fills the type names in, under the version's key name. */
  method SetTypeNames(svc: Service, q: GetFeatureQuery, request: ParamMap) returns (err: Option<Error>)
    requires request.Valid()
    modifies request
    ensures request.Valid()
    ensures WithTypeNames(svc, q, old(request.entries)) == if err.Some? then Err(err.value) else Ok(request.entries)
  {
    err := None;
    if TypeNamesGiven(q.typename) {
      var major := MajorVersion(svc.version);
      if major.None? {
        return Some(BadVersion(svc.version));
      }
      if major.value >= 2 {
        request.Set("typenames", Text(Join(TypeNames(q.typename), ',')));
      } else {
        request.Set("typename", Text(Join(TypeNames(q.typename), ',')));
      }
    }
  }

  /** Fills propertyname, sortby and featureversion in, each when given. */
  method SetListParams(q: GetFeatureQuery, request: ParamMap)
    requires request.Valid()
    modifies request
    ensures request.Valid() && request.entries == WithListParams(q, old(request.entries))
  {
    if |q.propertyname| > 0 {
      request.Set("propertyname", Text(Join(q.propertyname, ',')));
    }
    if |q.sortby| > 0 {
      request.Set("sortby", Text(Join(q.sortby, ',')));
    }
    if q.featureversion != "" {
      request.Set("featureversion", Text(q.featureversion));
    }
  }

  /** Fills the feature limit in, under the version's key name. */
  method SetMaxFeatures(svc: Service, q: GetFeatureQuery, request: ParamMap) returns (err: Option<Error>)
    requires request.Valid()
    modifies request
    ensures request.Valid()
    ensures WithMaxFeatures(svc, q, old(request.entries)) == if err.Some? then Err(err.value) else Ok(request.entries)
  {
    err := None;
    if q.maxfeatures != 0 {
      var major := MajorVersion(svc.version);
      if major.None? {
        return Some(BadVersion(svc.version));
      }
      if major.value >= 2 {
        request.Set("count", Text(IntToString(q.maxfeatures)));
      } else {
        request.Set("maxfeatures", Text(IntToString(q.maxfeatures)));
      }
    }
  }

  /** Fills startindex, the stored query and outputFormat in, in that order. */
  method SetTrailingParams(q: GetFeatureQuery, request: ParamMap)
    requires request.Valid()
    modifies request
    ensures request.Valid()
    ensures request.entries == WithOutputFormat(q, WithStoredQuery(q, WithStartIndex(q, old(request.entries))))
  {
    if q.startindex != 0 {
      request.Set("startindex", Text(IntToString(q.startindex)));
    }
    if q.storedQueryID != "" {
      request.Set("storedQuery_id", Text(q.storedQueryID));
      MergeInto(request, q.storedQueryParams);
    }
    if q.outputFormat.Some? {
      request.Set("outputFormat", Text(q.outputFormat.value));
    }
  }

  /** `getGETGetFeatureRequest(...)`, filling a mutable dictionary. */
  method GetGetFeatureRequest(svc: Service, q: GetFeatureQuery, quote: string -> string) returns (r: Result<string, Error>)
    ensures r == GetRequestUrl(svc, q, quote)
  {
    var url := Endpoint(svc.getFeatureMethods, q.methodType);
    if url.Err? {
      return Err(url.error);
    }
    var baseUrl := GetBaseUrl(url.value);
    var request := new ParamMap(BaseParams(svc.version));
    var err := SetSelector(svc, q, request);
    if err.Some? {
      return Err(err.value);
    }
    ghost var p1 := request.entries;
    err := SetTypeNames(svc, q, request);
    if err.Some? {
      return Err(err.value);
    }
    ghost var p2 := request.entries;
    SetListParams(q, request);
    err := SetMaxFeatures(svc, q, request);
    if err.Some? {
      return Err(err.value);
    }
    GetParamsOfStages(svc, q, p1, p2, request.entries);
    SetTrailingParams(q, request);
    r := Ok(baseUrl + Encode(request.entries, quote));
  }
}

/** What the KVP GetFeature request contains. */
module FeatureGetProperties {
  import opened Wrappers
  import opened Strings
  import opened Capabilities
  import opened KvpParams
  import opened Feature
  import opened FeatureGet

  /** A stored-query parameter named `k` is merged, and so replaces the built-in value of `k`. */
  predicate Overrides(q: GetFeatureQuery, k: string)
  {
    q.storedQueryID != "" && LastLookup(q.storedQueryParams, k).Some?
  }

  /** The value `k` ends with when no stored-query parameter replaces it. */
  function Unless(q: GetFeatureQuery, k: string, builtIn: Option<Value>): Option<Value>
  {
    if Overrides(q, k) then LastLookup(q.storedQueryParams, k) else builtIn
  }

  /** The stages of `GetParams`, in order, when the whole succeeds. */
  lemma OpenGetParams(svc: Service, q: GetFeatureQuery) returns (p1: Params, p2: Params, p4: Params)
    requires GetParams(svc, q).Ok?
    ensures WithSelector(svc, q, TypeNames(q.typename), BaseParams(svc.version)) == Ok(p1)
    ensures WithTypeNames(svc, q, p1) == Ok(p2)
    ensures WithMaxFeatures(svc, q, WithListParams(q, p2)) == Ok(p4)
    ensures GetParams(svc, q).value == WithOutputFormat(q, WithStoredQuery(q, WithStartIndex(q, p4)))
  {
    p1 := WithSelector(svc, q, TypeNames(q.typename), BaseParams(svc.version)).value;
    p2 := WithTypeNames(svc, q, p1).value;
    p4 := WithMaxFeatures(svc, q, WithListParams(q, p2)).value;
  }

  /** The key name for the version: the new name from major version 2 on. */
  function VersionKey(version: string, newKey: string, oldKey: string): (r: string)
    ensures r == newKey || r == oldKey
    ensures MajorVersion(version).Some? && MajorVersion(version).value >= 2 ==> r == newKey
    ensures newKey != oldKey ==> (r == oldKey <==> MajorVersion(version).None? || MajorVersion(version).value < 2)
  {
    match MajorVersion(version)
    case Some(major) => if CountKeys(major) then newKey else oldKey
    case None => oldKey
  }

  // The value a key holds after each stage, given the value it held before.

  function BaseValue(version: string, k: string): Option<Value>
  {
    if k == "service" then Some(Text("WFS"))
    else if k == "version" then Some(Text(version))
    else if k == "request" then Some(Text("GetFeature"))
    else None
  }

  function SelectorValue(svc: Service, q: GetFeatureQuery, k: string, before: Option<Value>): Option<Value>
  {
    if k == "featureid" && |q.featureid| > 0 then Some(Text(Join(q.featureid, ',')))
    else if k == "bbox" && |q.featureid| == 0 && |q.bbox| > 0 then
      match BBoxKvp(svc, q.bbox, TypeNames(q.typename))
      case Ok(b) => Some(Text(b))
      case Err(_) => None
    else if k == "query" && |q.featureid| == 0 && |q.bbox| == 0 && q.filter != "" then Some(Text(q.filter))
    else before
  }

  function TypeNameValue(svc: Service, q: GetFeatureQuery, k: string, before: Option<Value>): Option<Value>
  {
    if TypeNamesGiven(q.typename) && k == VersionKey(svc.version, "typenames", "typename") then
      Some(Text(Join(TypeNames(q.typename), ',')))
    else before
  }

  function ListValue(q: GetFeatureQuery, k: string, before: Option<Value>): Option<Value>
  {
    if k == "featureversion" && q.featureversion != "" then Some(Text(q.featureversion))
    else if k == "sortby" && |q.sortby| > 0 then Some(Text(Join(q.sortby, ',')))
    else if k == "propertyname" && |q.propertyname| > 0 then Some(Text(Join(q.propertyname, ',')))
    else before
  }

  function MaxFeaturesValue(svc: Service, q: GetFeatureQuery, k: string, before: Option<Value>): Option<Value>
  {
    if q.maxfeatures != 0 && k == VersionKey(svc.version, "count", "maxfeatures") then
      Some(Text(IntToString(q.maxfeatures)))
    else before
  }

  function TrailingValue(q: GetFeatureQuery, k: string, before: Option<Value>): Option<Value>
  {
    if k == "outputFormat" && q.outputFormat.Some? then Some(Text(q.outputFormat.value))
    else if Overrides(q, k) then LastLookup(q.storedQueryParams, k)
    else if k == "storedQuery_id" && q.storedQueryID != "" then Some(Text(q.storedQueryID))
    else if k == "startindex" && q.startindex != 0 then Some(Text(IntToString(q.startindex)))
    else before
  }

  /** The value each key of the request dictionary ends with, key by key. */
  function ExpectedValue(svc: Service, q: GetFeatureQuery, k: string): Option<Value>
  {
    TrailingValue(q, k,
      MaxFeaturesValue(svc, q, k,
        ListValue(q, k,
          TypeNameValue(svc, q, k,
            SelectorValue(svc, q, k, BaseValue(svc.version, k))))))
  }

  lemma BaseLookup(version: string, k: string)
    ensures Lookup(BaseParams(version), k) == BaseValue(version, k)
  {
    var p := BaseParams(version);
    assert p[1..] == [("version", Text(version)), ("request", Text("GetFeature"))];
    assert p[1..][1..] == [("request", Text("GetFeature"))];
    assert p[1..][1..][1..] == [];
  }

  lemma SelectorLookup(svc: Service, q: GetFeatureQuery, p: Params, k: string)
    requires WithSelector(svc, q, TypeNames(q.typename), p).Ok?
    ensures Lookup(WithSelector(svc, q, TypeNames(q.typename), p).value, k) == SelectorValue(svc, q, k, Lookup(p, k))
  {
    if |q.featureid| > 0 {
      LookupUpsert(p, "featureid", Text(Join(q.featureid, ',')), k);
    } else if |q.bbox| > 0 {
      LookupUpsert(p, "bbox", Text(BBoxKvp(svc, q.bbox, TypeNames(q.typename)).value), k);
    } else if q.filter != "" {
      LookupUpsert(p, "query", Text(q.filter), k);
    }
  }

  lemma TypeNamesLookup(svc: Service, q: GetFeatureQuery, p: Params, k: string)
    requires WithTypeNames(svc, q, p).Ok?
    ensures Lookup(WithTypeNames(svc, q, p).value, k) == TypeNameValue(svc, q, k, Lookup(p, k))
  {
    if TypeNamesGiven(q.typename) {
      LookupUpsert(p, VersionKey(svc.version, "typenames", "typename"), Text(Join(TypeNames(q.typename), ',')), k);
    }
  }

  lemma ListParamsLookup(q: GetFeatureQuery, p: Params, k: string)
    ensures Lookup(WithListParams(q, p), k) == ListValue(q, k, Lookup(p, k))
  {
    var names := Text(Join(q.propertyname, ','));
    var order := Text(Join(q.sortby, ','));
    var p1 := if |q.propertyname| > 0 then Upsert(p, "propertyname", names) else p;
    var p2 := if |q.sortby| > 0 then Upsert(p1, "sortby", order) else p1;
    assert Lookup(p1, k) == if k == "propertyname" && |q.propertyname| > 0 then Some(names) else Lookup(p, k) by {
      LookupUpsert(p, "propertyname", names, k);
    }
    assert Lookup(p2, k) == if k == "sortby" && |q.sortby| > 0 then Some(order) else Lookup(p1, k) by {
      LookupUpsert(p1, "sortby", order, k);
    }
    assert WithListParams(q, p) == if q.featureversion != "" then Upsert(p2, "featureversion", Text(q.featureversion)) else p2;
    LookupUpsert(p2, "featureversion", Text(q.featureversion), k);
  }

  lemma MaxFeaturesLookup(svc: Service, q: GetFeatureQuery, p: Params, k: string)
    requires WithMaxFeatures(svc, q, p).Ok?
    ensures Lookup(WithMaxFeatures(svc, q, p).value, k) == MaxFeaturesValue(svc, q, k, Lookup(p, k))
  {
    if q.maxfeatures != 0 {
      LookupUpsert(p, VersionKey(svc.version, "count", "maxfeatures"), Text(IntToString(q.maxfeatures)), k);
    }
  }

  lemma TrailingLookup(q: GetFeatureQuery, p: Params, k: string)
    ensures Lookup(WithOutputFormat(q, WithStoredQuery(q, WithStartIndex(q, p))), k) == TrailingValue(q, k, Lookup(p, k))
  {
    var p5 := WithStartIndex(q, p);
    var p6 := WithStoredQuery(q, p5);
    LookupUpsert(p, "startindex", Text(IntToString(q.startindex)), k);
    LookupUpsert(p5, "storedQuery_id", Text(q.storedQueryID), k);
    LookupMerge(Upsert(p5, "storedQuery_id", Text(q.storedQueryID)), q.storedQueryParams, k);
    if q.outputFormat.Some? {
      LookupUpsert(p6, "outputFormat", Text(q.outputFormat.value), k);
    }
  }

  /** Every key of the request dictionary holds exactly its expected value. */
  lemma GetParamsLookup(svc: Service, q: GetFeatureQuery, k: string)
    requires GetParams(svc, q).Ok?
    ensures Lookup(GetParams(svc, q).value, k) == ExpectedValue(svc, q, k)
  {
    var p1, p2, p4 := OpenGetParams(svc, q);
    BaseLookup(svc.version, k);
    SelectorLookup(svc, q, BaseParams(svc.version), k);
    TypeNamesLookup(svc, q, p1, k);
    ListParamsLookup(q, p2, k);
    MaxFeaturesLookup(svc, q, WithListParams(q, p2), k);
    TrailingLookup(q, p4, k);
  }

  /** service, version and request hold WFS, the client's version and
      GetFeature, unless a merged stored-query parameter of the same name
      replaced the value (in place). */
  lemma GetServiceParams(svc: Service, q: GetFeatureQuery, k: string)
    requires GetParams(svc, q).Ok?
    requires k in {"service", "version", "request"}
    ensures Lookup(GetParams(svc, q).value, k) == Unless(q, k, BaseValue(svc.version, k))
  {
    GetParamsLookup(svc, q, k);
  }

  /** Of featureid, bbox and filter, only the first one given is encoded, as
      `featureid`, `bbox` or `query`. */
  lemma GetSelectorPrecedence(svc: Service, q: GetFeatureQuery)
    requires GetParams(svc, q).Ok?
    requires !Overrides(q, "featureid") && !Overrides(q, "bbox") && !Overrides(q, "query")
    ensures var p := GetParams(svc, q).value;
      && Lookup(p, "featureid") == (if |q.featureid| > 0 then Some(Text(Join(q.featureid, ','))) else None)
      && ("bbox" in Keys(p) <==> |q.featureid| == 0 && |q.bbox| > 0)
      && (|q.featureid| == 0 && |q.bbox| > 0 ==>
            BBoxKvp(svc, q.bbox, TypeNames(q.typename)).Ok?
            && Lookup(p, "bbox") == Some(Text(BBoxKvp(svc, q.bbox, TypeNames(q.typename)).value)))
      && Lookup(p, "query") == (if |q.featureid| == 0 && |q.bbox| == 0 && q.filter != "" then Some(Text(q.filter)) else None)
      && !("featureid" in Keys(p) && "bbox" in Keys(p))
      && !("featureid" in Keys(p) && "query" in Keys(p))
      && !("bbox" in Keys(p) && "query" in Keys(p))
  {
    GetParamsLookup(svc, q, "featureid");
    GetParamsLookup(svc, q, "bbox");
    GetParamsLookup(svc, q, "query");
  }

  /** Major version 2 and later name the keys `typenames` and `count`, earlier
      versions `typename` and `maxfeatures`; the two forms never appear together.
      A value of 0 for maxfeatures is left out. */
  lemma GetVersionKeyNames(svc: Service, q: GetFeatureQuery)
    requires GetParams(svc, q).Ok?
    requires !Overrides(q, "typenames") && !Overrides(q, "typename")
    requires !Overrides(q, "count") && !Overrides(q, "maxfeatures")
    ensures var p := GetParams(svc, q).value;
      var names := Some(Text(Join(TypeNames(q.typename), ',')));
      var limit := Some(Text(IntToString(q.maxfeatures)));
      && (TypeNamesGiven(q.typename) || q.maxfeatures != 0 ==> MajorVersion(svc.version).Some?)
      && Lookup(p, "typenames") == (if TypeNamesGiven(q.typename) && MajorVersion(svc.version).value >= 2 then names else None)
      && Lookup(p, "typename") == (if TypeNamesGiven(q.typename) && MajorVersion(svc.version).value < 2 then names else None)
      && Lookup(p, "count") == (if q.maxfeatures != 0 && MajorVersion(svc.version).value >= 2 then limit else None)
      && Lookup(p, "maxfeatures") == (if q.maxfeatures != 0 && MajorVersion(svc.version).value < 2 then limit else None)
      && !("typenames" in Keys(p) && "typename" in Keys(p))
      && !("count" in Keys(p) && "maxfeatures" in Keys(p))
  {
    GetParamsLookup(svc, q, "typenames");
    GetParamsLookup(svc, q, "typename");
    GetParamsLookup(svc, q, "count");
    GetParamsLookup(svc, q, "maxfeatures");
  }

  /** propertyname appears only when given, comma-joined. */
  lemma GetPropertyNameParam(svc: Service, q: GetFeatureQuery)
    requires GetParams(svc, q).Ok?
    ensures Lookup(GetParams(svc, q).value, "propertyname") ==
      Unless(q, "propertyname", if |q.propertyname| > 0 then Some(Text(Join(q.propertyname, ','))) else None)
  {
    GetParamsLookup(svc, q, "propertyname");
  }

  /** sortby appears only when given, comma-joined. */
  lemma GetSortByParam(svc: Service, q: GetFeatureQuery)
    requires GetParams(svc, q).Ok?
    ensures Lookup(GetParams(svc, q).value, "sortby") ==
      Unless(q, "sortby", if |q.sortby| > 0 then Some(Text(Join(q.sortby, ','))) else None)
  {
    GetParamsLookup(svc, q, "sortby");
  }

  /** featureversion appears only when given, as is. */
  lemma GetFeatureVersionParam(svc: Service, q: GetFeatureQuery)
    requires GetParams(svc, q).Ok?
    ensures Lookup(GetParams(svc, q).value, "featureversion") ==
      Unless(q, "featureversion", if q.featureversion != "" then Some(Text(q.featureversion)) else None)
  {
    GetParamsLookup(svc, q, "featureversion");
  }

  /** startindex appears only when non-zero, in decimal. */
  lemma GetStartIndexParam(svc: Service, q: GetFeatureQuery)
    requires GetParams(svc, q).Ok?
    ensures Lookup(GetParams(svc, q).value, "startindex") ==
      Unless(q, "startindex", if q.startindex != 0 then Some(Text(IntToString(q.startindex))) else None)
  {
    GetParamsLookup(svc, q, "startindex");
  }

  /** storedQuery_id appears only for a stored query. */
  lemma GetStoredQueryIdParam(svc: Service, q: GetFeatureQuery)
    requires GetParams(svc, q).Ok?
    ensures Lookup(GetParams(svc, q).value, "storedQuery_id") ==
      Unless(q, "storedQuery_id", if q.storedQueryID != "" then Some(Text(q.storedQueryID)) else None)
  {
    GetParamsLookup(svc, q, "storedQuery_id");
  }

  /** outputFormat appears whenever it is not None, even when it is empty, and
      is written after the stored-query parameters. */
  lemma GetOutputFormatParam(svc: Service, q: GetFeatureQuery)
    requires GetParams(svc, q).Ok?
    ensures Lookup(GetParams(svc, q).value, "outputFormat") ==
      if q.outputFormat.Some? then Some(Text(q.outputFormat.value)) else Unless(q, "outputFormat", None)
  {
    GetParamsLookup(svc, q, "outputFormat");
  }

  /** With a stored query, its parameters are merged last and overwrite any
      key of the same name; only outputFormat is written after them. Without a
      stored query none of them is merged. */
  lemma GetStoredQueryOverrides(svc: Service, q: GetFeatureQuery, k: string)
    requires GetParams(svc, q).Ok?
    requires k != "outputFormat" || q.outputFormat.None?
    ensures Overrides(q, k) ==> Lookup(GetParams(svc, q).value, k) == LastLookup(q.storedQueryParams, k)
    ensures q.storedQueryID == "" ==> "storedQuery_id" !in Keys(GetParams(svc, q).value)
  {
    var p := GetParams(svc, q).value;
    assert Overrides(q, k) ==> Lookup(p, k) == LastLookup(q.storedQueryParams, k) by {
      GetParamsLookup(svc, q, k);
    }
    assert q.storedQueryID == "" ==> "storedQuery_id" !in Keys(p) by {
      GetParamsLookup(svc, q, "storedQuery_id");
    }
  }

  // ------------------------------------------------ the bbox default CRS

  /** As written, a bounding box without a CRS of its own and a type name given
      as the string "roads" looks up the feature type "r", which is not declared,
      although "roads" is; the corrected lookup finds it. */
  lemma BBoxAsWrittenLooksUpFirstLetter(c: Crs, parse: string -> Crs)
    ensures var svc := Service("2.0.0", map["roads" := [c]], [], parse);
      && BBoxKvp(svc, ["1", "2", "3", "4"], BBoxTypeNamesAsWritten(OneTypeName("roads"))) == Err(UnknownTypeName("r"))
      && BBoxKvp(svc, ["1", "2", "3", "4"], TypeNames(OneTypeName("roads"))).Ok?
  {
    var svc := Service("2.0.0", map["roads" := [c]], [], parse);
    var written := BBoxTypeNamesAsWritten(OneTypeName("roads"));
    assert written[0] == "r";
    assert "r" != "roads";
    assert written[0] !in svc.contents;
  }

  /** As written, a query for the type name given as the string "roads", with
      a four-element bounding box in a version whose major number parses,
      fails with KeyError on "r" when "r" is not declared, although "roads" is
      and the corrected dictionary is built. */
  lemma GetParamsAsWrittenLooksUpFirstLetter(svc: Service, q: GetFeatureQuery)
    requires "roads" in svc.contents && |svc.contents["roads"]| > 0 && "r" !in svc.contents
    requires MajorVersion(svc.version).Some?
    requires q.typename == OneTypeName("roads") && |q.featureid| == 0 && |q.bbox| == 4
    ensures GetParamsAsWritten(svc, q) == Err(UnknownTypeName("r"))
    ensures GetParams(svc, q).Ok?
  {
    var written := BBoxTypeNamesAsWritten(q.typename);
    assert written[0] == "r";
  }

  /** The code as written and the corrected model build the same dictionary
      whenever the bbox's default CRS is not looked up, or the lookup sees the
      same first name: a type-name list, no type name, or a one-letter string. */
  lemma GetParamsAsWrittenAgrees(svc: Service, q: GetFeatureQuery)
    requires |q.featureid| > 0 || |q.bbox| == 0 || |q.bbox| == 5 || !q.typename.OneTypeName? || |q.typename.name| == 1
    ensures GetParamsAsWritten(svc, q) == GetParams(svc, q)
  {
    var written := BBoxTypeNamesAsWritten(q.typename);
    var wrapped := TypeNames(q.typename);
    if q.typename.OneTypeName? && |q.typename.name| == 1 {
      assert |written| == 1 && written[0] == q.typename.name[0..1] == q.typename.name;
      assert written == wrapped;
    } else if !q.typename.OneTypeName? {
      assert written == wrapped;
    } else if |q.featureid| == 0 && |q.bbox| == 5 {
      assert BBoxKvp(svc, q.bbox, written) == BBoxKvp(svc, q.bbox, wrapped);
      assert WithSelector(svc, q, written, BaseParams(svc.version)) == WithSelector(svc, q, wrapped, BaseParams(svc.version));
    } else {
      assert WithSelector(svc, q, written, BaseParams(svc.version)) == WithSelector(svc, q, wrapped, BaseParams(svc.version));
    }
  }

  /** Corrected: with four coordinates and a type name given as one string, the
      bbox is written in the first CRS the named feature type declares. */
  lemma GetBBoxDefaultCrsOfNamedType(svc: Service, q: GetFeatureQuery)
    requires GetParams(svc, q).Ok? && !Overrides(q, "bbox")
    requires |q.featureid| == 0 && |q.bbox| == 4 && q.typename.OneTypeName?
    requires q.typename.name in svc.contents && |svc.contents[q.typename.name]| > 0
    ensures Lookup(GetParams(svc, q).value, "bbox") ==
      Some(Text(Join(BBoxTokens(svc.version, svc.contents[q.typename.name][0], q.bbox), ',')))
  {
    GetParamsLookup(svc, q, "bbox");
  }

  // ------------------------------------------------------------- example

  /** `int("2.0.0".split(".")[0])` is 2. */
  lemma MajorVersionExample()
    ensures MajorVersion("2.0.0") == Some(2)
  {
    assert Join(["2", "0", "0"], '.') == "2.0.0";
    SplitJoin(["2", "0", "0"], '.');
    assert ParseNat("2") == Some(2);
  }

  /** The type-name stage of that request appends `typenames` after the three fixed keys. */
  lemma TypeNamesStageExample(svc: Service, q: GetFeatureQuery)
    requires svc.version == "2.0.0" && q.typename == OneTypeName("roads")
    ensures WithTypeNames(svc, q, BaseParams("2.0.0")) ==
      Ok([("service", Text("WFS")), ("version", Text("2.0.0")), ("request", Text("GetFeature")), ("typenames", Text("roads"))])
  {
    MajorVersionExample();
    var base := BaseParams("2.0.0");
    assert base == [("service", Text("WFS")), ("version", Text("2.0.0")), ("request", Text("GetFeature"))];
    assert Join(TypeNames(q.typename), ',') == "roads";
    UpsertNewKey(base, "typenames", Text("roads"));
    assert base + [("typenames", Text("roads"))] ==
      [("service", Text("WFS")), ("version", Text("2.0.0")), ("request", Text("GetFeature")), ("typenames", Text("roads"))];
  }

  /** A version 2.0.0 dictionary for one feature type: the three fixed keys, then `typenames`. */
  lemma GetParamsExample(svc: Service, q: GetFeatureQuery)
    requires svc.version == "2.0.0"
    requires q == GetFeatureQuery(OneTypeName("roads"), "", [], [], "", [], 0, "", [], None, "GET", 0, [])
    ensures GetParams(svc, q) ==
      Ok([("service", Text("WFS")), ("version", Text("2.0.0")), ("request", Text("GetFeature")), ("typenames", Text("roads"))])
  {
    var base := BaseParams("2.0.0");
    var p := [("service", Text("WFS")), ("version", Text("2.0.0")), ("request", Text("GetFeature")), ("typenames", Text("roads"))];
    TypeNamesStageExample(svc, q);
    assert WithSelector(svc, q, TypeNames(q.typename), base) == Ok(base);
    assert WithMaxFeatures(svc, q, WithListParams(q, p)) == Ok(p);
    assert WithOutputFormat(q, WithStoredQuery(q, WithStartIndex(q, p))) == p;
    GetParamsOfStages(svc, q, base, p, p);
  }

  /** The `Get` method matches the requested `GET`. */
  lemma GetEndpointExample(url: string)
    ensures Endpoint([Method("Get", url)], "GET") == Ok(url)
  {
    assert Lower("Get") == Lower("GET") == "get";
    assert MethodMatches(Method("Get", url), "GET");
  }

  /** The request URL for that dictionary: a base URL without `?` gains one. */
  lemma GetRequestExample(svc: Service, q: GetFeatureQuery, url: string, quote: string -> string)
    requires svc.version == "2.0.0" && svc.getFeatureMethods == [Method("Get", url)] && !EndsWith(url, '?')
    requires q == GetFeatureQuery(OneTypeName("roads"), "", [], [], "", [], 0, "", [], None, "GET", 0, [])
    ensures var p := [("service", Text("WFS")), ("version", Text("2.0.0")), ("request", Text("GetFeature")), ("typenames", Text("roads"))];
      GetRequestUrl(svc, q, quote) == Ok(url + "?" + Encode(p, quote))
  {
    GetParamsExample(svc, q);
    GetEndpointExample(url);
  }
}
