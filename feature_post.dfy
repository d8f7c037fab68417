/** `getPOSTGetFeatureRequest`: a GetFeature request sent as a POST body. */
module FeaturePost {
  import opened Wrappers
  import opened Strings
  import opened Capabilities
  import opened PostRequest
  import opened Feature

  /** What is posted: the caller's filter as it is, or the builder's document. */
  datatype PostBody = RawFilter(filter: string) | PostDocument(calls: seq<Call>)

  /** The selector call: feature ids, else the bounding box as given, else the filter. */
  function SelectorCalls(q: GetFeatureQuery): seq<Call>
  {
    if |q.featureid| > 0 then [SetFeatureId(q.featureid)]
    else if |q.bbox| > 0 then [SetBBox(q.bbox)]
    else if q.filter != "" then [SetFilter(q.filter)]
    else []
  }

  // The optional calls after the selector, each made only for a truthy argument.

  function MaxFeaturesCall(q: GetFeatureQuery): seq<Call>
  {
    if q.maxfeatures != 0 then [SetMaxFeatures(q.maxfeatures)] else []
  }

  function OutputFormatCall(q: GetFeatureQuery): seq<Call>
  {
    if q.outputFormat.Some? && q.outputFormat.value != "" then [SetOutputFormat(q.outputFormat.value)] else []
  }

  function StartIndexCall(q: GetFeatureQuery): seq<Call>
  {
    if q.startindex != 0 then [SetStartIndex(q.startindex)] else []
  }

  function PropertyNameCall(q: GetFeatureQuery): seq<Call>
  {
    if |q.propertyname| > 0 then [SetPropertyName(q.propertyname)] else []
  }

  function SortByCall(q: GetFeatureQuery): seq<Call>
  {
    if |q.sortby| > 0 then [SetSortBy(q.sortby)] else []
  }

  function OptionCalls(q: GetFeatureQuery): seq<Call>
  {
    MaxFeaturesCall(q) + OutputFormatCall(q) + StartIndexCall(q) + PropertyNameCall(q) + SortByCall(q)
  }

  /** The calls made on the builder for a query with type names, in order. */
  function PostCalls(q: GetFeatureQuery): seq<Call>
  {
    [CreateQuery(Join(TypeNames(q.typename), ','))] + SelectorCalls(q) + OptionCalls(q)
  }

  /** Whether the builder is given version 2.0 or 2.0.0. */
  predicate HasPostBuilder(version: string)
  {
    version == "2.0" || version == "2.0.0"
  }

  /** The endpoint without its trailing `?` and the body, or the exception
      raised: StopIteration without a matching method; the raw filter when no
      type name is given; the builder's document only for a builder version and
      type names; otherwise the missing builder, then the missing type name. */
  function PostRequestSpec(svc: Service, q: GetFeatureQuery): (r: Result<(string, PostBody), Error>)
    ensures var e := Endpoint(svc.getFeatureMethods, q.methodType);
      && (e.Err? ==> r == Err(NoMatchingMethod(q.methodType)))
      && (e.Ok? && r.Ok? ==> r.value.0 == PostBaseUrl(e.value))
      && (r.Ok? && r.value.1.RawFilter? <==> e.Ok? && !TypeNamesGiven(q.typename) && q.filter != "")
      && (r.Ok? && r.value.1.RawFilter? ==> r.value.1.filter == q.filter)
      && (r.Ok? && r.value.1.PostDocument? <==> e.Ok? && TypeNamesGiven(q.typename) && HasPostBuilder(svc.version))
      && (r.Ok? && r.value.1.PostDocument? ==> r.value.1.calls == PostCalls(q))
      && (r == Err(NoPostBuilder(svc.version)) <==>
            e.Ok? && (TypeNamesGiven(q.typename) || q.filter == "") && !HasPostBuilder(svc.version))
      && (r == Err(MissingTypeName) <==>
            e.Ok? && !TypeNamesGiven(q.typename) && q.filter == "" && HasPostBuilder(svc.version))
  {
    var url :- Endpoint(svc.getFeatureMethods, q.methodType);
    var base := PostBaseUrl(url);
    if !TypeNamesGiven(q.typename) && q.filter != "" then Ok((base, RawFilter(q.filter)))
    else if !HasPostBuilder(svc.version) then Err(NoPostBuilder(svc.version))
    else if !TypeNamesGiven(q.typename) then Err(MissingTypeName)
    else Ok((base, PostDocument(PostCalls(q))))
  }

  /** The builder sequence of `getPOSTGetFeatureRequest`: the same endpoint
      choice as GET, the filter-only shortcut, then the setters in source order. */
  method GetPostGetFeatureRequest(svc: Service, q: GetFeatureQuery) returns (r: Result<(string, PostBody), Error>)
    ensures r == PostRequestSpec(svc, q)
  {
    var url := Endpoint(svc.getFeatureMethods, q.methodType);
    if url.Err? {
      return Err(url.error);
    }
    var base := PostBaseUrl(url.value);
    if !TypeNamesGiven(q.typename) && q.filter != "" {
      return Ok((base, RawFilter(q.filter)));
    }
    var request := CreatePostRequest(svc.version);
    if request == null {
      return Err(NoPostBuilder(svc.version));
    }
    if !TypeNamesGiven(q.typename) {
      return Err(MissingTypeName);
    }
    request.CreateQuery(Join(TypeNames(q.typename), ','));
    if |q.featureid| > 0 {
      request.SetFeatureId(q.featureid);
    } else if |q.bbox| > 0 {
      request.SetBBox(q.bbox);
    } else if q.filter != "" {
      request.SetFilter(q.filter);
    }
    assert request.calls == [CreateQuery(Join(TypeNames(q.typename), ','))] + SelectorCalls(q);
    SetOptions(q, request);
    return Ok((base, PostDocument(request.Document())));
  }

  /** The optional setters, in source order. */
  method SetOptions(q: GetFeatureQuery, request: PostRequest200)
    modifies request
    ensures request.calls == old(request.calls) + OptionCalls(q)
  {
    ghost var head := request.calls;
    if q.maxfeatures != 0 {
      request.SetMaxFeatures(q.maxfeatures);
    }
    ghost var c1 := request.calls;
    assert c1 == head + MaxFeaturesCall(q);
    if q.outputFormat.Some? && q.outputFormat.value != "" {
      request.SetOutputFormat(q.outputFormat.value);
    }
    ghost var c2 := request.calls;
    assert c2 == c1 + OutputFormatCall(q);
    if q.startindex != 0 {
      request.SetStartIndex(q.startindex);
    }
    ghost var c3 := request.calls;
    assert c3 == c2 + StartIndexCall(q);
    if |q.propertyname| > 0 {
      request.SetPropertyName(q.propertyname);
    }
    ghost var c4 := request.calls;
    assert c4 == c3 + PropertyNameCall(q);
    if |q.sortby| > 0 {
      request.SetSortBy(q.sortby);
    }
    assert request.calls == c4 + SortByCall(q);
    ConcatFive(head, MaxFeaturesCall(q), OutputFormatCall(q), StartIndexCall(q), PropertyNameCall(q), SortByCall(q));
  }

  lemma ConcatFive<T>(h: seq<T>, a: seq<T>, b: seq<T>, c: seq<T>, d: seq<T>, e: seq<T>)
    ensures h + a + b + c + d + e == h + (a + b + c + d + e)
  {
  }
}

module FeaturePostProperties {
  import opened Wrappers
  import opened Strings
  import opened Capabilities
  import opened KvpParams
  import opened PostRequest
  import opened Feature
  import opened FeatureGet
  import opened FeaturePost

  /** The position of each setter in the order the builder is driven; the three selectors share one. */
  function Rank(c: Call): nat
  {
    match c
    case CreateQuery(_) => 0
    case SetFeatureId(_) => 1
    case SetBBox(_) => 1
    case SetFilter(_) => 1
    case SetMaxFeatures(_) => 2
    case SetOutputFormat(_) => 3
    case SetStartIndex(_) => 4
    case SetPropertyName(_) => 5
    case SetSortBy(_) => 6
  }

  /** Ranks strictly increase along the calls. */
  predicate Ascending(calls: seq<Call>)
  {
    forall i, j :: 0 <= i < j < |calls| ==> Rank(calls[i]) < Rank(calls[j])
  }

  predicate RanksBelow(calls: seq<Call>, n: nat)
  {
    forall i :: 0 <= i < |calls| ==> Rank(calls[i]) < n
  }

  /** Appending at most one call of rank `n` after calls ranked below `n` keeps the ranks ascending. */
  lemma AscendingAppend(a: seq<Call>, c: seq<Call>, n: nat)
    requires Ascending(a) && RanksBelow(a, n)
    requires |c| <= 1 && (|c| == 1 ==> Rank(c[0]) == n)
    ensures Ascending(a + c) && RanksBelow(a + c, n + 1)
  {
    forall i, j | 0 <= i < j < |a + c|
      ensures Rank((a + c)[i]) < Rank((a + c)[j])
    {
      if j >= |a| {
        assert (a + c)[j] == c[0];
        assert (a + c)[i] == a[i];
      } else {
        assert (a + c)[i] == a[i] && (a + c)[j] == a[j];
      }
    }
  }

  /** A call of each rank is in the list only where its segment puts it. */
  lemma PostCallsRanked(q: GetFeatureQuery)
    ensures PostCalls(q) == [CreateQuery(Join(TypeNames(q.typename), ','))] + SelectorCalls(q)
      + MaxFeaturesCall(q) + OutputFormatCall(q) + StartIndexCall(q) + PropertyNameCall(q) + SortByCall(q)
  {
    ConcatFive([CreateQuery(Join(TypeNames(q.typename), ','))] + SelectorCalls(q),
      MaxFeaturesCall(q), OutputFormatCall(q), StartIndexCall(q), PropertyNameCall(q), SortByCall(q));
  }

  /** The calls come in strictly increasing rank: the query is created first,
      at most one selector is set, and no setter is called twice. */
  lemma PostCallsOrdered(q: GetFeatureQuery)
    ensures PostCalls(q)[0] == CreateQuery(Join(TypeNames(q.typename), ','))
    ensures Ascending(PostCalls(q))
  {
    var c := [CreateQuery(Join(TypeNames(q.typename), ','))];
    var p1 := c + SelectorCalls(q);
    assert Ascending(p1) && RanksBelow(p1, 2) by {
      AscendingAppend([], c, 0);
      assert [] + c == c;
      AscendingAppend(c, SelectorCalls(q), 1);
    }
    var p2 := p1 + MaxFeaturesCall(q);
    assert Ascending(p2) && RanksBelow(p2, 3) by {
      AscendingAppend(p1, MaxFeaturesCall(q), 2);
    }
    var p3 := p2 + OutputFormatCall(q);
    assert Ascending(p3) && RanksBelow(p3, 4) by {
      AscendingAppend(p2, OutputFormatCall(q), 3);
    }
    var p4 := p3 + StartIndexCall(q);
    assert Ascending(p4) && RanksBelow(p4, 5) by {
      AscendingAppend(p3, StartIndexCall(q), 4);
    }
    var p5 := p4 + PropertyNameCall(q);
    assert Ascending(p5) && RanksBelow(p5, 6) by {
      AscendingAppend(p4, PropertyNameCall(q), 5);
    }
    assert Ascending(p5 + SortByCall(q)) by {
      AscendingAppend(p5, SortByCall(q), 6);
    }
    ConcatFive(c + SelectorCalls(q), MaxFeaturesCall(q), OutputFormatCall(q), StartIndexCall(q), PropertyNameCall(q), SortByCall(q));
  }

  /** The builder is asked for the feature ids, else the bounding box as given,
      else the filter: exactly one of them when any is given. */
  lemma PostSelectorPrecedence(q: GetFeatureQuery)
    ensures var calls := PostCalls(q);
      && (forall ids :: SetFeatureId(ids) in calls <==> |q.featureid| > 0 && ids == q.featureid)
      && (forall b :: SetBBox(b) in calls <==> |q.featureid| == 0 && |q.bbox| > 0 && b == q.bbox)
      && (forall f :: SetFilter(f) in calls <==> |q.featureid| == 0 && |q.bbox| == 0 && q.filter != "" && f == q.filter)
  {
    PostCallsRanked(q);
  }

  /** maxfeatures and outputFormat reach the builder exactly when truthy, with the caller's argument. */
  lemma PostLimitAndFormatSetters(q: GetFeatureQuery)
    ensures var calls := PostCalls(q);
      && (forall n :: SetMaxFeatures(n) in calls <==> q.maxfeatures != 0 && n == q.maxfeatures)
      && (forall f :: SetOutputFormat(f) in calls <==> q.outputFormat == Some(f) && f != "")
  {
    PostCallsRanked(q);
  }

  /** startindex, propertyname and sortby reach the builder exactly when truthy, with the caller's argument. */
  lemma PostPagingAndSortSetters(q: GetFeatureQuery)
    ensures var calls := PostCalls(q);
      && (forall n :: SetStartIndex(n) in calls <==> q.startindex != 0 && n == q.startindex)
      && (forall ns :: SetPropertyName(ns) in calls <==> |q.propertyname| > 0 && ns == q.propertyname)
      && (forall ns :: SetSortBy(ns) in calls <==> |q.sortby| > 0 && ns == q.sortby)
  {
    PostCallsRanked(q);
  }

  /** featureversion and the stored query are never handed to the builder. */
  lemma PostIgnoresGetOnlyArguments(svc: Service, q: GetFeatureQuery)
    ensures PostRequestSpec(svc, q) ==
      PostRequestSpec(svc, q.(featureversion := "", storedQueryID := "", storedQueryParams := []))
  {
    var q' := q.(featureversion := "", storedQueryID := "", storedQueryParams := []);
    assert SelectorCalls(q') == SelectorCalls(q);
    assert OptionCalls(q') == OptionCalls(q);
    assert PostCalls(q') == PostCalls(q);
  }

  /** An empty outputFormat is not sent by POST, which tests it for truth
      (GET, which tests it against None, sends it: `GetOutputFormatParam`). */
  lemma PostSkipsEmptyOutputFormat(svc: Service, q: GetFeatureQuery)
    requires q.outputFormat == Some("")
    ensures PostRequestSpec(svc, q) == PostRequestSpec(svc, q.(outputFormat := None))
  {
    var q' := q.(outputFormat := None);
    assert OutputFormatCall(q') == OutputFormatCall(q) == [];
    assert PostCalls(q') == PostCalls(q);
  }

  /** GET and POST use the same endpoint: the POST URL is the GET URL's base without its `?`. */
  lemma PostAndGetShareEndpoint(svc: Service, q: GetFeatureQuery, quote: string -> string)
    ensures var post := PostRequestSpec(svc, q);
      var get := GetRequestUrl(svc, q, quote);
      post.Ok? && get.Ok? ==> post.value.0 + "?" <= get.value
  {
    var e := Endpoint(svc.getFeatureMethods, q.methodType);
    if PostRequestSpec(svc, q).Ok? && GetRequestUrl(svc, q, quote).Ok? {
      assert PostRequestSpec(svc, q).value.0 == PostBaseUrl(e.value);
      assert GetRequestUrl(svc, q, quote).value == GetBaseUrl(e.value) + Encode(GetParams(svc, q).value, quote);
    }
  }

  /** GET and POST both raise StopIteration exactly when no method matches. */
  lemma PostAndGetMissMethodAlike(svc: Service, q: GetFeatureQuery, quote: string -> string)
    ensures var kind := q.methodType;
      && (PostRequestSpec(svc, q) == Err(NoMatchingMethod(kind)) <==> Endpoint(svc.getFeatureMethods, kind).Err?)
      && (GetRequestUrl(svc, q, quote) == Err(NoMatchingMethod(kind)) <==> Endpoint(svc.getFeatureMethods, kind).Err?)
  {
    GetParamsNeverMissMethod(svc, q);
  }

  /** Building the GET dictionary never fails for want of a method. */
  lemma GetParamsNeverMissMethod(svc: Service, q: GetFeatureQuery)
    ensures GetParams(svc, q).Err? ==> !GetParams(svc, q).error.NoMatchingMethod?
  {
  }
}
