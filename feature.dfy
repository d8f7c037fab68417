/** The pure helpers of the WFS client: bounding-box formatting for KVP
    requests, CRS resolution against a feature type's declared options,
    GetFeature endpoint selection, and the choice of POST document builder. */
module Feature {
  import opened Wrappers
  import opened Strings
  import opened Capabilities
  import opened PostRequest
  import opened KvpParams

  /** The exceptions the request builders can raise. */
  datatype Error =
    | UnknownTypeName(name: string)  // KeyError on `contents[name]`
    | MissingTypeName                // no type name to index: IndexError on `[][0]` or `""[0]`, TypeError
                                     // on `None[0]`, or NameError on an unbound `typenames`
    | NoCrsOptions(name: string)     // IndexError on an empty `crsOptions`
    | BBoxTooShort                   // IndexError on a bounding box of fewer than four values
    | NoMatchingMethod(kind: string) // StopIteration: no GetFeature method of that type
    | BadVersion(version: string)    // ValueError from `int(version.split(".")[0])`
    | NoPostBuilder(version: string) // AttributeError on the `None` builder

  /** The `typename` argument of the request builders: absent (`None`), one
      name given as a string, or a list of names. */
  datatype TypeNameArg = NoTypeName | OneTypeName(name: string) | TypeNameList(names: seq<string>)

  /** Whether `typename` is truthy. */
  predicate TypeNamesGiven(t: TypeNameArg)
  {
    match t
    case NoTypeName => false
    case OneTypeName(s) => s != ""
    case TypeNameList(l) => |l| > 0
  }

  /** The list of names: a single string is treated as a one-element list. */
  function TypeNames(t: TypeNameArg): (r: seq<string>)
    ensures t.OneTypeName? ==> r == [t.name]
    ensures t.TypeNameList? ==> r == t.names
    ensures TypeNamesGiven(t) ==> |r| > 0
  {
    match t
    case NoTypeName => []
    case OneTypeName(s) => [s]
    case TypeNameList(l) => l
  }

  /** What `getBBOXKVP` indexes as line 182 is written: the builder passes
      `typename` before a single string is wrapped in a list, so `typename[0]`
      of a string is its first character, taken as a one-character name. */
  function BBoxTypeNamesAsWritten(t: TypeNameArg): (r: seq<string>)
    ensures t.OneTypeName? && t.name != "" ==> |r| > 0 && r[0] == t.name[..1]
    ensures t.TypeNameList? ==> r == t.names
    ensures !TypeNamesGiven(t) ==> r == []
  {
    match t
    case NoTypeName => []
    case OneTypeName(s) => seq(|s|, i requires 0 <= i < |s| => s[i..i + 1])
    case TypeNameList(l) => l
  }

  /** The arguments of a GetFeature request. An argument the caller leaves out
      is `""`, `[]` or `0`, which the builders treat exactly as they treat `None`;
      `outputFormat` keeps the difference, because the GET builder tests it
      against `None` rather than for truth. */
  datatype GetFeatureQuery = GetFeatureQuery(
    typename: TypeNameArg,
    filter: string,
    bbox: seq<string>,
    featureid: seq<string>,
    featureversion: string,
    propertyname: seq<string>,
    maxfeatures: int,
    storedQueryID: string,
    storedQueryParams: seq<(string, Value)>,
    outputFormat: Option<string>,
    methodType: string,
    startindex: int,
    sortby: seq<string>)

  /** The first index whose element satisfies `p`. */
  function FirstIndex<T>(s: seq<T>, p: T -> bool): (r: Option<nat>)
    ensures r.Some? ==> r.value < |s| && p(s[r.value]) && forall j :: 0 <= j < r.value ==> !p(s[j])
    ensures r.None? ==> forall j :: 0 <= j < |s| ==> !p(s[j])
  {
    if |s| == 0 then None
    else if p(s[0]) then Some(0)
    else match FirstIndex(s[1..], p)
      case None => None
      case Some(i) => Some(i + 1)
  }

  // ---------------------------------------------------------------- bbox

  /** The first CRS option declared for the first type name. */
  function DefaultCrs(svc: Service, typenames: seq<string>): (r: Result<Crs, Error>)
    ensures r.Ok? <==> |typenames| > 0 && typenames[0] in svc.contents && |svc.contents[typenames[0]]| > 0
    ensures r.Ok? ==> r.value == svc.contents[typenames[0]][0]
  {
    if |typenames| == 0 then Err(MissingTypeName)
    else if typenames[0] !in svc.contents then Err(UnknownTypeName(typenames[0]))
    else if |svc.contents[typenames[0]]| == 0 then Err(NoCrsOptions(typenames[0]))
    else Ok(svc.contents[typenames[0]][0])
  }

  /** The CRS a bounding box is expressed in: its fifth element when it has
      five, otherwise the default CRS of the first type name. */
  function BBoxCrs(svc: Service, bbox: seq<string>, typenames: seq<string>): (r: Result<Crs, Error>)
    ensures |bbox| == 5 ==> r == Ok(svc.parseCrs(bbox[4]))
    ensures |bbox| != 5 ==> r == DefaultCrs(svc, typenames)
  {
    if |bbox| == 5 then Ok(svc.parseCrs(bbox[4])) else DefaultCrs(svc, typenames)
  }

  /** Versions 1.1.0 and 2.0.0 share the URN-aware bounding-box encoding. */
  predicate UrnAwareVersion(version: string)
  {
    version == "1.1.0" || version == "2.0.0"
  }

  /** The coordinates go out as (miny, minx, maxy, maxx). */
  predicate SwapsAxes(version: string, crs: Crs)
  {
    UrnAwareVersion(version) && crs.encoding == "urn" && crs.axisorder == "yx"
  }

  /** The CRS goes out in its URN form rather than its plain code. */
  predicate WritesUrn(version: string, crs: Crs)
  {
    UrnAwareVersion(version) && crs.encoding == "urn"
  }

  /** The five tokens of a KVP bounding box, by the version / encoding / axis-order table. */
  function BBoxTokens(version: string, crs: Crs, bbox: seq<string>): (r: seq<string>)
    requires |bbox| >= 4
    ensures |r| == 5
    ensures r[..4] == if SwapsAxes(version, crs) then [bbox[1], bbox[0], bbox[3], bbox[2]] else bbox[..4]
    ensures r[4] == if WritesUrn(version, crs) then crs.codeurn else crs.code
  {
    if version in ["1.1.0", "2.0.0"] then
      if crs.encoding == "urn" then
        if crs.axisorder == "yx" then [bbox[1], bbox[0], bbox[3], bbox[2], crs.codeurn]
        else [bbox[0], bbox[1], bbox[2], bbox[3], crs.codeurn]
      else [bbox[0], bbox[1], bbox[2], bbox[3], crs.code]
    else [bbox[0], bbox[1], bbox[2], bbox[3], crs.code]
  }

  /** `getBBOXKVP(bbox, typename)`. */
  function BBoxKvp(svc: Service, bbox: seq<string>, typenames: seq<string>): (r: Result<string, Error>)
    ensures r.Ok? <==> BBoxCrs(svc, bbox, typenames).Ok? && |bbox| >= 4
    ensures r.Err? && BBoxCrs(svc, bbox, typenames).Err? ==> r.error == BBoxCrs(svc, bbox, typenames).error
  {
    var crs :- BBoxCrs(svc, bbox, typenames);
    if |bbox| < 4 then Err(BBoxTooShort)
    else Ok(Join(BBoxTokens(svc.version, crs, bbox), ','))
  }

  /** A KVP bounding box is exactly five comma-separated tokens: the four
      coordinates, swapped to (y, x) only for a "yx" URN CRS under 1.1.0 or
      2.0.0, then the CRS code, in URN form only for a URN CRS under those
      versions. The CRS is the box's fifth element, parsed, when it has five,
      and otherwise the first option declared for the first type name. */
  lemma BBoxKvpFiveTokens(svc: Service, bbox: seq<string>, typenames: seq<string>)
    requires BBoxKvp(svc, bbox, typenames).Ok?
    requires forall i :: 0 <= i < 4 ==> ',' !in bbox[i]
    requires ',' !in BBoxCrs(svc, bbox, typenames).value.code
    requires ',' !in BBoxCrs(svc, bbox, typenames).value.codeurn
    ensures |bbox| >= 4
    ensures |bbox| != 5 ==> |typenames| > 0 && typenames[0] in svc.contents && |svc.contents[typenames[0]]| > 0
    ensures var crs := if |bbox| == 5 then svc.parseCrs(bbox[4]) else svc.contents[typenames[0]][0];
            var tokens := Split(BBoxKvp(svc, bbox, typenames).value, ',');
            && |tokens| == 5
            && tokens[..4] == (if SwapsAxes(svc.version, crs) then [bbox[1], bbox[0], bbox[3], bbox[2]] else bbox[..4])
            && tokens[4] == (if WritesUrn(svc.version, crs) then crs.codeurn else crs.code)
  {
    var crs := BBoxCrs(svc, bbox, typenames).value;
    var ts := BBoxTokens(svc.version, crs, bbox);
    assert forall i :: 0 <= i < 5 ==> ',' !in ts[i] by {
      assert forall i :: 0 <= i < 4 ==> ts[i] == ts[..4][i];
    }
    SplitJoin(ts, ',');
  }

  // ---------------------------------------------------------------- CRS lookup

  /** The `srsname` argument of `getSRS`: a CRS name to parse, or a CRS object. */
  datatype SrsArg = SrsName(name: string) | SrsObject(crs: Crs)

  function RequestedCrs(svc: Service, srsname: SrsArg): Crs
  {
    match srsname
    case SrsName(n) => svc.parseCrs(n)
    case SrsObject(c) => c
  }

  /** `getSRS(srsname, typename)`: the first declared option equal to the
      requested CRS, as the server declared it; `None` (a warning, no
      exception) when the type declares no such option; KeyError for an
      unknown type name. */
  function GetSrs(svc: Service, srsname: SrsArg, typename: string): (r: Result<Option<Crs>, Error>)
    ensures r.Err? <==> typename !in svc.contents
    ensures r.Ok? && r.value.Some? ==>
      exists i :: 0 <= i < |svc.contents[typename]| && r.value.value == svc.contents[typename][i]
        && SameCrs(svc.contents[typename][i], RequestedCrs(svc, srsname))
        && forall j :: 0 <= j < i ==> !SameCrs(svc.contents[typename][j], RequestedCrs(svc, srsname))
    ensures r.Ok? && r.value.None? ==>
      forall c :: c in svc.contents[typename] ==> !SameCrs(c, RequestedCrs(svc, srsname))
  {
    var srs := RequestedCrs(svc, srsname);
    if typename !in svc.contents then Err(UnknownTypeName(typename))
    else
      var options := svc.contents[typename];
      match FirstIndex(options, (c: Crs) => SameCrs(c, srs))
      case Some(i) => Ok(Some(options[i]))
      case None => Ok(None)
  }

  // ---------------------------------------------------------------- endpoints

  predicate MethodMatches(m: Method, kind: string)
  {
    Lower(m.kind) == Lower(kind)
  }

  /** The URL of the first GetFeature method whose type matches `kind`
      case-insensitively; StopIteration when there is none. */
  function Endpoint(methods: seq<Method>, kind: string): (r: Result<string, Error>)
    ensures r.Err? <==> forall i :: 0 <= i < |methods| ==> !MethodMatches(methods[i], kind)
    ensures r.Err? ==> r.error == NoMatchingMethod(kind)
    ensures r.Ok? ==>
      exists i :: 0 <= i < |methods| && MethodMatches(methods[i], kind) && r.value == methods[i].url
        && forall j :: 0 <= j < i ==> !MethodMatches(methods[j], kind)
  {
    match FirstIndex(methods, (m: Method) => MethodMatches(m, kind))
    case Some(i) => Ok(methods[i].url)
    case None => Err(NoMatchingMethod(kind))
  }

  /** A GET endpoint ends in exactly the `?` it already had, or one appended. */
  function GetBaseUrl(url: string): (r: string)
    ensures EndsWith(r, '?') && url <= r && |r| <= |url| + 1
    ensures EndsWith(url, '?') ==> r == url
  {
    if EndsWith(url, '?') then url else url + "?"
  }

  /** A POST endpoint drops one trailing `?`; it is the GET endpoint without its `?`. */
  function PostBaseUrl(url: string): (r: string)
    ensures r <= url && |url| <= |r| + 1
    ensures !EndsWith(url, '?') ==> r == url
    ensures r + "?" == GetBaseUrl(url)
  {
    if EndsWith(url, '?') then url[..|url| - 1] else url
  }

  /** `create_post_request()`: a builder only for version "2.0" or "2.0.0", else `None`. */
  method CreatePostRequest(version: string) returns (r: PostRequest200?)
    ensures r != null <==> version == "2.0" || version == "2.0.0"
    ensures r != null ==> fresh(r) && r.calls == []
  {
    if version in ["2.0", "2.0.0"] {
      r := new PostRequest200();
    } else {
      r := null;
    }
  }
}
