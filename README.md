# GetFeature request building of the OWSLib WFS client, in Dafny

This project models the request-building half of OWSLib's Web Feature Service
client, `WebFeatureService_` in `owslib/feature/__init__.py`. It covers the
GetFeature operation of OGC WFS 1.0.0, 1.1.0 and 2.0.0 (clause 9 of OGC 04-094,
clause 11 of OGC 09-025).

- `getBBOXKVP` formats a bounding box for a KVP (HTTP GET) request. It picks a
  CRS, swaps the axes for a "yx" URN CRS under 1.1.0 and 2.0.0, and writes the
  CRS in URN or plain form. It is modelled as the pure function `Feature.BBoxKvp`.
- `getSRS` looks a requested CRS up among a feature type's declared options.
  It is modelled as the pure function `Feature.GetSrs`.
- `create_post_request` is the method `Feature.CreatePostRequest`. It returns
  a fresh builder for "2.0" and "2.0.0", and `null` otherwise.
- `getGETGetFeatureRequest` fills an insertion-ordered dictionary key by key,
  then URL-encodes it onto an endpoint that ends in `?`.
  - The dictionary is the class `KvpParams.ParamMap`. A Python dict assignment
    is its method `Set`, which keeps a replaced key in its place.
  - The request is built by the method `FeatureGet.GetGetFeatureRequest`. It
    does its work through one method per block of the source, and the
    stored-query loop becomes `FeatureGet.MergeInto`.
  - Each block is proved against a stage function: `WithSelector`,
    `WithTypeNames` and so on, composed in `FeatureGet.GetParamsWith`.
  - Line 182 passes the type name to `getBBOXKVP` before lines 186-188 wrap a
    single string in a list (see "## Findings"). `GetParamsWith` therefore
    takes the list the bbox's default CRS is looked up in as an argument.
    `FeatureGet.GetParamsAsWritten` passes the unwrapped argument, as the code
    is written. `FeatureGet.GetParams` passes the wrapped list, which is the
    corrected behaviour. The methods and the properties in
    `FeatureGetProperties` are stated for the corrected `GetParams`.
    `FeatureGetProperties.GetParamsAsWrittenAgrees` shows that the two differ
    only for a bbox of other than five values, no featureid, and a single
    string type name that is not one character long.
  - What the dictionary then holds is proved key by key in
    `FeatureGetProperties`.
- `getPOSTGetFeatureRequest` finds the same endpoint and strips one trailing
  `?`. It returns a filter on its own as the body, or it drives a
  `PostRequest.PostRequest200` builder through its setters. The builder's state
  is the list of setter calls made on it. The request is built by the method
  `FeaturePost.GetPostGetFeatureRequest`, which is proved against
  `FeaturePost.PostRequestSpec`.

The exceptions the source raises are modelled as `Err` values of
`Feature.Error`. The source catches none of them except the `ValueError` in
`getSRS`. The modelled exceptions are:
- `KeyError` on an unknown type name;
- `IndexError` on a short bounding box or an empty option list;
- `StopIteration` when no method matches;
- `ValueError` from `int()` on the version;
- `AttributeError` on the `None` builder;
- `MissingTypeName`, for every way of indexing or naming a type name that is
  not there: the `IndexError` of `[][0]` or `""[0]` and the `TypeError` of
  `None[0]` at line 42, and the `UnboundLocalError` on `typenames` at line 294.

An argument the caller leaves out is `""`, `[]` or `0`. The source treats
these exactly like `None`, except for `outputFormat` in GET, which it compares
with `None`. There `outputFormat` is an `Option`.

The `method` argument has the default "Get" in GET (line 128) and "Post" in
POST (line 228). The model has no defaults: `GetFeatureQuery.methodType` is
always given, and a caller who relies on the default passes that string.

Three things come in as parameters:
- The service state: `version`, `contents` (type name to declared CRS
  options), the GetFeature methods, and `parseCrs`, which stands for the
  `Crs(...)` constructor.
- The percent-escaping of `urlencode`, as a function `quote`.
- CRS equality, which is decided by the URN form (`Capabilities.SameCrs`).

Files:
- `wrappers.dfy`: `Option` and `Result`.
- `strings.dfy`: `join`, `split`, `lower` and decimal conversion.
- `capabilities.dfy`: `Crs`, `Method` and `Service`.
- `kvp_params.dfy`: the dictionary and `urlencode`.
- `post_request.dfy`: the POST builder.
- `feature.dfy`: `getBBOXKVP`, `getSRS`, the endpoints and `create_post_request`.
- `feature_get.dfy`: GET.
- `feature_post.dfy`: POST.

## Model

| member | source | states |
|---|---|---|
| Feature.TypeNames | owslib/feature/__init__.py:185-188 | a single string type name becomes a one-element list, and a list stays as it is; truthy type names give a non-empty list |
| Feature.BBoxTypeNamesAsWritten | owslib/feature/__init__.py:182 | as written, a string type name reaches `getBBOXKVP` unwrapped, so `typename[0]` is its first character; a list reaches it as it is, and no type name gives no list |
| Feature.DefaultCrs | owslib/feature/__init__.py:40-42 | succeeds exactly when there is a first type name, it is declared, and it has an option; the result is that type's first declared CRS option |
| Feature.BBoxTokens | owslib/feature/__init__.py:44-81 | five tokens; the coordinates are swapped to (1,0,3,2) exactly for version 1.1.0/2.0.0 with a "urn" encoding and "yx" axis order, and are in order in every other case; the fifth token is the URN form exactly for 1.1.0/2.0.0 with a "urn" encoding, and the plain code otherwise |
| Feature.BBoxKvp | owslib/feature/__init__.py:25-81 | succeeds exactly when the CRS can be chosen and there are at least four coordinates; a CRS failure is passed on unchanged |
| Feature.BBoxKvpFiveTokens | owslib/feature/__init__.py:37-81 | splitting the written bbox at commas gives back exactly five tokens: the coordinates in the order above, then the code in the form above; the CRS is `Crs(bbox[4])` for a five-value bbox, and otherwise the first declared option of the first type name, which then exists |
| Feature.FirstIndex | owslib/feature/__init__.py:100 | the index of the first element satisfying the test, or none when no element does (the `list.index` search, and the `next(...)` search of `Feature.Endpoint`) |
| Feature.GetSrs | owslib/feature/__init__.py:88-114 | fails exactly for an undeclared type name; returns the first declared option equal to the requested CRS, in the server's own form; returns `None` only when no declared option is equal |
| Feature.Endpoint | owslib/feature/__init__.py:167-173 | fails (`StopIteration`) exactly when no GetFeature method's type matches case-insensitively; otherwise gives the URL of the first match |
| Feature.GetBaseUrl | owslib/feature/__init__.py:174 | the GET URL ends in `?`, extends the endpoint by at most that one character, and equals the endpoint when it already ends in `?` |
| Feature.PostBaseUrl | owslib/feature/__init__.py:282 | the POST URL is the endpoint with at most one trailing `?` removed, and adding `?` back gives the GET URL |
| Feature.CreatePostRequest | owslib/feature/__init__.py:83-86 | returns a fresh, empty builder exactly for versions "2.0" and "2.0.0", and `null` otherwise |
| KvpParams.Lookup | owslib/feature/__init__.py:208-209 | a key has a value exactly when it is among the dictionary's keys |
| KvpParams.Upsert | owslib/feature/__init__.py:180 | `d[k] = v` keeps the key order when `k` is already present, and appends `k` otherwise |
| KvpParams.UpsertNewKey | owslib/feature/__init__.py:180 | a new key and its value are appended at the end |
| KvpParams.LookupUpsert | owslib/feature/__init__.py:180 | after `d[k] = v`, `k` holds `v` and every other key holds what it held before |
| KvpParams.UpsertKeepsDistinct | owslib/feature/__init__.py:176-211 | assignments keep the dictionary's keys distinct |
| KvpParams.Merge | owslib/feature/__init__.py:208-209 | merging stored-query parameters never removes a key and keeps the existing keys in their order |
| KvpParams.LookupMerge | owslib/feature/__init__.py:208-209 | after the merge, a key holds the last merged value of that name if there is one, and otherwise its earlier value |
| KvpParams.PairsOfTextParams | owslib/feature/__init__.py:213 | with string values, the encoding has one `key=value` piece per entry, in dictionary order |
| KvpParams.PairsAmpersandFree | owslib/feature/__init__.py:213 | when escaping removes `&`, no encoded piece holds an `&` |
| KvpParams.EncodeSplitsIntoPairs | owslib/feature/__init__.py:213 | splitting the query string at `&` gives back exactly the encoded pieces |
| KvpParams.ParamMap.constructor | owslib/feature/__init__.py:176 | the dictionary holds exactly its initial entries |
| KvpParams.ParamMap.Set | owslib/feature/__init__.py:180 | `d[k] = v`: the entries become the upsert of the old entries, and the keys stay distinct |
| PostRequest.PostRequest200.constructor | owslib/feature/__init__.py:86 | a new builder has had no calls made on it |
| PostRequest.PostRequest200.CreateQuery | owslib/feature/__init__.py:294 | records `create_query(typenames)` after the earlier calls |
| PostRequest.PostRequest200.SetFeatureId | owslib/feature/__init__.py:296-297 | records `set_featureid(ids)` after the earlier calls |
| PostRequest.PostRequest200.SetBBox | owslib/feature/__init__.py:298-299 | records `set_bbox(bbox)` after the earlier calls |
| PostRequest.PostRequest200.SetFilter | owslib/feature/__init__.py:300-301 | records `set_filter(filter)` after the earlier calls |
| PostRequest.PostRequest200.SetMaxFeatures | owslib/feature/__init__.py:303-304 | records `set_maxfeatures(n)` after the earlier calls |
| PostRequest.PostRequest200.SetOutputFormat | owslib/feature/__init__.py:305-306 | records `set_outputformat(f)` after the earlier calls |
| PostRequest.PostRequest200.SetStartIndex | owslib/feature/__init__.py:307-308 | records `set_startindex(n)` after the earlier calls |
| PostRequest.PostRequest200.SetPropertyName | owslib/feature/__init__.py:309-310 | records `set_propertyname(names)` after the earlier calls |
| PostRequest.PostRequest200.SetSortBy | owslib/feature/__init__.py:311-312 | records `set_sortby(names)` after the earlier calls |
| FeatureGet.BaseParams | owslib/feature/__init__.py:176 | the dictionary starts as exactly service=WFS, version=the client's version, request=GetFeature, in that order, with distinct keys |
| FeatureGet.MajorVersionOfNumber | owslib/feature/__init__.py:189 | a version that is a decimal number `n`, alone or followed by a dot and anything, has major version `n` |
| FeatureGet.WithSelector | owslib/feature/__init__.py:179-184 | the selector stage fails exactly when there is no featureid, a bbox is given and it cannot be formatted, with the formatting error; otherwise it keeps the earlier keys as a prefix |
| FeatureGet.WithTypeNames | owslib/feature/__init__.py:185-192 | the type-name stage fails exactly when type names are given and the major version does not parse, with `ValueError`; otherwise it keeps the earlier keys as a prefix |
| FeatureGet.WithListParams | owslib/feature/__init__.py:193-198 | the propertyname/sortby/featureversion stage keeps the earlier keys as a prefix |
| FeatureGet.WithMaxFeatures | owslib/feature/__init__.py:199-203 | the feature-limit stage fails exactly when a limit is given and the major version does not parse, with `ValueError`; otherwise it keeps the earlier keys as a prefix |
| FeatureGet.WithStartIndex | owslib/feature/__init__.py:204-205 | the startindex stage keeps the earlier keys as a prefix |
| FeatureGet.WithStoredQuery | owslib/feature/__init__.py:206-209 | the stored-query stage, merge included, keeps the earlier keys as a prefix |
| FeatureGet.WithOutputFormat | owslib/feature/__init__.py:210-211 | the outputFormat stage keeps the earlier keys as a prefix |
| FeatureGet.GetParamsWith | owslib/feature/__init__.py:176-211 | every dictionary that is built starts with the keys service, version and request, in that order; building fails exactly when a needed bbox cannot be formatted, or when the version does not parse and a type name or limit needs it |
| FeatureGet.GetRequestUrl | owslib/feature/__init__.py:167-215 | the URL fails exactly when no method matches or the dictionary cannot be built, and otherwise begins with the endpoint and its one `?` |
| FeatureGet.MergeInto | owslib/feature/__init__.py:208-209 | the loop leaves the dictionary equal to the merge of the parameters into it, in their order, and keeps the keys distinct |
| FeatureGet.SetSelector | owslib/feature/__init__.py:179-184 | the new entries, or the error raised, are those of the selector stage applied to the old entries, with the bbox's default CRS taken from the wrapped type-name list |
| FeatureGet.SetTypeNames | owslib/feature/__init__.py:185-192 | the new entries, or the `ValueError`, are those of the type-name stage applied to the old entries |
| FeatureGet.SetListParams | owslib/feature/__init__.py:193-198 | the new entries are those of the propertyname/sortby/featureversion stage applied to the old entries |
| FeatureGet.SetMaxFeatures | owslib/feature/__init__.py:199-203 | the new entries, or the `ValueError`, are those of the feature-limit stage applied to the old entries |
| FeatureGet.SetTrailingParams | owslib/feature/__init__.py:204-211 | the new entries are those of the startindex, stored-query and outputFormat stages applied to the old entries |
| FeatureGet.GetGetFeatureRequest | owslib/feature/__init__.py:116-215 | the URL, or the exception, is that of `GetRequestUrl`: the GET endpoint, then the encoded dictionary, with the bbox's default CRS taken from the wrapped type-name list |
| FeatureGetProperties.VersionKey | owslib/feature/__init__.py:189-192 | the key name is the new name when the major version parses and is at least 2, and the old name exactly when it does not parse or is below 2 |
| FeatureGetProperties.BaseLookup | owslib/feature/__init__.py:176 | the initial dictionary holds exactly service, version and request, with their values |
| FeatureGetProperties.SelectorLookup | owslib/feature/__init__.py:179-184 | after the selector stage, each key holds its value from that stage, or what it held before |
| FeatureGetProperties.TypeNamesLookup | owslib/feature/__init__.py:185-192 | the same for the type-name stage |
| FeatureGetProperties.ListParamsLookup | owslib/feature/__init__.py:193-198 | the same for propertyname, sortby and featureversion |
| FeatureGetProperties.MaxFeaturesLookup | owslib/feature/__init__.py:199-203 | the same for the feature limit |
| FeatureGetProperties.TrailingLookup | owslib/feature/__init__.py:204-211 | the same for startindex, the merged stored query and outputFormat |
| FeatureGetProperties.GetParamsLookup | owslib/feature/__init__.py:176-211 | each key of the finished dictionary holds the value obtained by passing it through every stage in order |
| FeatureGetProperties.GetServiceParams | owslib/feature/__init__.py:176-209 | service, version and request hold WFS, the client's version and GetFeature, unless a stored-query parameter of that name replaced the value |
| FeatureGetProperties.GetSelectorPrecedence | owslib/feature/__init__.py:179-184 | featureid is encoded when given; bbox is encoded exactly when there is no featureid and is given, as the bbox formatted in the default CRS of the wrapped type-name list; query is encoded exactly when neither is given and a filter is; no two of the three appear together |
| FeatureGetProperties.GetVersionKeyNames | owslib/feature/__init__.py:185-203 | for major version 2 and later the keys are typenames/count, before that typename/maxfeatures; each holds the comma-joined names or the limit only when given; the two forms never appear together; a version that does not parse fails whenever a name or limit is given |
| FeatureGetProperties.GetPropertyNameParam | owslib/feature/__init__.py:193-194 | propertyname is present only when given, comma-joined |
| FeatureGetProperties.GetSortByParam | owslib/feature/__init__.py:195-196 | sortby is present only when given, comma-joined |
| FeatureGetProperties.GetFeatureVersionParam | owslib/feature/__init__.py:197-198 | featureversion is present only when given |
| FeatureGetProperties.GetStartIndexParam | owslib/feature/__init__.py:204-205 | startindex is present only when non-zero, in decimal |
| FeatureGetProperties.GetStoredQueryIdParam | owslib/feature/__init__.py:206-207 | storedQuery_id is present only for a stored query |
| FeatureGetProperties.GetOutputFormatParam | owslib/feature/__init__.py:210-211 | outputFormat is present whenever it is not `None`, even when empty, and it overrides a stored-query parameter of that name |
| FeatureGetProperties.GetStoredQueryOverrides | owslib/feature/__init__.py:206-209 | a merged stored-query parameter replaces any built-in value of the same key; with no stored query there is no storedQuery_id |
| FeatureGetProperties.BBoxAsWrittenLooksUpFirstLetter | owslib/feature/__init__.py:182 | a four-value bbox and the type name "roads" look up the undeclared type "r" as written, while the corrected lookup of "roads" succeeds |
| FeatureGetProperties.GetParamsAsWrittenLooksUpFirstLetter | owslib/feature/__init__.py:179-192 | as written, a query for the string type name "roads" with a four-value bbox and no featureid fails with `KeyError` on "r" when only "roads" is declared, while the corrected dictionary is built |
| FeatureGetProperties.GetParamsAsWrittenAgrees | owslib/feature/__init__.py:179-188 | the code as written and the corrected model build the same dictionary when a featureid is given, no bbox, a five-value bbox, a type-name list, no type name, or a one-letter type name |
| FeatureGetProperties.GetBBoxDefaultCrsOfNamedType | owslib/feature/__init__.py:182-188 | corrected: a four-value bbox with a type name given as one string is written in the first CRS that the named type declares |
| FeatureGetProperties.MajorVersionExample | owslib/feature/__init__.py:189 | `int("2.0.0".split(".")[0])` is 2 |
| FeatureGetProperties.TypeNamesStageExample | owslib/feature/__init__.py:185-190 | under 2.0.0 the type name "roads" is appended as `typenames` |
| FeatureGetProperties.GetParamsExample | owslib/feature/__init__.py:176-211 | under 2.0.0, a query for "roads" alone gives service, version, request and typenames, in that order |
| FeatureGetProperties.GetEndpointExample | owslib/feature/__init__.py:167-173 | a method of type "Get" matches the default "GET" |
| FeatureGetProperties.GetRequestExample | owslib/feature/__init__.py:116-215 | that query's URL is the endpoint, one `?`, then the encoded dictionary |
| FeaturePost.GetPostGetFeatureRequest | owslib/feature/__init__.py:267-316 | the URL and body, or the exception, are those of `PostRequestSpec` |
| FeaturePost.PostRequestSpec | owslib/feature/__init__.py:275-316 | there is no endpoint exactly when no method matches; the URL is the stripped endpoint; the filter alone is returned exactly when there is no type name but there is a filter; a document of exactly the `PostCalls` is built exactly when type names are given under 2.0 or 2.0.0; the `AttributeError` and `UnboundLocalError` cases are both characterised |
| FeaturePost.SetOptions | owslib/feature/__init__.py:303-312 | appends exactly the optional setter calls for the truthy arguments, in source order |
| FeaturePostProperties.AscendingAppend | owslib/feature/__init__.py:293-312 | appending one call of the next rank keeps the setter ranks strictly increasing |
| FeaturePostProperties.PostCallsOrdered | owslib/feature/__init__.py:293-312 | create_query comes first and the setter ranks strictly increase, so at most one selector is set and no setter is called twice |
| FeaturePostProperties.PostSelectorPrecedence | owslib/feature/__init__.py:296-301 | the builder gets the feature ids when given, else the raw bbox when given, else the filter when given, with the caller's argument |
| FeaturePostProperties.PostLimitAndFormatSetters | owslib/feature/__init__.py:303-306 | set_maxfeatures and set_outputformat are called exactly for a truthy argument, with that argument |
| FeaturePostProperties.PostPagingAndSortSetters | owslib/feature/__init__.py:307-312 | set_startindex, set_propertyname and set_sortby are called exactly for a truthy argument, with that argument |
| FeaturePostProperties.PostIgnoresGetOnlyArguments | owslib/feature/__init__.py:267-273 | featureversion and the stored-query arguments do not change the POST request |
| FeaturePostProperties.PostSkipsEmptyOutputFormat | owslib/feature/__init__.py:305-306 | an empty outputFormat gives the same POST request as none at all |
| FeaturePostProperties.PostAndGetShareEndpoint | owslib/feature/__init__.py:275-282 | the POST URL plus `?` begins the GET URL |
| FeaturePostProperties.PostAndGetMissMethodAlike | owslib/feature/__init__.py:275-281 | GET and POST both raise `StopIteration` exactly when no GetFeature method matches |
| FeaturePostProperties.GetParamsNeverMissMethod | owslib/feature/__init__.py:176-211 | building the GET dictionary never raises `StopIteration` |
| Strings.Split | owslib/feature/__init__.py:189 | `split` gives at least one piece, no piece holds the separator, and joining the pieces with the separator gives the string back |
| Strings.SplitJoin | owslib/feature/__init__.py:190 | splitting a join gives back the parts when no part holds the separator |
| Strings.ParseNatToString | owslib/feature/__init__.py:189 | `int()` of the digits `str` writes for `n` is `n` again, so a version written from a number parses to it |

## Left out

- `get_schema` (lines 318-322) is left out. It is a network call into `owslib.feature.schema`, which is not part of this model.
- The constructor and `Authentication` are left out; they only store `auth`.
- The `log.warning` calls (lines 104-112 and 267-273) are left out because they do not change any result.
- Percent-escaping inside `urlencode` is the parameter `quote`. The model writes `quote(key)=quote(value)` joined with `&`, and a list value gives one pair per element (`doseq=True`).
- `Crs(...)` parsing is the parameter `Service.parseCrs`. CRS equality is `Capabilities.SameCrs`, which compares the URN forms. `owslib/crs.py` is not part of this model.
- The POST builder `PostRequest_2_0_0` and its `to_string()` are reduced to the list of setter calls. `owslib/feature/postrequest.py` and its XML are not part of this model.
- `getOperationByName` is reduced to the list of GetFeature methods held in `Service`.
- Strings.Lower: Python's `lower()` on all of Unicode is modelled for ASCII letters only.
- Strings.ParseNat: `int()` also accepts signs, surrounding whitespace and underscores. The model accepts only decimal digits, so a version number such as " 2" is a `BadVersion` here.
- Arguments that are `None` and arguments that are empty are treated as the same; the source treats them alike everywhere except `outputFormat` in GET, which stays an `Option`.
- Numbers and bounding-box values keep only the types the model gives them: bbox values are already-formatted strings (no `%s` formatting of floats), maxfeatures and startindex are integers, and the other arguments are strings or lists of strings.
- A type name given as some other iterable (a tuple, a generator) is modelled only as a list.
- `storedQueryParams` is a list of pairs in which a later pair wins. A Python dict is the case of distinct keys.
- The default values of the `method` argument ("Get" at line 128, "Post" at line 228) are left out: `GetFeatureQuery.methodType` is always given.
- FeatureGet.GetParams: follows the corrected lookup of line 182, in the wrapped type-name list; the code as written is `FeatureGet.GetParamsAsWritten` (see "## Findings").
- FeatureGet.GetGetFeatureRequest: returns the URL of the corrected `GetParams`, not of `GetParamsAsWritten`.
- FeatureGet.SetSelector: formats the bbox in the default CRS of the wrapped type-name list, not of `typename[0]` of the unwrapped argument.
- FeatureGetProperties.GetSelectorPrecedence: states the bbox of the corrected `GetParams`.
- The `ValueError` caught in `getSRS` is the only exception that is caught. The other exceptions are `Err` values, without Python's traceback or exception types.

## Findings

| source | as written | input that shows it | evidently intended | confidence | as-written member | corrected member |
|---|---|---|---|---|---|---|
| owslib/feature/__init__.py:182 | `getBBOXKVP(bbox, typename)` is called before lines 186-188 wrap a single string type name in a list, so at line 42 `typename[0]` is the name's first character | `typename="roads"`, a four-value bbox, and `contents` declaring only "roads": `contents["r"]` raises `KeyError` | the default CRS of the type named "roads", as for `typename=["roads"]` | not executed | FeatureGetProperties.GetParamsAsWrittenLooksUpFirstLetter | FeatureGetProperties.GetBBoxDefaultCrsOfNamedType |
