/** The request parameter dictionary of a KVP GetFeature request and its
    URL encoding (`urlencode(request, doseq=True)`). */
module KvpParams {
  import opened Wrappers
  import opened Strings

  /** A parameter value: a string, or a list whose items each repeat the key. */
  datatype Value = Text(s: string) | Items(items: seq<string>)

  /** An insertion-ordered dictionary, as a Python dict keeps its keys. */
  type Params = seq<(string, Value)>

  function Keys(m: Params): seq<string>
  {
    if m == [] then [] else [m[0].0] + Keys(m[1..])
  }

  /** `m.get(k)`. */
  function Lookup(m: Params, k: string): (r: Option<Value>)
    ensures r.Some? <==> k in Keys(m)
  {
    if m == [] then None else if m[0].0 == k then Some(m[0].1) else Lookup(m[1..], k)
  }

  predicate DistinctKeys(m: Params)
  {
    forall i, j :: 0 <= i < j < |Keys(m)| ==> Keys(m)[i] != Keys(m)[j]
  }

  /** `m[k] = v`: an existing key keeps its position and takes the new value,
      a new key goes at the end. */
  function Upsert(m: Params, k: string, v: Value): (r: Params)
    ensures Keys(r) == if k in Keys(m) then Keys(m) else Keys(m) + [k]
  {
    if m == [] then [(k, v)]
    else if m[0].0 == k then [(k, v)] + m[1..]
    else [m[0]] + Upsert(m[1..], k, v)
  }

  /** A new key is appended: a dictionary keeps its insertion order. */
  lemma {:induction false} UpsertNewKey(m: Params, k: string, v: Value)
    requires k !in Keys(m)
    ensures Upsert(m, k, v) == m + [(k, v)]
  {
    if m != [] {
      UpsertNewKey(m[1..], k, v);
      assert [m[0]] + m[1..] == m;
    }
  }

  /** After `m[k] = v`, `k` holds `v` and every other key what it held before. */
  lemma {:induction false} LookupUpsert(m: Params, k: string, v: Value, k': string)
    ensures Lookup(Upsert(m, k, v), k') == if k' == k then Some(v) else Lookup(m, k')
  {
    if m != [] && m[0].0 != k {
      LookupUpsert(m[1..], k, v, k');
      assert ([m[0]] + Upsert(m[1..], k, v))[1..] == Upsert(m[1..], k, v);
    }
  }

  /** Writing a key keeps the keys distinct, as in a dictionary. */
  lemma UpsertKeepsDistinct(m: Params, k: string, v: Value)
    requires DistinctKeys(m)
    ensures DistinctKeys(Upsert(m, k, v))
  {
  }

  /** The value the last pair for `k` in `ps` carries. */
  function LastLookup(ps: seq<(string, Value)>, k: string): Option<Value>
  {
    if ps == [] then None
    else if ps[|ps| - 1].0 == k then Some(ps[|ps| - 1].1)
    else LastLookup(ps[..|ps| - 1], k)
  }

  /** `for key in ps: m[key] = ps[key]`. */
  function Merge(m: Params, ps: seq<(string, Value)>): (r: Params)
    ensures Keys(m) <= Keys(r)
  {
    if ps == [] then m
    else Upsert(Merge(m, ps[..|ps| - 1]), ps[|ps| - 1].0, ps[|ps| - 1].1)
  }

  /** After the merge a key holds its last merged value, or else what it held before. */
  lemma {:induction false} LookupMerge(m: Params, ps: seq<(string, Value)>, k: string)
    ensures Lookup(Merge(m, ps), k) == if LastLookup(ps, k).Some? then LastLookup(ps, k) else Lookup(m, k)
  {
    if ps != [] {
      LookupMerge(m, ps[..|ps| - 1], k);
      LookupUpsert(Merge(m, ps[..|ps| - 1]), ps[|ps| - 1].0, ps[|ps| - 1].1, k);
    }
  }

  /** The `key=value` pieces one entry contributes; a list repeats the key. */
  function EntryPairs(e: (string, Value), quote: string -> string): seq<string>
  {
    match e.1
    case Text(s) => [quote(e.0) + "=" + quote(s)]
    case Items(xs) => seq(|xs|, i requires 0 <= i < |xs| => quote(e.0) + "=" + quote(xs[i]))
  }

  function Pairs(m: Params, quote: string -> string): seq<string>
  {
    if m == [] then [] else EntryPairs(m[0], quote) + Pairs(m[1..], quote)
  }

  /** `urlencode(m, doseq=True)`; the percent-escaping is the parameter `quote`. */
  function Encode(m: Params, quote: string -> string): string
  {
    Join(Pairs(m, quote), '&')
  }

  /** With only string values, the encoding holds one `key=value` piece per entry, in dictionary order. */
  lemma {:induction false} PairsOfTextParams(m: Params, quote: string -> string)
    requires forall i :: 0 <= i < |m| ==> m[i].1.Text?
    ensures |Pairs(m, quote)| == |m|
    ensures forall i :: 0 <= i < |m| ==> Pairs(m, quote)[i] == quote(m[i].0) + "=" + quote(m[i].1.s)
  {
    if m != [] {
      PairsOfTextParams(m[1..], quote);
    }
  }

  lemma {:induction false} PairsAmpersandFree(m: Params, quote: string -> string)
    requires forall s :: '&' !in quote(s)
    ensures forall i :: 0 <= i < |Pairs(m, quote)| ==> '&' !in Pairs(m, quote)[i]
  {
    if m != [] {
      PairsAmpersandFree(m[1..], quote);
      var head := EntryPairs(m[0], quote);
      forall i | 0 <= i < |head| ensures '&' !in head[i] {
        var s := if m[0].1.Text? then m[0].1.s else m[0].1.items[i];
        assert head[i] == quote(m[0].0) + "=" + quote(s);
      }
    }
  }

  /** When escaping leaves no `&`, the query string splits back into its
      `key=value` pieces, in dictionary order. */
  lemma EncodeSplitsIntoPairs(m: Params, quote: string -> string)
    requires forall s :: '&' !in quote(s)
    requires |Pairs(m, quote)| >= 1
    ensures Split(Encode(m, quote), '&') == Pairs(m, quote)
  {
    PairsAmpersandFree(m, quote);
    SplitJoin(Pairs(m, quote), '&');
  }

  /** The mutable request dictionary the client fills in step by step. */
  class ParamMap {
    var entries: Params

    ghost predicate Valid()
      reads this
    {
      DistinctKeys(entries)
    }

    constructor (initial: Params)
      requires DistinctKeys(initial)
      ensures Valid() && entries == initial
    {
      entries := initial;
    }

    /** `request[k] = v`. */
    method Set(k: string, v: Value)
      requires Valid()
      modifies this
      ensures Valid() && entries == Upsert(old(entries), k, v)
    {
      UpsertKeepsDistinct(entries, k, v);
      entries := Upsert(entries, k, v);
    }
  }
}
