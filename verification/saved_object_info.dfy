/** The saved-object type census: a terms aggregation over the `type` field is
    requested from the search backend, the bucket list is extracted from the
    untyped response by a short-circuiting chain of field reads, and every
    outcome is reduced to either that bucket value or a string. The search
    call itself is an input: its settled outcome is a `Transport` failure or a
    response `Body`. */
module SavedObjectInfo {
  import opened Fp
  import opened Json
  import Decimal

  /** A JavaScript `Error`, reduced to its message. */
  datatype Error = Error(message: string)

  /** How the awaited search call settled: rejected with a reason, or
      fulfilled with the decoded response body. */
  datatype Outcome<+E> = Transport(err: E) | Body(body: Json)

  /** The request handed to the search client. */
  datatype SearchRequest = SearchRequest(node: string, index: string, size: nat, body: Json)

  const DefaultIndex: string := ".kibana"
  const SearchErrorPrefix: string := "Error while searching for saved object types: "
  const BucketsPath: seq<string> := ["aggregations", "savedobjs", "buckets"]

  function MissingMessage(key: string): string
  {
    "Missing " + key
  }

  // ---------------------------------------------------------------------
  // Field extraction

  /** Reference notion of a usable field: `v` is an object whose member
      `key` exists and is not null. */
  predicate Present(v: Json, key: string)
  {
    v.Obj? && key in v.fields && !v.fields[key].Null?
  }

  /** `pluck(key)(obj)`: the member under `key`, or an error naming it. */
  function Pluck(key: string, v: Json): (r: Either<Error, Json>)
    ensures r.Right? <==> Present(v, key)
    ensures r.Right? ==> r.right == v.fields[key]
    ensures r.Left? ==> r.left == Error("Missing " + key)
  {
    FromNullable(Error(MissingMessage(key)), Member(v, key))
  }

  /** The curried form `pluck(key)` that `chain` consumes. */
  function Plucker(key: string): Json -> Either<Error, Json>
  {
    (v: Json) => Pluck(key, v)
  }

  /** Values JavaScript calls falsy are still plucked: only null and absence
      fail. */
  lemma PluckKeepsFalsyValues(key: string)
    ensures Pluck(key, Obj(map[key := Bool(false)])) == Right(Bool(false))
    ensures Pluck(key, Obj(map[key := Num(0)])) == Right(Num(0))
    ensures Pluck(key, Obj(map[key := Str("")])) == Right(Str(""))
    ensures Pluck(key, Obj(map[key := Null])) == Left(Error("Missing " + key))
    ensures Pluck(key, Obj(map[])) == Left(Error("Missing " + key))
  {
  }

  /** `pluck(path[0])` followed by `chain(pluck(path[i]))` for every later
      key, composed left to right exactly as `flow` composes them. */
  function PluckPath(path: seq<string>, v: Json): Either<Error, Json>
    decreases |path|
  {
    if |path| == 0 then Right(v)
    else PluckPath(path[..|path| - 1], v).Chain(Plucker(path[|path| - 1]))
  }

  /** Reference definition of nested access: descend through `path` from the
      front while every member on the way is present. */
  function Deref(v: Json, path: seq<string>): Option<Json>
    decreases |path|
  {
    if |path| == 0 then Some(v)
    else if Present(v, path[0]) then Deref(v.fields[path[0]], path[1..])
    else None
  }

  /** Descending one more key extends a successful descent by one field
      read, and a failed descent stays failed. */
  lemma {:induction false} DerefSnoc(v: Json, p: seq<string>, k: string)
    ensures Deref(v, p + [k]) ==
              if Deref(v, p).Some? && Present(Deref(v, p).value, k)
              then Some(Deref(v, p).value.fields[k]) else None
    decreases |p|
  {
    if |p| == 0 {
      assert p + [k] == [k];
      assert [k][1..] == [];
    } else {
      assert (p + [k])[0] == p[0];
      assert (p + [k])[1..] == p[1..] + [k];
      if Present(v, p[0]) {
        DerefSnoc(v.fields[p[0]], p[1..], k);
      }
    }
  }

  /** If a descent succeeds, so does every descent along a prefix of it. */
  lemma {:induction false} DerefPrefixClosed(v: Json, p: seq<string>, q: seq<string>)
    ensures Deref(v, p + q).Some? ==> Deref(v, p).Some?
    decreases |p|
  {
    if |p| > 0 {
      assert (p + q)[0] == p[0];
      assert (p + q)[1..] == p[1..] + q;
      if Present(v, p[0]) {
        DerefPrefixClosed(v.fields[p[0]], p[1..], q);
      }
    }
  }

  /** The plucking chain succeeds exactly when the nested access does, and
      then yields the very value found there. */
  lemma {:induction false} PluckPathMeetsDeref(path: seq<string>, v: Json)
    ensures PluckPath(path, v).Right? <==> Deref(v, path).Some?
    ensures PluckPath(path, v).Right? ==> PluckPath(path, v).right == Deref(v, path).value
    decreases |path|
  {
    if |path| > 0 {
      var p, k := path[..|path| - 1], path[|path| - 1];
      assert p + [k] == path;
      PluckPathMeetsDeref(p, v);
      DerefSnoc(v, p, k);
    }
  }

  /** A failing chain reports a key whose read failed after the descent up
      to it had succeeded. */
  lemma {:induction false} PluckPathFailsAt(path: seq<string>, v: Json)
    ensures PluckPath(path, v).Left? ==>
              exists i :: 0 <= i < |path| &&
                Deref(v, path[..i]).Some? && Deref(v, path[..i + 1]).None? &&
                PluckPath(path, v).left == Error(MissingMessage(path[i]))
    decreases |path|
  {
    if |path| > 0 && PluckPath(path, v).Left? {
      var p, k := path[..|path| - 1], path[|path| - 1];
      assert p + [k] == path;
      var prior := PluckPath(p, v);
      if prior.Left? {
        PluckPathFailsAt(p, v);
        var i :| 0 <= i < |p| && Deref(v, p[..i]).Some? && Deref(v, p[..i + 1]).None? &&
                 prior.left == Error(MissingMessage(p[i]));
        assert path[..i] == p[..i] && path[..i + 1] == p[..i + 1] && path[i] == p[i];
      } else {
        PluckPathMeetsDeref(p, v);
        DerefSnoc(v, p, k);
        assert path[..|p|] == p && path[..|p| + 1] == path;
        assert Deref(v, path[..|p|]).Some? && Deref(v, path[..|p| + 1]).None?;
      }
    }
  }

  /** A failing chain reports the first key whose read failed: the descent
      along every shorter prefix succeeded, and the read of that key found it
      missing or null. */
  lemma PluckPathNamesFirstMissing(path: seq<string>, v: Json)
    ensures PluckPath(path, v).Left? ==>
              exists i :: 0 <= i < |path| &&
                (forall j :: 0 <= j <= i ==> Deref(v, path[..j]).Some?) &&
                Deref(v, path[..i + 1]).None? &&
                PluckPath(path, v).left == Error(MissingMessage(path[i]))
  {
    if PluckPath(path, v).Left? {
      PluckPathFailsAt(path, v);
      var i :| 0 <= i < |path| && Deref(v, path[..i]).Some? && Deref(v, path[..i + 1]).None? &&
               PluckPath(path, v).left == Error(MissingMessage(path[i]));
      forall j | 0 <= j <= i
        ensures Deref(v, path[..j]).Some?
      {
        assert path[..j] + path[j..i] == path[..i];
        DerefPrefixClosed(v, path[..j], path[j..i]);
      }
    }
  }

  /** Walking a path in two legs is the same as walking it at once: the
      chain over `p + q` is the chain over `p` followed by the chain over
      `q` from wherever `p` ended. */
  lemma {:induction false} PluckPathAppend(p: seq<string>, q: seq<string>, v: Json)
    ensures PluckPath(p + q, v) == PluckPath(p, v).Chain((x: Json) => PluckPath(q, x))
    decreases |q|
  {
    if |q| == 0 {
      assert p + q == p;
    } else {
      var q', k := q[..|q| - 1], q[|q| - 1];
      assert p + q == (p + q') + [k];
      PluckPathAppend(p, q', v);
      ChainAssociative(PluckPath(p, v), (x: Json) => PluckPath(q', x), Plucker(k));
    }
  }

  /** Once the chain has failed, the keys after the failure are never
      consulted: extending the path does not change the result. */
  lemma {:induction false} PluckPathStopsAtFailure(p: seq<string>, q: seq<string>, v: Json)
    requires PluckPath(p, v).Left?
    ensures PluckPath(p + q, v) == PluckPath(p, v)
    decreases |q|
  {
    if |q| == 0 {
      assert p + q == p;
    } else {
      var q', k := q[..|q| - 1], q[|q| - 1];
      assert p + q == (p + q') + [k];
      PluckPathStopsAtFailure(p, q', v);
    }
  }

  /** The three-step chain `aggregations`, `savedobjs`, `buckets`. */
  function ExtractBuckets(resp: Json): (r: Either<Error, Json>)
    ensures !Present(resp, "aggregations") ==> r == Left(Error("Missing aggregations"))
    ensures Present(resp, "aggregations") ==>
              var aggs := resp.fields["aggregations"];
              if !Present(aggs, "savedobjs") then r == Left(Error("Missing savedobjs"))
              else
                var savedobjs := aggs.fields["savedobjs"];
                if !Present(savedobjs, "buckets") then r == Left(Error("Missing buckets"))
                else r == Right(savedobjs.fields["buckets"])
  {
    assert MissingMessage("aggregations") == "Missing aggregations";
    assert MissingMessage("savedobjs") == "Missing savedobjs";
    assert MissingMessage("buckets") == "Missing buckets";
    var aggs := Pluck("aggregations", resp);
    var savedobjs := aggs.Chain(Plucker("savedobjs"));
    assert aggs.Right? ==> savedobjs == Pluck("savedobjs", aggs.right);
    assert savedobjs.Right? ==> savedobjs.Chain(Plucker("buckets")) == Pluck("buckets", savedobjs.right);
    savedobjs.Chain(Plucker("buckets"))
  }

  /** The explicit three-step chain is the general chain over `BucketsPath`. */
  lemma ExtractBucketsIsPluckPath(resp: Json)
    ensures ExtractBuckets(resp) == PluckPath(BucketsPath, resp)
  {
    var one, two := ["aggregations"], ["aggregations", "savedobjs"];
    assert one[..0] == [];
    assert two[..1] == one;
    assert BucketsPath[..2] == two;
    assert PluckPath(one, resp) == Right(resp).Chain(Plucker("aggregations"));
    assert PluckPath(two, resp) == PluckPath(one, resp).Chain(Plucker("savedobjs"));
    assert PluckPath(BucketsPath, resp) == PluckPath(two, resp).Chain(Plucker("buckets"));
  }

  /** The callback given to `TE.map` in `types`: the buckets, or the bare message of
      the extraction error. */
  function Extraction(resp: Json): Json
  {
    ExtractBuckets(resp).GetOrElse((e: Error) => Str(e.message))
  }

  // ---------------------------------------------------------------------
  // The request and the census

  /** The fixed aggregation body, the `query` constant of the service. */
  const Query: Json :=
    Obj(map["aggs" := Obj(map["savedobjs" := Obj(map["terms" := Obj(map["field" := Str("type")])])])])

  /** `v` is an object with exactly one member, named `key`. */
  predicate OnlyMember(v: Json, key: string)
  {
    v.Obj? && v.fields.Keys == {key}
  }

  /** The search request built for `types(node)(typeList)(index)`; `None`
      for `index` is an omitted argument. */
  function Request(node: string, typeList: Json, index: Option<string>): (r: SearchRequest)
    ensures r.node == node && r.size == 0
    ensures index.None? ==> r.index == ".kibana"
    ensures index.Some? ==> r.index == index.value
    ensures OnlyMember(r.body, "aggs")
    ensures OnlyMember(r.body.fields["aggs"], "savedobjs")
    ensures OnlyMember(r.body.fields["aggs"].fields["savedobjs"], "terms")
    ensures Deref(r.body, ["aggs", "savedobjs", "terms"]) == Some(Obj(map["field" := Str("type")]))
  {
    SearchRequest(node, if index.Some? then index.value else DefaultIndex, 0, Query)
  }

  /** The type filter argument has no effect on the request. */
  lemma RequestIgnoresTypeList(node: string, t1: Json, t2: Json, index: Option<string>)
    ensures Request(node, t1, index) == Request(node, t2, index)
  {
  }

  /** `TE.tryCatch`: a rejected search becomes a failure carrying its
      reason, a fulfilled one a success carrying the response body. */
  function TryCatch<E>(outcome: Outcome<E>): Either<E, Json>
  {
    match outcome
    case Transport(err) => Left(err)
    case Body(body) => Right(body)
  }

  /** The `types` pipeline after the search has settled: `tryCatch`, then
      `map` of the extraction, then `fold` into one value. `errText` is the
      text of the rejection reason once converted by `toError`, normally
      "Error: " followed by its message. */
  function Census<E>(outcome: Outcome<E>, errText: E -> string): (r: Json)
    ensures outcome.Transport? ==> r == Str(SearchErrorPrefix + errText(outcome.err))
    ensures outcome.Body? && Deref(outcome.body, ["aggregations"]).None? ==>
              r == Str("Missing aggregations")
    ensures outcome.Body? && Deref(outcome.body, ["aggregations"]).Some? &&
            Deref(outcome.body, ["aggregations", "savedobjs"]).None? ==>
              r == Str("Missing savedobjs")
    ensures outcome.Body? && Deref(outcome.body, ["aggregations", "savedobjs"]).Some? &&
            Deref(outcome.body, BucketsPath).None? ==>
              r == Str("Missing buckets")
    ensures outcome.Body? && Deref(outcome.body, BucketsPath).Some? ==>
              r == Deref(outcome.body, BucketsPath).value
    ensures r != Null
  {
    TryCatch(outcome)
      .Map(Extraction)
      .Fold((x: E) => Str(SearchErrorPrefix + errText(x)), (y: Json) => y)
  }

  /** `types(node)(typeList)(index)` against a search backend `search`. */
  function Types<E>(node: string, typeList: Json, index: Option<string>,
                    search: SearchRequest -> Outcome<E>, errText: E -> string): (r: Json)
    ensures var o := search(Request(node, typeList, index));
            o.Transport? ==> r == Str(SearchErrorPrefix + errText(o.err))
    ensures var o := search(Request(node, typeList, index));
            o.Body? && Deref(o.body, BucketsPath).Some? ==> r == Deref(o.body, BucketsPath).value
    ensures var o := search(Request(node, typeList, index));
            o.Body? && Deref(o.body, BucketsPath).None? ==>
              exists i :: 0 <= i < |BucketsPath| && r == Str(MissingMessage(BucketsPath[i]))
    ensures r != Null
  {
    Census(search(Request(node, typeList, index)), errText)
  }

  /** The type filter argument has no effect on the census. */
  lemma TypesIgnoresTypeList<E>(node: string, t1: Json, t2: Json, index: Option<string>,
                                search: SearchRequest -> Outcome<E>, errText: E -> string)
    ensures Types(node, t1, index, search, errText) == Types(node, t2, index, search, errText)
  {
  }

  /** Whatever key is missing, an extraction failure is reported as the bare
      "Missing <key>" message, never with the search-error prefix. */
  lemma ExtractionFailureIsBare<E>(resp: Json, errText: E -> string)
    ensures Deref(resp, BucketsPath).None? ==>
              exists i :: 0 <= i < |BucketsPath| &&
                Census(Body(resp), errText) == Str(MissingMessage(BucketsPath[i]))
  {
  }

  /** A well-formed response yields its bucket list as it stands. */
  lemma SingleBucketCensus<E>(errText: E -> string)
    ensures
      var buckets := Arr([Obj(map["key" := Str("config"), "doc_count" := Num(3)])]);
      var resp := Obj(map["aggregations" := Obj(map["savedobjs" := Obj(map["buckets" := buckets])])]);
      Census(Body(resp), errText) == buckets
  {
  }

  // ---------------------------------------------------------------------
  // The log header label

  /** The text of `xs.length` for a value the census can return. `show` is
      JavaScript's `String(v)` for an object's own `length` member. */
  function LengthText(xs: Json, show: Json -> string): string
    requires !xs.Null?
  {
    match xs
    case Str(s) => Decimal.FromNat(|s|)
    case Arr(items) => Decimal.FromNat(|items|)
    case Obj(fields) => if "length" in fields then show(fields["length"]) else "undefined"
    case _ => "undefined"
  }

  /** `msg || 'Count: ' + n`, where `n` is the text of the printed value's
      `length`. */
  function Header(msg: Option<string>, lengthText: string): string
  {
    if msg.Some? && msg.value != "" then msg.value else "Count: " + lengthText
  }

  /** `msg || 'Count: ' + xs.length` for a value the census returns. */
  function Label(msg: Option<string>, xs: Json, show: Json -> string): (r: string)
    requires !xs.Null?
    ensures msg.Some? && msg.value != "" ==> r == msg.value
    ensures (msg.None? || msg.value == "") ==> |r| >= 7 && r[..7] == "Count: "
    ensures (msg.None? || msg.value == "") && (xs.Str? || xs.Arr?) ==>
              var count := r[7..];
              Decimal.IsCanonical(count) &&
              Decimal.Value(count) == (if xs.Str? then |xs.s| else |xs.items|)
  {
    Decimal.ValueOfFromNat(if xs.Str? then |xs.s| else if xs.Arr? then |xs.items| else 0);
    Header(msg, LengthText(xs, show))
  }

  /** The `length` of the curried function `types(node)`: JavaScript counts
      the parameters before the first one with a default, and its only
      parameter `typeList` has one. */
  const UnappliedTypesLength: nat := 0

  /** `logSoTypes` as written: `print` receives `await types(node)`, which
      is the curried function still waiting for a type list and an index. No search is made, and the label's count is that
      function's `length`. The backend is a parameter only to show that it
      plays no part. */
  function LogSoTypesAsWritten<E>(msg: Option<string>, node: string,
                                  search: SearchRequest -> Outcome<E>, errText: E -> string): (r: string)
    ensures msg.Some? && msg.value != "" ==> r == msg.value
    ensures msg.None? || msg.value == "" ==> r == "Count: 0"
  {
    Header(msg, Decimal.FromNat(UnappliedTypesLength))
  }

  /** `logSoTypes` as evidently intended: the census `types(node)()()`, with
      no type list and the default index, is run against the backend and
      its result is labelled. */
  function LogSoTypes<E>(msg: Option<string>, node: string, search: SearchRequest -> Outcome<E>,
                         errText: E -> string, show: Json -> string): (r: string)
    ensures msg.Some? && msg.value != "" ==> r == msg.value
    ensures msg.None? || msg.value == "" ==> |r| >= 7 && r[..7] == "Count: "
    ensures msg.None? || msg.value == "" ==>
              var xs := Types(node, Null, None, search, errText);
              xs.Str? || xs.Arr? ==>
                Decimal.IsCanonical(r[7..]) &&
                Decimal.Value(r[7..]) == (if xs.Str? then |xs.s| else |xs.items|)
  {
    Label(msg, Types(node, Null, None, search, errText), show)
  }

  /** The intended `logSoTypes` consults the backend only on the fixed
      request to the default `.kibana` index: two backends that answer that
      one request alike give the same label. */
  lemma LogSoTypesConsultsOnlyDefaultRequest<E>(msg: Option<string>, node: string,
                                                s1: SearchRequest -> Outcome<E>, s2: SearchRequest -> Outcome<E>,
                                                errText: E -> string, show: Json -> string)
    requires s1(SearchRequest(node, ".kibana", 0, Query)) == s2(SearchRequest(node, ".kibana", 0, Query))
    ensures LogSoTypes(msg, node, s1, errText, show) == LogSoTypes(msg, node, s2, errText, show)
  {
  }

  /** A backend whose index holds documents of the single type `config`. */
  function OneBucketBackend<E>(): SearchRequest -> Outcome<E>
  {
    (req: SearchRequest) =>
      Body(Obj(map["aggregations" := Obj(map["savedobjs" := Obj(map["buckets" :=
        Arr([Obj(map["key" := Str("config"), "doc_count" := Num(3)])])])])]))
  }

  /** The discrepancy in `logSoTypes`: with one bucket type in the index and no
      caller label, the program as written logs "Count: 0", while labelling
      the census result gives "Count: 1". */
  lemma LogSoTypesMislabelsBuckets<E>(node: string, errText: E -> string, show: Json -> string)
    ensures LogSoTypesAsWritten(None, node, OneBucketBackend<E>(), errText) == "Count: 0"
    ensures LogSoTypes(None, node, OneBucketBackend<E>(), errText, show) == "Count: 1"
  {
  }

  /** Without a caller label, the intended `logSoTypes` against a backend
      whose response lacks `aggregations` is labelled with the character
      count of "Missing aggregations". */
  lemma MissingAggregationsLabel<E>(node: string, errText: E -> string, show: Json -> string)
    ensures LogSoTypes(None, node, (req: SearchRequest) => Body(Obj(map[])), errText, show) == "Count: 20"
  {
    var xs := Types(node, Null, None, (req: SearchRequest) => Body(Obj(map[])), errText);
    assert xs == Str("Missing aggregations");
    assert |xs.s| == 20;
    assert Decimal.FromNat(2) == "2";
    assert Decimal.FromNat(20) == "20";
  }
}
