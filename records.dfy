/** The reshaping the backend clients of main_streamlit.py apply to a JSON
    body they have already received: trimming ignored keys from asset records,
    unwrapping the `assets.items` envelope, truncating result lists, sorting by
    capture time, and the sentinel answers for a missing name or birth date.
    Each function takes the parsed body as its input. */
module Records {
  import opened Values
  import opened CreatedOrder

  /** Internal or bulky asset fields never handed to the assistant. */
  const IgnoreKeys: set<string> := {"thumbhash", "resized", "hasMetadata", "deviceAssetId", "ownerId",
    "deviceId", "libraryId", "originalPath", "originalFileName", "checksum", "faces"}

  /** `trim_json`: the record without its ignored keys. */
  function TrimJson(m: Record): (r: Record)
    ensures r.Keys == m.Keys - IgnoreKeys
    ensures forall k :: k in r ==> r[k] == m[k]
  {
    map k | k in m && k !in IgnoreKeys :: m[k]
  }

  /** Trimming twice is trimming once. */
  lemma TrimJsonIdempotent(m: Record)
    ensures TrimJson(TrimJson(m)) == TrimJson(m)
  {
  }

  /** Trimming keeps the capture timestamp, so it keeps the sort key. */
  lemma TrimJsonKeepsKey(m: Record)
    ensures Key(Obj(TrimJson(m))) == Key(Obj(m))
  {
    assert "fileCreatedAt" !in IgnoreKeys;
  }

  /** `[trim_json(x) for x in xs]`: raises at the first item that is not a dict. */
  function TrimEach(xs: seq<Value>): (r: Result<seq<Record>>)
    ensures r.Ok? <==> forall i :: 0 <= i < |xs| ==> xs[i].Obj?
    ensures r.Ok? ==> |r.value| == |xs| && forall i :: 0 <= i < |xs| ==> r.value[i] == TrimJson(xs[i].fields)
    decreases |xs|
  {
    if xs == [] then Ok([])
    else if !xs[0].Obj? then Err(AttributeError)
    else
      var rest :- TrimEach(xs[1..]);
      Ok([TrimJson(xs[0].fields)] + rest)
  }

  /** `[trim_json(x) for x in v]` for any JSON value. */
  function TrimRecords(v: Value): Result<seq<Record>> {
    var xs :- Iter(v);
    TrimEach(xs)
  }

  /** `if len(v) > limit: v = v[:limit]`. */
  function Truncated(v: Value, limit: int): Result<Value> {
    var n :- Len(v);
    if n > limit then Prefix(v, limit) else Ok(v)
  }

  /** Truncation followed by trimming, the tail of every search client. */
  function KeepAndTrim(v: Value, limit: int): Result<seq<Record>> {
    var kept :- Truncated(v, limit);
    TrimRecords(kept)
  }

  /** On a list, the result is the trimmed first `xs[:limit]` items, and it
      exists exactly when each of those items is a dict. */
  lemma KeepAndTrimList(xs: seq<Value>, limit: int)
    ensures var r := KeepAndTrim(Arr(xs), limit);
      && (r.Ok? <==> forall i :: 0 <= i < Cut(|xs|, limit) ==> xs[i].Obj?)
      && (r.Ok? ==> |r.value| == Cut(|xs|, limit)
                    && forall i :: 0 <= i < |r.value| ==> r.value[i] == TrimJson(xs[i].fields))
  {
    if |xs| <= limit {
      assert xs[..Cut(|xs|, limit)] == xs;
    }
  }

  /** Whatever the body, no more than a non-negative `limit` records come out. */
  lemma KeepAndTrimBound(v: Value, limit: int)
    requires limit >= 0
    ensures KeepAndTrim(v, limit).Ok? ==> |KeepAndTrim(v, limit).value| <= limit
  {
    if v.Arr? {
      KeepAndTrimList(v.items, limit);
    }
  }

  /** The first `"assets"`/`"items"` envelope of a search body, when present:
      `if "assets" in items and "items" in items["assets"]: items = items["assets"]["items"]`. */
  function Unwrap(items: Value): Result<Value> {
    var hasAssets :- Contains(items, "assets");
    if !hasAssets then Ok(items)
    else
      var assets :- Get(items, "assets");
      var hasItems :- Contains(assets, "items");
      if hasItems then Get(assets, "items") else Ok(items)
  }

  /** An envelope `{"assets": {"items": xs}}` unwraps to `xs`; a bare list of
      records is kept as it is. */
  lemma UnwrapEnvelope(xs: seq<Value>, rest: Record, inner: Record)
    ensures Unwrap(Obj(rest["assets" := Obj(inner["items" := Arr(xs)])])) == Ok(Arr(xs))
    ensures (forall i :: 0 <= i < |xs| ==> xs[i].Obj?) ==> Unwrap(Arr(xs)) == Ok(Arr(xs))
  {
  }

  /** The post-processing of `search_person_assets`: at most five trimmed records. */
  function PersonAssets(rj: Value): Result<seq<Record>> {
    KeepAndTrim(rj, 5)
  }

  /** `search_person_assets` returns `min(5, len(rj))` records, the i-th being
      `trim_json(rj[i])`, and fails exactly when one of those is not a dict. */
  lemma PersonAssetsFirstFive(xs: seq<Value>)
    ensures var r := PersonAssets(Arr(xs));
      var n := if |xs| < 5 then |xs| else 5;
      && (r.Ok? <==> forall i :: 0 <= i < n ==> xs[i].Obj?)
      && (r.Ok? ==> |r.value| == n && forall i :: 0 <= i < n ==> r.value[i] == TrimJson(xs[i].fields))
  {
    KeepAndTrimList(xs, 5);
  }

  /** Whatever the body, `search_person_assets` never returns more than five records. */
  lemma PersonAssetsAtMostFive(rj: Value)
    ensures PersonAssets(rj).Ok? ==> |PersonAssets(rj).value| <= 5
  {
    KeepAndTrimBound(rj, 5);
  }

  /** The query parameters of `asset_search`: the dates and the city are sent
      only when truthy. */
  function AssetsPayload(order: Value, takenAfter: Value, takenBefore: Value, city: Value, num: int): (p: Record)
    ensures "order" in p && "num" in p && "withPeople" in p
    ensures p["order"] == order && p["num"] == Num(num) && p["withPeople"] == Str("true")
    ensures "takenAfter" in p <==> Truthy(takenAfter)
    ensures "takenBefore" in p <==> Truthy(takenBefore)
    ensures "city" in p <==> Truthy(city)
    ensures Truthy(takenAfter) ==> p["takenAfter"] == takenAfter
    ensures Truthy(takenBefore) ==> p["takenBefore"] == takenBefore
    ensures Truthy(city) ==> p["city"] == city
    ensures p.Keys <= {"order", "num", "withPeople", "takenAfter", "takenBefore", "city"}
  {
    var base := map["order" := order, "num" := Num(num), "withPeople" := Str("true")];
    var p1 := if Truthy(takenAfter) then base["takenAfter" := takenAfter] else base;
    var p2 := if Truthy(takenBefore) then p1["takenBefore" := takenBefore] else p1;
    if Truthy(city) then p2["city" := city] else p2
  }

  /** The post-processing of `asset_search`: unwrap, keep `items[:num]`, trim. */
  function AssetsResult(items: Value, num: int): Result<seq<Record>> {
    var u :- Unwrap(items);
    KeepAndTrim(u, num)
  }

  /** `asset_search` returns the trimmed first `min(num, len(items))` items of
      the unwrapped list (for a negative `num`, Python's `items[:num]` drops
      the last `-num` items), and fails exactly when one of them is not a dict. */
  lemma AssetsResultTruncates(items: Value, xs: seq<Value>, num: int)
    requires Unwrap(items) == Ok(Arr(xs))
    ensures var r := AssetsResult(items, num);
      && (r.Ok? <==> forall i :: 0 <= i < Cut(|xs|, num) ==> xs[i].Obj?)
      && (r.Ok? ==> |r.value| == Cut(|xs|, num)
                    && forall i :: 0 <= i < |r.value| ==> r.value[i] == TrimJson(xs[i].fields))
  {
    KeepAndTrimList(xs, num);
  }

  /** With a non-negative `num`, `asset_search` never returns more than `num` records. */
  lemma AssetsResultAtMostNum(items: Value, num: int)
    requires num >= 0
    ensures AssetsResult(items, num).Ok? ==> |AssetsResult(items, num).value| <= num
  {
    var u := Unwrap(items);
    if u.Ok? {
      KeepAndTrimBound(u.value, num);
    }
  }

  /** The keys `x["fileCreatedAt"]` of every item, as the sort computes them
      before comparing anything. */
  function CreatedKeys(xs: seq<Value>): (r: Result<seq<Value>>)
    ensures r.Ok? <==> forall i :: 0 <= i < |xs| ==> xs[i].Obj? && "fileCreatedAt" in xs[i].fields
    ensures r.Ok? ==> |r.value| == |xs| && forall i :: 0 <= i < |xs| ==> r.value[i] == xs[i].fields["fileCreatedAt"]
    decreases |xs|
  {
    if xs == [] then Ok([])
    else
      var k :- Get(xs[0], "fileCreatedAt");
      var rest :- CreatedKeys(xs[1..]);
      Ok([k] + rest)
  }

  /** `items.sort(key=lambda x: x["fileCreatedAt"], reverse=True)`. Only a
      list can be sorted; every item needs the key; two or more items are
      compared, which the model admits only for string timestamps. */
  function SortByCreated(v: Value): Result<Value> {
    if !v.Arr? then Err(AttributeError)
    else
      var keys :- CreatedKeys(v.items);
      if |keys| >= 2 && exists i :: 0 <= i < |keys| && !keys[i].Str? then Err(TypeError)
      else Ok(Arr(SortDesc(v.items, Key)))
  }

  /** The post-processing of `smart_search`: unwrap, sort newest first when
      `recent == "true"`, keep ten, trim. The requested count plays no part. */
  function SmartResult(items: Value, recent: string): Result<seq<Record>> {
    var u :- Unwrap(items);
    var ordered :- if recent == "true" then SortByCreated(u) else Ok(u);
    KeepAndTrim(ordered, 10)
  }

  /** `smart_search` never returns more than ten records. */
  lemma SmartResultAtMostTen(items: Value, recent: string)
    ensures SmartResult(items, recent).Ok? ==> |SmartResult(items, recent).value| <= 10
  {
    var u := Unwrap(items);
    if u.Ok? {
      var ordered := if recent == "true" then SortByCreated(u.value) else Ok(u.value);
      if ordered.Ok? {
        KeepAndTrimBound(ordered.value, 10);
      }
    }
  }

  /** With `recent == "true"` a successful `smart_search` sorted a list: its
      records are the trimmed first `min(10, len)` items of a permutation of
      that list, and their timestamps never increase. */
  lemma SmartResultRecent(items: Value)
    requires SmartResult(items, "true").Ok?
    ensures Unwrap(items).Ok? && Unwrap(items).value.Arr?
    ensures var xs := Unwrap(items).value.items;
      var out := SmartResult(items, "true").value;
      && multiset(SortDesc(xs, Key)) == multiset(xs)
      && |out| == (if |xs| < 10 then |xs| else 10)
      && (forall i :: 0 <= i < |out| ==> out[i] == TrimJson(SortDesc(xs, Key)[i].fields))
      && (forall i, j :: 0 <= i < j < |out| ==> StrLe(Key(Obj(out[j])), Key(Obj(out[i]))))
  {
    var xs := Unwrap(items).value.items;
    var sorted := SortDesc(xs, Key);
    SortDescCorrect(xs, Key);
    assert |sorted| == |xs| by {
      assert |multiset(sorted)| == |multiset(xs)|;
    }
    KeepAndTrimList(sorted, 10);
    var out := SmartResult(items, "true").value;
    forall i, j | 0 <= i < j < |out| ensures StrLe(Key(Obj(out[j])), Key(Obj(out[i]))) {
      TrimJsonKeepsKey(sorted[i].fields);
      TrimJsonKeepsKey(sorted[j].fields);
    }
  }

  /** The item is a dict whose `fileCreatedAt` is a string. */
  predicate HasStrKey(x: Value) {
    x.Obj? && "fileCreatedAt" in x.fields && x.fields["fileCreatedAt"].Str?
  }

  /** A sort of two or more items that goes through compared string
      timestamps only. */
  lemma SortByCreatedStrKeys(v: Value)
    requires SortByCreated(v).Ok? && v.Arr? && |v.items| >= 2
    ensures forall x :: x in v.items ==> HasStrKey(x)
  {
    var keys := CreatedKeys(v.items).value;
    assert |keys| >= 2;
    assert forall i :: 0 <= i < |keys| ==> keys[i].Str?;
    forall x | x in v.items ensures HasStrKey(x) {
      var j :| 0 <= j < |v.items| && v.items[j] == x;
      assert keys[j] == x.fields["fileCreatedAt"];
    }
  }

  /** Sorting keeps the items, so it keeps their having string timestamps. */
  lemma SortKeepsStrKeys(xs: seq<Value>)
    requires forall x :: x in xs ==> HasStrKey(x)
    ensures forall x :: x in SortDesc(xs, Key) ==> HasStrKey(x)
  {
    SortDescCorrect(xs, Key);
    forall x | x in SortDesc(xs, Key) ensures HasStrKey(x) {
      assert x in multiset(SortDesc(xs, Key));
    }
  }

  /** Truncating and trimming items with string timestamps keeps them. */
  lemma TrimmedStrKeys(ys: seq<Value>, limit: int)
    requires forall x :: x in ys ==> HasStrKey(x)
    requires KeepAndTrim(Arr(ys), limit).Ok?
    ensures var out := KeepAndTrim(Arr(ys), limit).value;
      forall i :: 0 <= i < |out| ==> "fileCreatedAt" in out[i] && out[i]["fileCreatedAt"].Str?
  {
    KeepAndTrimList(ys, limit);
    assert "fileCreatedAt" !in IgnoreKeys;
    var out: seq<Record> := KeepAndTrim(Arr(ys), limit).value;
    forall i | 0 <= i < |out| ensures "fileCreatedAt" in out[i] && out[i]["fileCreatedAt"].Str? {
      assert ys[i] in ys;
    }
  }

  /** With `recent == "true"`, a successful `smart_search` that returns two
      or more records compared their timestamps, so each of them has a string
      `fileCreatedAt`. */
  lemma SmartResultTimestamps(items: Value)
    requires SmartResult(items, "true").Ok? && |SmartResult(items, "true").value| >= 2
    ensures var out := SmartResult(items, "true").value;
      forall i :: 0 <= i < |out| ==> "fileCreatedAt" in out[i] && out[i]["fileCreatedAt"].Str?
  {
    var u := Unwrap(items).value;
    assert SortByCreated(u).Ok?;
    var xs := u.items;
    var sorted := SortDesc(xs, Key);
    assert SmartResult(items, "true") == KeepAndTrim(Arr(sorted), 10);
    assert |sorted| == |xs| by {
      SortDescCorrect(xs, Key);
      assert |multiset(sorted)| == |multiset(xs)|;
    }
    KeepAndTrimList(sorted, 10);
    SortByCreatedStrKeys(u);
    SortKeepsStrKeys(xs);
    TrimmedStrKeys(sorted, 10);
  }

  /** Without `recent == "true"` the backend's order is kept. */
  lemma SmartResultKeepsOrder(items: Value, recent: string, xs: seq<Value>)
    requires recent != "true" && Unwrap(items) == Ok(Arr(xs)) && SmartResult(items, recent).Ok?
    ensures var out := SmartResult(items, recent).value;
      |out| == (if |xs| < 10 then |xs| else 10) && forall i :: 0 <= i < |out| ==> out[i] == TrimJson(xs[i].fields)
  {
    KeepAndTrimList(xs, 10);
  }

  /** The post-processing of `get_person_name`: the `"name"` entry, or the
      sentinel `"Unknown"` when there is none. */
  function PersonName(res: Value): (r: Result<Value>)
    ensures res.Obj? ==> ("name" in res.fields ==> r == Ok(res.fields["name"]))
    ensures res.Obj? ==> (r == Ok(Str("Unknown")) <==> "name" !in res.fields || res.fields["name"] == Str("Unknown"))
    ensures res.Arr? ==> (r.Err? <==> Str("name") in res.items)
  {
    var hasName :- Contains(res, "name");
    if hasName then Get(res, "name") else Ok(Str("Unknown"))
  }

  /** The post-processing of `get_birthday`: the `birthDate` entry when truthy,
      the sentinel `"unknown"` otherwise; a person without the key raises. */
  function Birthday(person: Value): (r: Result<Value>)
    ensures r.Err? <==> !(person.Obj? && "birthDate" in person.fields)
    ensures r.Ok? ==> var b := person.fields["birthDate"];
      && (Truthy(b) ==> r.value == b)
      && (r.value == Str("unknown") <==> !Truthy(b) || b == Str("unknown"))
  {
    var bday :- Get(person, "birthDate");
    if Truthy(bday) then Ok(bday) else Ok(Str("unknown"))
  }

  /** The post-processing of `get_num_assets_from_id`. */
  function NumAssets(stats: Value): (r: Result<Value>)
    ensures r.Ok? <==> stats.Obj? && "assets" in stats.fields
    ensures r.Ok? ==> r.value == stats.fields["assets"]
  {
    Get(stats, "assets")
  }

  /** The post-processing of `get_asset_details`: one trimmed record. */
  function AssetDetails(body: Value): (r: Result<Record>)
    ensures r.Ok? <==> body.Obj?
    ensures r.Ok? ==> r.value.Keys == body.fields.Keys - IgnoreKeys
    ensures r.Ok? ==> forall k :: k in r.value ==> r.value[k] == body.fields[k]
  {
    if body.Obj? then Ok(TrimJson(body.fields)) else Err(AttributeError)
  }
}
