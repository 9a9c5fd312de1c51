/** The ten tools the LifeLens assistant may call, each as the Python function
    of main_streamlit.py computes it once its keyword arguments are bound.
    Every HTTP request to the Immich server, every thumbnail download and the
    reverse-geocoding call are answers of a `Backend`: a function of the
    request, the same for every tool call of one re-run of the script. */
module Tools {
  import opened Values
  import opened Integers
  import Records
  import CreatedOrder
  import Location

  newtype byte = x: int | 0 <= x < 256

  /** The bytes of a JPEG thumbnail, kept in the session's `thumbs` buffer. */
  type Thumb = seq<byte>

  /** The JSON requests the tools send to the Immich server. */
  datatype Request =
    | SearchPersonByName(name: string)     // GET /api/search/person?name=...
    | PersonById(uuid: string)             // GET /api/person/{uuid}
    | AssetsOfPerson(personId: Value)      // GET /api/person/{id}/assets
    | StatisticsOfPerson(personId: Value)  // GET /api/person/{id}/statistics
    | MetadataSearch(params: Record)       // GET /api/assets/ with query parameters
    | SmartSearchQuery(params: Record)     // GET /api/search/ with query parameters
    | RandomAssets(count: int)             // GET /api/asset/random?count=...
    | AssetById(id: string)                // GET /api/asset/{id}

  /** What the outside world answers: the parsed JSON body of each request,
      the thumbnail bytes of an asset id, and the reverse-geocode results for
      a latitude and longitude, which may raise (standing also for `float()`
      failing on them). */
  datatype Backend = Backend(
    get: Request -> Value,
    thumbnail: Value -> Thumb,
    reverseGeocode: (string, string) -> Result<Value>)

  /** What a tool returns to the assistant: a JSON value, or the set of place
      names `get_specific_location` turns into a list. */
  datatype Output = Json(value: Value) | Places(names: set<string>)

  /** A tool's answer together with the `thumbs` buffer after the call. */
  datatype Effect = Effect(output: Output, thumbs: seq<Thumb>)

  /** A string argument used in a string concatenation (the tools' log lines):
      anything else raises. */
  function AsStr(v: Value): (r: Result<string>)
    ensures r.Ok? <==> v.Str?
    ensures r.Ok? ==> Str(r.value) == v
  {
    if v.Str? then Ok(v.s) else Err(TypeError)
  }

  /** `search_person`: the first person the name search returns. */
  function SearchPerson(be: Backend, name: Value): Result<Value> {
    var n :- AsStr(name);
    First(be.get(SearchPersonByName(n)))
  }

  /** `get_birthday`. */
  function GetBirthday(be: Backend, name: Value): Result<Value> {
    var person :- SearchPerson(be, name);
    Records.Birthday(person)
  }

  /** `get_num_assets`, through `get_num_assets_from_id`. */
  function GetNumAssets(be: Backend, name: Value): Result<Value> {
    var person :- SearchPerson(be, name);
    var id :- Get(person, "id");
    Records.NumAssets(be.get(StatisticsOfPerson(id)))
  }

  /** `get_person_name`. */
  function GetPersonName(be: Backend, uuid: Value): Result<Value> {
    var u :- AsStr(uuid);
    Records.PersonName(be.get(PersonById(u)))
  }

  /** `get_asset_details`. */
  function GetAssetDetails(be: Backend, id: Value): Result<Value> {
    var i :- AsStr(id);
    var r :- Records.AssetDetails(be.get(AssetById(i)));
    Ok(Obj(r))
  }

  /** `get_specific_location`. */
  function GetSpecificLocation(be: Backend, lat: Value, lng: Value): Result<set<string>> {
    var la :- AsStr(lat);
    var ln :- AsStr(lng);
    var result :- be.reverseGeocode(la, ln);
    Location.LocationNames(result)
  }

  /** `search_person_assets`. */
  function SearchPersonAssets(be: Backend, name: Value): Result<Value> {
    var person :- SearchPerson(be, name);
    var id :- Get(person, "id");
    var rs :- Records.PersonAssets(be.get(AssetsOfPerson(id)));
    Ok(Objects(rs))
  }

  /** The query parameters of `smart_search`. */
  function SmartPayload(query: string, recent: string): (p: Record)
    ensures p.Keys == {"query", "recent", "smart"}
    ensures p["query"] == Str(query) && p["recent"] == Str(recent) && p["smart"] == Str("true")
  {
    map["query" := Str(query), "recent" := Str(recent), "smart" := Str("true")]
  }

  /** `smart_search`. All three arguments take part in the log line, so all
      must be strings; `num` must parse as an integer but is not used again. */
  function SmartSearch(be: Backend, query: Value, recent: Value, num: Value): Result<Value> {
    var q :- AsStr(query);
    var rc :- AsStr(recent);
    var ns :- AsStr(num);
    var n :- ParseInt(ns);
    var rs :- Records.SmartResult(be.get(SmartSearchQuery(SmartPayload(q, rc))), rc);
    Ok(Objects(rs))
  }

  /** `asset_search`. */
  function AssetSearch(be: Backend, order: Value, takenAfter: Value, takenBefore: Value, city: Value, num: Value): Result<Value> {
    var n :- ToInt(num);
    var payload := Records.AssetsPayload(order, takenAfter, takenBefore, city, n);
    var rs :- Records.AssetsResult(be.get(MetadataSearch(payload)), n);
    Ok(Objects(rs))
  }

  /** The thumbnails the loop of `get_random_asset` has collected after its
      first `n` assets: one per asset, fetched by the asset's `id`. */
  function ThumbsOf(be: Backend, assets: seq<Value>, n: nat): (r: Result<seq<Thumb>>)
    requires n <= |assets|
    ensures r.Ok? <==> forall i :: 0 <= i < n ==> assets[i].Obj? && "id" in assets[i].fields
    ensures r.Ok? ==> |r.value| == n && forall i :: 0 <= i < n ==> r.value[i] == be.thumbnail(assets[i].fields["id"])
  {
    if n == 0 then Ok([])
    else
      var before :- ThumbsOf(be, assets, n - 1);
      var id :- Get(assets[n - 1], "id");
      Ok(before + [be.thumbnail(id)])
  }

  /** Once the loop of `get_random_asset` has raised at an asset, the
      collected thumbnails stay that exception. */
  lemma {:induction false} ThumbsOfFailurePersists(be: Backend, assets: seq<Value>, k: nat, n: nat)
    requires k <= n <= |assets| && ThumbsOf(be, assets, k).Err?
    ensures ThumbsOf(be, assets, n) == ThumbsOf(be, assets, k)
    decreases n
  {
    if k < n {
      ThumbsOfFailurePersists(be, assets, k, n - 1);
    }
  }

  /** `get_random_asset`: the trimmed random assets, and a `thumbs` buffer
      replaced by their thumbnails. The buffer is assigned only after every
      thumbnail has been fetched, so a call that raises leaves it alone. */
  function GetRandomAsset(be: Backend, number: Value): Result<Effect> {
    var n :- ToInt(number);
    var assets :- Iter(be.get(RandomAssets(n)));
    var taken :- ThumbsOf(be, assets, |assets|);
    var rs :- Records.TrimEach(assets);
    Ok(Effect(Json(Objects(rs)), taken))
  }

  /** `show_image`: one more thumbnail in the buffer. */
  function ShowImage(be: Backend, id: Value, thumbs: seq<Thumb>): (r: Result<Effect>)
    ensures r.Ok? <==> id.Str?
    ensures r.Ok? ==> r.value.output == Json(Str("success"))
    ensures r.Ok? ==> |r.value.thumbs| == |thumbs| + 1 && r.value.thumbs[..|thumbs|] == thumbs
    ensures r.Ok? ==> r.value.thumbs[|thumbs|] == be.thumbnail(id)
  {
    var i :- AsStr(id);
    Ok(Effect(Json(Str("success")), thumbs + [be.thumbnail(Str(i))]))
  }

  /** After `get_random_asset` the buffer holds exactly one thumbnail per
      returned record, in the same order, each the thumbnail of that record's
      `id`; the records are the trimmed assets. */
  lemma RandomAssetThumbsMatch(be: Backend, number: Value)
    requires GetRandomAsset(be, number).Ok?
    ensures var e := GetRandomAsset(be, number).value;
      && e.output.Json? && e.output.value.Arr?
      && |e.thumbs| == |e.output.value.items|
      && forall i :: 0 <= i < |e.thumbs| ==>
           e.output.value.items[i].Obj? && "id" in e.output.value.items[i].fields
           && e.thumbs[i] == be.thumbnail(e.output.value.items[i].fields["id"])
  {
    var n := ToInt(number).value;
    var assets := Iter(be.get(RandomAssets(n))).value;
    var taken := ThumbsOf(be, assets, |assets|).value;
    var rs := Records.TrimEach(assets).value;
    assert GetRandomAsset(be, number).value == Effect(Json(Objects(rs)), taken);
    var items := Objects(rs).items;
    assert "id" !in Records.IgnoreKeys;
    forall i | 0 <= i < |taken|
      ensures items[i].Obj? && "id" in items[i].fields && taken[i] == be.thumbnail(items[i].fields["id"])
    {
      assert items[i] == Obj(Records.TrimJson(assets[i].fields));
    }
  }

  /** `get_random_asset` succeeds exactly when the count converts, the body
      iterates, and every asset is a dict with an `id`. */
  lemma RandomAssetSucceeds(be: Backend, number: Value)
    ensures GetRandomAsset(be, number).Ok? <==>
      && ToInt(number).Ok?
      && Iter(be.get(RandomAssets(ToInt(number).value))).Ok?
      && var assets := Iter(be.get(RandomAssets(ToInt(number).value))).value;
         forall i :: 0 <= i < |assets| ==> assets[i].Obj? && "id" in assets[i].fields
  {
  }

  /** `smart_search` never returns more than ten records, whatever `num` is. */
  lemma SmartSearchAtMostTen(be: Backend, query: Value, recent: Value, num: Value)
    requires SmartSearch(be, query, recent, num).Ok?
    ensures SmartSearch(be, query, recent, num).value.Arr?
    ensures |SmartSearch(be, query, recent, num).value.items| <= 10
  {
    Records.SmartResultAtMostTen(be.get(SmartSearchQuery(SmartPayload(query.s, recent.s))), recent.s);
  }

  /** The count `num` of `smart_search` only has to parse: any two counts that
      do give the same answer. */
  lemma SmartSearchIgnoresNum(be: Backend, query: Value, recent: Value, num1: string, num2: string)
    requires ParseInt(num1).Ok? && ParseInt(num2).Ok?
    ensures SmartSearch(be, query, recent, Str(num1)) == SmartSearch(be, query, recent, Str(num2))
  {
  }

  /** With `recent == "true"` the records of `smart_search` come newest
      first; when two or more come back, each has a string `fileCreatedAt`,
      so the order is that of the timestamps themselves. */
  lemma SmartSearchRecentNewestFirst(be: Backend, query: Value, num: Value)
    requires SmartSearch(be, query, Str("true"), num).Ok?
    ensures var out := SmartSearch(be, query, Str("true"), num).value;
      && out.Arr?
      && (forall i, j :: 0 <= i < j < |out.items| ==>
           out.items[i].Obj? && out.items[j].Obj? && CreatedOrder.StrLe(CreatedOrder.Key(out.items[j]), CreatedOrder.Key(out.items[i])))
      && (|out.items| >= 2 ==> forall i :: 0 <= i < |out.items| ==>
           out.items[i].Obj? && "fileCreatedAt" in out.items[i].fields && out.items[i].fields["fileCreatedAt"].Str?)
  {
    var items := be.get(SmartSearchQuery(SmartPayload(query.s, "true")));
    Records.SmartResultRecent(items);
    if |Records.SmartResult(items, "true").value| >= 2 {
      Records.SmartResultTimestamps(items);
    }
  }

  /** The only request `smart_search` sends is the smart search for the
      caller's query and `recent`, with `smart = "true"`: two backends that
      answer that request alike give the same answer. */
  lemma SmartSearchSends(be1: Backend, be2: Backend, query: string, recent: string, num: Value)
    requires var request := SmartSearchQuery(map["query" := Str(query), "recent" := Str(recent), "smart" := Str("true")]);
      be1.get(request) == be2.get(request)
    ensures SmartSearch(be1, Str(query), Str(recent), num) == SmartSearch(be2, Str(query), Str(recent), num)
  {
    assert SmartPayload(query, recent) == map["query" := Str(query), "recent" := Str(recent), "smart" := Str("true")];
  }

  /** `search_person` answers the first element of the name search's list,
      and raises when the name is not a string or the list is empty. */
  lemma SearchPersonFirst(be: Backend, name: Value)
    ensures !name.Str? ==> SearchPerson(be, name) == Err(TypeError)
    ensures name.Str? && be.get(SearchPersonByName(name.s)).Arr? ==>
      var people := be.get(SearchPersonByName(name.s)).items;
      && (SearchPerson(be, name).Ok? <==> |people| > 0)
      && (|people| > 0 ==> SearchPerson(be, name) == Ok(people[0]))
  {
  }

  /** `get_num_assets` answers the `"assets"` statistic of the first person
      the name search returns, looked up by that person's `id`, and raises
      when any of these is missing. */
  lemma GetNumAssetsAnswer(be: Backend, name: Value)
    ensures GetNumAssets(be, name).Ok? <==>
      && SearchPerson(be, name).Ok?
      && SearchPerson(be, name).value.Obj? && "id" in SearchPerson(be, name).value.fields
      && var stats := be.get(StatisticsOfPerson(SearchPerson(be, name).value.fields["id"]));
         stats.Obj? && "assets" in stats.fields
    ensures GetNumAssets(be, name).Ok? ==>
      GetNumAssets(be, name).value == be.get(StatisticsOfPerson(SearchPerson(be, name).value.fields["id"])).fields["assets"]
  {
  }

  /** `get_asset_details` answers the asset's record with the ignored keys
      removed and every other entry as the server sent it. */
  lemma GetAssetDetailsAnswer(be: Backend, id: string)
    ensures var body := be.get(AssetById(id));
      && (GetAssetDetails(be, Str(id)).Ok? <==> body.Obj?)
      && (body.Obj? ==> GetAssetDetails(be, Str(id)) == Ok(Obj(Records.TrimJson(body.fields))))
  {
  }

  /** `asset_search` with a count that converts to a non-negative `n` returns
      at most `n` records. */
  lemma AssetSearchAtMostNum(be: Backend, order: Value, takenAfter: Value, takenBefore: Value, city: Value, num: Value)
    requires AssetSearch(be, order, takenAfter, takenBefore, city, num).Ok?
    requires ToInt(num).Ok? && ToInt(num).value >= 0
    ensures AssetSearch(be, order, takenAfter, takenBefore, city, num).value.Arr?
    ensures |AssetSearch(be, order, takenAfter, takenBefore, city, num).value.items| <= ToInt(num).value
  {
    var n := ToInt(num).value;
    var payload := Records.AssetsPayload(order, takenAfter, takenBefore, city, n);
    Records.AssetsResultAtMostNum(be.get(MetadataSearch(payload)), n);
  }
}
