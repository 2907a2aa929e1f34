/**
 * `POST /api/fetch-douban`: check the parameters, answer from the cache when it holds a
 * truthy value, otherwise fetch two pages of a user's Douban interests, map each record
 * to the fields the client uses, keep the rated ones, and cache the payload when it
 * holds at least 30 records.
 *
 * The two page fetches are inputs: what `fetch` and `res.json()` produced for each.
 */
module FetchDouban {
  import opened Base
  import opened Json
  import opened Http
  import opened TtlCache

  const MissingParams := "缺少必要参数"
  const NotFoundMessage := "未找到用户或隐私设置阻止访问"
  const ForbiddenMessage := "豆瓣拒绝了请求 (403)，请稍后再试"
  const UpstreamMessage := "从豆瓣获取数据失败"
  const DefaultMessage := "获取豆瓣数据失败"
  const UnknownTitle := "未知"
  const KeyPrefix := "@rmd/cache:douban:"

  /** The caught-and-rethrown form of any error that is not an HTTP error: 500 with the default message. */
  const Generic := HttpError(500, DefaultMessage)

  /* ---------------- cache key ---------------- */

  function CacheKey(userId: string, kind: string): string
  {
    KeyPrefix + userId + ":" + kind
  }

  /** Distinct (user, type) pairs get distinct keys, as long as user ids hold no ':'. */
  lemma KeyInjective(u1: string, t1: string, u2: string, t2: string)
    requires ':' !in u1 && ':' !in u2
    requires CacheKey(u1, t1) == CacheKey(u2, t2)
    ensures u1 == u2 && t1 == t2
  {
    var s1, s2 := u1 + ":" + t1, u2 + ":" + t2;
    assert s1 == CacheKey(u1, t1)[|KeyPrefix|..];
    assert s2 == CacheKey(u2, t2)[|KeyPrefix|..];
    assert s1 == s2;
    assert s1[|u1|] == ':' && s2[|u2|] == ':';
    assert forall k :: 0 <= k < |u1| ==> s1[k] == u1[k];
    assert forall k :: 0 <= k < |u2| ==> s2[k] == u2[k];
    assert |u1| == |u2|;
    assert u1 == s1[..|u1|];
    assert u2 == s2[..|u2|];
    assert t1 == s1[|u1| + 1..];
    assert t2 == s2[|u2| + 1..];
  }

  /* ---------------- the upstream pages ---------------- */

  /** What one `fetchData` call met. */
  datatype Page =
    /** A response with its status, and the body parsed as JSON (None when it is not JSON). */
    | Answered(status: int, payload: Option<Json>)
    /** `fetch` itself rejected. */
    | NetworkError

  /**
   * SvelteKit's `error(status, message)`: an HTTP error for a status in 400..599; for any
   * other status it throws a plain `Error` instead, which the handler's catch turns into
   * the generic 500.
   */
  function KitError(status: int, message: string): (r: Response)
    ensures r.HttpError? && 400 <= r.status <= 599
    ensures r == HttpError(status, message) <==> 400 <= status <= 599
    ensures r.message == message || r == Generic
    ensures !(400 <= status <= 599) ==> r == Generic
  {
    if 400 <= status <= 599 then HttpError(status, message) else Generic
  }

  /** `fetchData`: the page body, or the error the status maps to (lines 36-44). */
  function FetchData(page: Page): (r: Result<Json, Response>)
    ensures r.Ok? <==> page.Answered? && 200 <= page.status <= 299 && page.payload.Some?
    ensures r.Ok? ==> r.value == page.payload.value
    ensures r.Err? ==> r.error.HttpError? && 400 <= r.error.status <= 599
    ensures page.Answered? && page.status == 404 ==> r == Err(HttpError(404, NotFoundMessage))
    ensures page.Answered? && page.status == 403 ==> r == Err(HttpError(403, ForbiddenMessage))
    ensures page.Answered? && page.status != 404 && page.status != 403 && 400 <= page.status <= 599 ==>
      r == Err(HttpError(page.status, UpstreamMessage))
    ensures page.NetworkError? ==> r == Err(Generic)
    ensures page.Answered? && 200 <= page.status <= 299 && page.payload.None? ==> r == Err(Generic)
    ensures page.Answered? && !(200 <= page.status <= 299) && !(400 <= page.status <= 599) ==> r == Err(Generic)
  {
    match page
    case NetworkError => Err(Generic)
    case Answered(status, payload) =>
      if !(200 <= status <= 299) then
        if status == 404 then Err(KitError(404, NotFoundMessage))
        else if status == 403 then Err(KitError(403, ForbiddenMessage))
        else Err(KitError(status, UpstreamMessage))
      else if payload.None? then Err(Generic)
      else Ok(payload.value)
  }

  /** The characters of a string, as spreading it yields them. */
  function Characters(s: string): (cs: seq<Json>)
    ensures |cs| == |s| && forall i :: 0 <= i < |s| ==> cs[i] == JString([s[i]])
  {
    seq(|s|, i requires 0 <= i < |s| => JString([s[i]]))
  }

  /**
   * `...(page.interests || [])`: the page's records. Reading a property of `null` and
   * spreading a value that is not iterable both throw.
   */
  function Interests(page: Json): (r: Result<seq<Json>, Response>)
    ensures page.JNull? ==> r == Err(Generic)
    ensures !page.JNull? && !Present(Member(Some(page), "interests")) ==> r == Ok([])
    ensures !page.JNull? && Present(Member(Some(page), "interests")) ==>
      match Member(Some(page), "interests").value
      case JArray(items) => r == Ok(items)
      case JString(s) => r == Ok(Characters(s))
      case _ => r == Err(Generic)
  {
    if page.JNull? then Err(Generic)
    else
      var v := Member(Some(page), "interests");
      if !Present(v) then Ok([])
      else
        match v.value
        case JArray(items) => Ok(items)
        case JString(s) => Ok(Characters(s))
        case _ => Err(Generic)
  }

  /* ---------------- record mapping ---------------- */

  /** `key: v`, where a property whose value is `undefined` does not survive serialisation. */
  function Defined(m: map<string, Json>, key: string, v: Option<Json>): (r: map<string, Json>)
    ensures v.Some? ==> r == m[key := v.value]
    ensures v.None? ==> r == m
  {
    if v.Some? then m[key := v.value] else m
  }

  /** `item.subject?.<key>`. */
  function SubjectField(item: Json, key: string): Option<Json>
  {
    Member(Member(Some(item), "subject"), key)
  }

  /** `item.rating?.value`. */
  function RatingOf(item: Json): Option<Json>
  {
    Member(Member(Some(item), "rating"), "value")
  }

  /**
   * A mapped record. Optional fields are `undefined` (None) when the upstream record
   * lacks them; serialisation drops those.
   */
  datatype Interest = Interest(
    title: Json, rating: Option<Json>, tags: Option<Json>, comment: Option<Json>,
    createTime: Option<Json>, year: Option<Json>, coverUrl: Json)

  /**
   * The mapped record (lines 57-65): a title that falls back to '未知', the rating's
   * value, the tags, comment and time as given, the subject's year, and a cover that
   * falls back from the large picture to `cover_url` to ''.
   */
  function Record(item: Json): (r: Interest)
    ensures r.title == (if Present(SubjectField(item, "title")) then SubjectField(item, "title").value else JString(UnknownTitle))
    ensures r.coverUrl ==
      (if Present(Member(SubjectField(item, "pic"), "large")) then Member(SubjectField(item, "pic"), "large").value
       else if Present(SubjectField(item, "cover_url")) then SubjectField(item, "cover_url").value
       else JString(""))
    ensures r.rating == RatingOf(item) && r.year == SubjectField(item, "year")
    ensures r.tags == Member(Some(item), "tags") && r.comment == Member(Some(item), "comment")
    ensures r.createTime == Member(Some(item), "create_time")
  {
    var title := Or(SubjectField(item, "title"), Some(JString(UnknownTitle)));
    var cover := Or(Member(SubjectField(item, "pic"), "large"), Or(SubjectField(item, "cover_url"), Some(JString(""))));
    Interest(title.value, RatingOf(item), Member(Some(item), "tags"), Member(Some(item), "comment"),
             Member(Some(item), "create_time"), SubjectField(item, "year"), cover.value)
  }

  /** An optional property: serialised with its value when defined, absent when `undefined`. */
  predicate OptionalField(fields: map<string, Json>, key: string, v: Option<Json>)
  {
    (key in fields <==> v.Some?) && (v.Some? ==> fields[key] == v.value)
  }

  /**
   * The record as it is serialised: always a title and a cover, each optional field
   * exactly when it is defined, and no other property.
   */
  function RecordJson(r: Interest): (j: Json)
    ensures j.JObject?
    ensures "title" in j.fields && j.fields["title"] == r.title
    ensures "cover_url" in j.fields && j.fields["cover_url"] == r.coverUrl
    ensures OptionalField(j.fields, "rating", r.rating) && OptionalField(j.fields, "tags", r.tags)
    ensures OptionalField(j.fields, "comment", r.comment) && OptionalField(j.fields, "create_time", r.createTime)
    ensures OptionalField(j.fields, "year", r.year)
    ensures j.fields.Keys <= {"title", "rating", "tags", "comment", "create_time", "year", "cover_url"}
  {
    var m := map["title" := r.title];
    var m := Defined(m, "rating", r.rating);
    var m := Defined(m, "tags", r.tags);
    var m := Defined(m, "comment", r.comment);
    var m := Defined(m, "create_time", r.createTime);
    var m := Defined(m, "year", r.year);
    JObject(m["cover_url" := r.coverUrl])
  }

  /** `rawInterests.map(...)`: reading `subject` of a `null` record throws. */
  function MapRecords(raw: seq<Json>): (r: Result<seq<Interest>, Response>)
    ensures r.Ok? ==> |r.value| == |raw|
    ensures r.Err? ==> r.error == Generic
  {
    if raw == [] then Ok([])
    else if raw[0].JNull? then Err(Generic)
    else
      match MapRecords(raw[1..])
      case Err(e) => Err(e)
      case Ok(rest) => Ok([Record(raw[0])] + rest)
  }

  /** The mapping succeeds iff no record is `null`, and then maps each record in place. */
  lemma {:induction false} MapRecordsElements(raw: seq<Json>)
    ensures MapRecords(raw).Ok? <==> forall i :: 0 <= i < |raw| ==> !raw[i].JNull?
    ensures MapRecords(raw).Ok? ==> forall i :: 0 <= i < |raw| ==> MapRecords(raw).value[i] == Record(raw[i])
    decreases |raw|
  {
    if raw != [] {
      var rest := raw[1..];
      MapRecordsElements(rest);
      assert forall i :: 1 <= i < |raw| ==> raw[i] == rest[i - 1];
    }
  }

  /** Mapping two lists maps each of them, the first one's records first. */
  lemma MapRecordsAppend(a: seq<Json>, b: seq<Json>)
    requires MapRecords(a + b).Ok?
    ensures MapRecords(a).Ok? && MapRecords(b).Ok?
    ensures MapRecords(a + b).value == MapRecords(a).value + MapRecords(b).value
  {
    var ab := a + b;
    MapRecordsElements(ab);
    MapRecordsElements(a);
    MapRecordsElements(b);
    assert forall i :: 0 <= i < |a| ==> a[i] == ab[i];
    assert forall i :: 0 <= i < |b| ==> b[i] == ab[|a| + i];
    var joined := MapRecords(a).value + MapRecords(b).value;
    assert forall i :: 0 <= i < |ab| ==> MapRecords(ab).value[i] == joined[i];
  }

  /** `item.rating !== undefined && item.rating !== null`. */
  predicate Rated(record: Interest)
  {
    record.rating.Some? && record.rating.value != JNull
  }

  /** The `filter`: the rated records, in their original order. */
  function KeepRated(records: seq<Interest>): (kept: seq<Interest>)
    ensures |kept| <= |records|
    ensures forall r :: r in kept <==> r in records && Rated(r)
  {
    if records == [] then []
    else if Rated(records[0]) then [records[0]] + KeepRated(records[1..])
    else KeepRated(records[1..])
  }

  /** Filtering distributes over concatenation, so order across the two pages is kept. */
  lemma {:induction false} KeepRatedAppend(a: seq<Interest>, b: seq<Interest>)
    ensures KeepRated(a + b) == KeepRated(a) + KeepRated(b)
    decreases |a|
  {
    if a != [] {
      assert (a + b)[1..] == a[1..] + b;
      KeepRatedAppend(a[1..], b);
    } else {
      assert a + b == b;
    }
  }

  /** The records of both pages, mapped and filtered, or the first error met. */
  function Collect(page1: Page, page2: Page): (r: Result<seq<Interest>, Response>)
    ensures FetchData(page1).Err? ==> r == Err(FetchData(page1).error)
    ensures FetchData(page1).Ok? && FetchData(page2).Err? ==> r == Err(FetchData(page2).error)
    ensures r.Ok? ==> forall x :: x in r.value ==> Rated(x)
  {
    match FetchData(page1)
    case Err(e) => Err(e)
    case Ok(body1) =>
      match FetchData(page2)
      case Err(e) => Err(e)
      case Ok(body2) =>
        match Interests(body1)
        case Err(e) => Err(e)
        case Ok(raw1) =>
          match Interests(body2)
          case Err(e) => Err(e)
          case Ok(raw2) =>
            match MapRecords(raw1 + raw2)
            case Err(e) => Err(e)
            case Ok(records) => Ok(KeepRated(records))
  }

  /** A successful collection is page 1's rated records followed by page 2's. */
  lemma CollectOrder(page1: Page, page2: Page)
    requires Collect(page1, page2).Ok?
    ensures var raw1, raw2 := Interests(FetchData(page1).value), Interests(FetchData(page2).value);
      raw1.Ok? && raw2.Ok? && MapRecords(raw1.value).Ok? && MapRecords(raw2.value).Ok?
      && Collect(page1, page2).value == KeepRated(MapRecords(raw1.value).value) + KeepRated(MapRecords(raw2.value).value)
  {
    var raw1, raw2 := Interests(FetchData(page1).value).value, Interests(FetchData(page2).value).value;
    MapRecordsAppend(raw1, raw2);
    KeepRatedAppend(MapRecords(raw1).value, MapRecords(raw2).value);
  }

  /** `{ count: items.length, interests: items }`. */
  function Payload(kept: seq<Interest>): (r: Json)
    ensures r.JObject? && r.fields.Keys == {"count", "interests"}
    ensures r.fields["interests"].JArray? && r.fields["count"] == JNumber(|r.fields["interests"].items|)
    ensures |r.fields["interests"].items| == |kept|
      && forall i :: 0 <= i < |kept| ==> r.fields["interests"].items[i] == RecordJson(kept[i])
  {
    JObject(map["count" := JNumber(|kept|), "interests" := JArray(seq(|kept|, i requires 0 <= i < |kept| => RecordJson(kept[i])))])
  }

  /** `!userId || !type` fails. */
  predicate HasParams(body: Json)
  {
    Present(Member(Some(body), "userId")) && Present(Member(Some(body), "type"))
  }

  /** The cache key of a request that has both parameters. */
  function KeyOf(body: Json): string
    requires HasParams(body)
  {
    CacheKey(ToText(Member(Some(body), "userId").value), ToText(Member(Some(body), "type").value))
  }

  /** The cache threshold. */
  const MinCachedCount := 30

  method Post(body: Json, cache: Cache, now: int, page1: Page, page2: Page) returns (resp: Response)
    modifies cache
    ensures cache.failing == old(cache.failing)
    ensures body.JNull? ==> resp == InternalError && cache.store == old(cache.store)
    ensures !body.JNull? && !HasParams(body) ==> resp == HttpError(400, MissingParams) && cache.store == old(cache.store)
    ensures HasParams(body) ==>
      var seen := if old(cache.failing) then None else Lookup(old(cache.store), KeyOf(body), now);
      && (Present(seen) ==> resp == JsonBody(seen.value) && cache.store == old(cache.store))
      && (!Present(seen) && Collect(page1, page2).Err? ==>
            resp == Collect(page1, page2).error && cache.store == old(cache.store))
      && (!Present(seen) && Collect(page1, page2).Ok? ==>
            var result := Payload(Collect(page1, page2).value);
            && resp == JsonBody(result)
            && cache.store == (if |Collect(page1, page2).value| >= MinCachedCount && !cache.failing
                               then old(cache.store)[KeyOf(body) := Fresh(result, now)]
                               else old(cache.store)))
  {
    if body.JNull? {
      return InternalError;
    }
    if !HasParams(body) {
      return HttpError(400, MissingParams);
    }
    var key := KeyOf(body);
    var cached := cache.Get(key, now);
    if Present(cached) {
      return JsonBody(cached.value);
    }
    var collected := Collect(page1, page2);
    if collected.Err? {
      return collected.error;
    }
    var result := Payload(collected.value);
    if |collected.value| >= MinCachedCount {
      cache.Set(key, result, now);
    }
    resp := JsonBody(result);
  }
}
