/**
 * The FastAPI planning backend: the Google Maps link built from a title, the
 * canned sample answer, cleaning and cutting the JSON object out of the
 * model's reply, and the loops that add an image and a map link to every idea
 * and timeline item before `/generate` answers.
 */
module Backend {
  import opened Options
  import opened JsonValue
  import opened Text

  // ---------------------------------------------------------------- map links

  const MapsSearchPrefix: string := "https://www.google.com/maps/search/?api=1&query="

  /**
   * `make_map_link`: the search URL for `title`, every space turned into `+`
   * and every other character copied as it is (nothing is percent-encoded).
   */
  function MakeMapLink(title: string): (link: string)
    ensures |link| == |MapsSearchPrefix| + |title|
    ensures link[..|MapsSearchPrefix|] == MapsSearchPrefix
    ensures forall i :: 0 <= i < |title| ==>
      link[|MapsSearchPrefix| + i] == if title[i] == ' ' then '+' else title[i]
    ensures ' ' !in link
  {
    ReplaceCharAt(title, ' ', '+');
    var query := Replace(title, " ", "+");
    PrefixHasNoSpace();
    assert ' ' !in query;
    MapsSearchPrefix + query
  }

  lemma PrefixHasNoSpace()
    ensures ' ' !in MapsSearchPrefix
  {
    PrefixPieces();
    FirstPiecesHaveNoSpace();
    LastPiecesHaveNoSpace();
  }

  lemma PrefixPieces()
    ensures MapsSearchPrefix == "https://" + "www.goog" + "le.com/m" + "aps/sear" + "ch/?api=" + "1&query="
  {
  }

  lemma FirstPiecesHaveNoSpace()
    ensures ' ' !in "https://" && ' ' !in "www.goog" && ' ' !in "le.com/m"
  {
  }

  lemma LastPiecesHaveNoSpace()
    ensures ' ' !in "aps/sear" && ' ' !in "ch/?api=" && ' ' !in "1&query="
  {
  }

  // ----------------------------------------------------- cleaning the reply

  const Fence: string := "```"

  /** A code fence "```" starts at index `i` of `s`. */
  predicate FenceAt(s: string, i: int) {
    0 <= i && i + 3 <= |s| && s[i] == '`' && s[i + 1] == '`' && s[i + 2] == '`'
  }

  predicate NoFence(s: string) {
    forall i | 0 <= i < |s| :: !FenceAt(s, i)
  }

  /** Replacement keeps the first character of `s` when no occurrence can start there. */
  lemma FirstKept(s: string, pat: string, rep: string)
    requires |pat| > 0 && |s| > 0 && s[0] != pat[0]
    ensures |Replace(s, pat, rep)| > 0 && Replace(s, pat, rep)[0] == s[0]
  {
    if |s| >= |pat| {
      assert s[..|pat|][0] != pat[0];
    }
  }

  /**
   * Removing every "```" from left to right leaves none behind: two pieces
   * that become neighbours never join into a new fence.
   */
  lemma {:induction false} FenceRemovalLeavesNone(s: string)
    ensures NoFence(Replace(s, Fence, ""))
    decreases |s|
  {
    var r := Replace(s, Fence, "");
    if |s| < 3 {
    } else if s[..3] == Fence {
      FenceRemovalLeavesNone(s[3..]);
      assert r == Replace(s[3..], Fence, "");
    } else {
      FenceRemovalLeavesNone(s[1..]);
      var t := Replace(s[1..], Fence, "");
      assert r == [s[0]] + t;
      if s[0] == '`' {
        if s[1] != '`' {
          FirstKept(s[1..], Fence, "");
        } else {
          assert s[2] != '`';
          if |s| >= 4 {
            assert s[1..][..3] != Fence;
            assert t == [s[1]] + Replace(s[2..], Fence, "");
            FirstKept(s[2..], Fence, "");
          }
        }
      }
      forall i | 0 <= i < |r| ensures !FenceAt(r, i) {
        if i > 0 {
          assert !FenceAt(t, i - 1);
        }
      }
    }
  }

  /**
   * The cleaning step of `generate`: drop every "```json", then every "```",
   * then surrounding whitespace. The result holds no fence and starts and ends
   * with a non-whitespace character (or is empty).
   */
  function CleanFences(raw: string): (cleaned: string)
    ensures NoFence(cleaned)
    ensures IsStripped(cleaned, PyWhitespace)
    ensures '`' !in raw ==> cleaned == PyStrip(raw)
  {
    FencelessReplyKept(raw);
    var withoutTag := Replace(raw, "```json", "");
    FenceRemovalLeavesNone(withoutTag);
    StripKeepsNoFence(Replace(withoutTag, Fence, ""), PyWhitespace);
    PyStrip(Replace(withoutTag, Fence, ""))
  }

  /** A reply wrapped in "```json" and "```" comes out as its stripped content. */
  lemma FencedReplyUnwrapped(x: string)
    requires '`' !in x
    ensures CleanFences("```json" + x + "```") == PyStrip(x)
  {
    var raw := "```json" + x + "```";
    assert raw[..7] == "```json";
    assert raw[7..] == x + "```";
    ReplaceSkipsPlain(x, "```", "```json", "");
    assert Replace(raw, "```json", "") == x + "```";
    ReplaceSkipsPlain(x, "```", Fence, "");
    assert Replace("```", Fence, "") == "";
    assert Replace(x + "```", Fence, "") == x;
  }

  /** A reply without a backtick passes both removals unchanged. */
  lemma FencelessReplyKept(raw: string)
    ensures '`' !in raw ==> Replace(Replace(raw, "```json", ""), Fence, "") == raw
  {
    if '`' !in raw {
      ReplaceAbsent(raw, "```json", "");
      ReplaceAbsent(raw, Fence, "");
    }
  }

  /** Stripping cuts out a middle part, so it cannot create a fence. */
  lemma StripKeepsNoFence(u: string, cs: set<char>)
    requires NoFence(u)
    ensures NoFence(Strip(u, cs))
  {
    var c := Strip(u, cs);
    var a := LeadingCount(u, cs);
    assert forall i | 0 <= i < |c| :: FenceAt(c, i) ==> FenceAt(u, a + i);
  }

  /**
   * `cleaned[cleaned.index("{"): cleaned.rindex("}") + 1]`: None when either
   * brace is missing (the source's ValueError). Otherwise the text from the
   * first `{` to the last `}` inclusive, which is empty when every `}` comes
   * before the first `{` (a Python slice whose end precedes its start).
   */
  function ExtractObjectText(cleaned: string): (r: Option<string>)
    ensures r.None? <==> '{' !in cleaned || '}' !in cleaned
    ensures r.Some? ==>
      (r.value == [] <==> LastIndexOf(cleaned, '}').value < IndexOf(cleaned, '{').value)
    ensures r.Some? && r.value != [] ==>
      r.value[0] == '{' && r.value[|r.value| - 1] == '}'
    ensures r.Some? && r.value != [] ==>
      var i := IndexOf(cleaned, '{').value;
      i + |r.value| <= |cleaned| && r.value == cleaned[i..i + |r.value|] &&
      '{' !in cleaned[..i] && '}' !in cleaned[i + |r.value|..]
  {
    match (IndexOf(cleaned, '{'), LastIndexOf(cleaned, '}'))
    case (Some(i), Some(j)) => Some(if i <= j then cleaned[i..j + 1] else [])
    case _ => None
  }

  // ------------------------------------------------------------ sample answer

  const SampleIdeaImage: string := "https://images.unsplash.com/photo-1504674900947-0f7a2d9ae446?w=400"
  const SampleEventImage: string := "https://images.unsplash.com/photo-1567521464027-f127ff144326?w=400"

  /** `item` is an object whose `link` is the map link of its own string `title`. */
  predicate HasOwnMapLink(item: Json) {
    && item.JObj?
    && "title" in item.fields && item.fields["title"].JStr?
    && "link" in item.fields
    && item.fields["link"] == JStr(MakeMapLink(item.fields["title"].s))
  }

  /**
   * `_sample(query)`: one idea and one timeline event, whatever the query,
   * each linked to the map search for its own title.
   */
  function Sample(query: string): (r: Json)
    ensures r.JObj? && r.fields.Keys == {"ideas", "timeline"}
    ensures r.fields["ideas"].JArr? && |r.fields["ideas"].items| == 1
    ensures r.fields["timeline"].JArr? && |r.fields["timeline"].items| == 1
    ensures HasOwnMapLink(r.fields["ideas"].items[0])
    ensures HasOwnMapLink(r.fields["timeline"].items[0])
    ensures HasImage(r.fields["ideas"].items[0].fields)
    ensures HasImage(r.fields["timeline"].items[0].fields)
  {
    JObj(map[
      "ideas" := JArr([JObj(map[
        "title" := JStr("Sample Trip"),
        "description" := JStr("AI disabled \U{2014} sample idea."),
        "image" := JStr(SampleIdeaImage),
        "link" := JStr(MakeMapLink("Sample Trip"))])]),
      "timeline" := JArr([JObj(map[
        "time" := JStr("Day 1, 9:00 AM"),
        "title" := JStr("Sample Event"),
        "description" := JStr("Timeline sample event."),
        "image" := JStr(SampleEventImage),
        "link" := JStr(MakeMapLink("Sample Event"))])])])
  }

  /** The query is not used: every call gives the same sample. */
  lemma SampleIgnoresQuery(q1: string, q2: string)
    ensures Sample(q1) == Sample(q2)
  {
  }

  // --------------------------------------------------------------- enrichment

  /** The enrichment loop body can run on `item` without raising. */
  predicate Enrichable(item: Json) {
    item.JObj? && "title" in item.fields && item.fields["title"].JStr?
  }

  /** The value of `image` in `f` is present and truthy, so the loop leaves it. */
  predicate HasImage(f: map<string, Json>) {
    "image" in f && PyTruthy(f["image"])
  }

  /**
   * One pass of the loop body over an idea or timeline item: a missing or
   * falsy `image` is filled from the image lookup (or ""), `link` is always
   * overwritten with the map link of `title`, and nothing else changes. None
   * when Python raises: the item is not a dict, has no `title`, or its title is
   * not a string (`make_map_link` calls `str.replace` on it).
   */
  function EnrichedItem(item: Json, image: string -> Option<string>): (r: Option<Json>)
    ensures r.Some? <==> Enrichable(item)
    ensures r.Some? ==> HasOwnMapLink(r.value)
    ensures r.Some? ==>
      var f, g := item.fields, r.value.fields;
      && g.Keys == f.Keys + {"image", "link"}
      && g["title"] == f["title"]
      && (forall k :: k in f && k != "image" && k != "link" ==> g[k] == f[k])
      && (HasImage(f) ==> g["image"] == f["image"])
      && (!HasImage(f) ==> g["image"] == JStr(image(f["title"].s).GetOr("")))
  {
    if Enrichable(item) then
      var f := item.fields;
      var title := f["title"].s;
      var withImage := if HasImage(f) then f else f["image" := JStr(image(title).GetOr(""))];
      Some(JObj(withImage["link" := JStr(MakeMapLink(title))]))
    else
      None
  }

  /** The loop over a whole list: None as soon as one item makes Python raise. */
  function EnrichedItems(items: seq<Json>, image: string -> Option<string>): (r: Option<seq<Json>>)
    ensures r.Some? <==> forall k :: 0 <= k < |items| ==> Enrichable(items[k])
    ensures r.Some? ==> |r.value| == |items|
    ensures r.Some? ==> forall k :: 0 <= k < |items| ==> EnrichedItem(items[k], image) == Some(r.value[k])
  {
    if forall k :: 0 <= k < |items| ==> Enrichable(items[k]) then
      Some(seq(|items|, k requires 0 <= k < |items| => EnrichedItem(items[k], image).value))
    else
      None
  }

  /**
   * `for item in data.get(key, [])` runs without raising: the key is missing
   * (the default empty list), its value is an empty string or an empty object
   * (nothing to iterate), or it is a list of items the loop body accepts.
   */
  predicate Iterable(data: map<string, Json>, key: string) {
    key !in data ||
    match data[key]
    case JStr(s) => s == ""
    case JObj(f) => f == map[]
    case JArr(items) => forall k :: 0 <= k < |items| ==> Enrichable(items[k])
    case _ => false
  }

  /**
   * `for item in data.get(key, [])` with the loop body above: a missing key
   * iterates over nothing; a list is enriched in place; an empty string or
   * empty object also iterates over nothing; anything else makes Python raise
   * (a non-iterable, or characters and keys that have no `.get`).
   */
  function EnrichedField(data: map<string, Json>, key: string, image: string -> Option<string>)
    : (r: Option<map<string, Json>>)
    ensures r.Some? <==> Iterable(data, key)
    ensures r.Some? ==> r.value.Keys == data.Keys
    ensures r.Some? && (key !in data || !data[key].JArr?) ==> r.value == data
    ensures r.Some? && key in data && data[key].JArr? ==>
      r.value[key] == JArr(EnrichedItems(data[key].items, image).value)
    ensures r.Some? ==> forall k :: k in data && k != key ==> r.value[k] == data[k]
  {
    if key !in data then Some(data)
    else match data[key]
      case JArr(items) =>
        (match EnrichedItems(items, image)
         case Some(e) => Some(data[key := JArr(e)])
         case None => None)
      case JStr(s) => if s == "" then Some(data) else None
      case JObj(f) => if f == map[] then Some(data) else None
      case _ => None
  }

  /** Both loops of `generate` over the parsed reply: ideas first, then the timeline. */
  function EnrichedData(data: Json, image: string -> Option<string>): (r: Option<Json>)
    ensures r.Some? <==> data.JObj? && Iterable(data.fields, "ideas") && Iterable(data.fields, "timeline")
    ensures r.Some? ==> data.JObj? && r.value.JObj? && r.value.fields.Keys == data.fields.Keys
    ensures r.Some? ==> forall k :: k in data.fields && k != "ideas" && k != "timeline" ==>
      r.value.fields[k] == data.fields[k]
    ensures r.Some? && "ideas" in data.fields && !data.fields["ideas"].JArr? ==>
      r.value.fields["ideas"] == data.fields["ideas"]
    ensures r.Some? && "timeline" in data.fields && !data.fields["timeline"].JArr? ==>
      r.value.fields["timeline"] == data.fields["timeline"]
  {
    if !data.JObj? then None
    else match EnrichedField(data.fields, "ideas", image)
      case None => None
      case Some(d) =>
        match EnrichedField(d, "timeline", image)
        case None => None
        case Some(e) => Some(JObj(e))
  }

  /**
   * Every idea and timeline item that the enrichment returns carries the map
   * link of its own title; the number and order of items are kept and every
   * other top-level field is untouched.
   */
  lemma {:induction false} EnrichedDataLinks(data: Json, image: string -> Option<string>, key: string)
    requires EnrichedData(data, image).Some?
    requires key == "ideas" || key == "timeline"
    requires key in data.fields && data.fields[key].JArr?
    ensures var out := EnrichedData(data, image).value.fields;
      && out[key].JArr?
      && |out[key].items| == |data.fields[key].items|
      && forall i :: 0 <= i < |out[key].items| ==>
           HasOwnMapLink(out[key].items[i]) &&
           EnrichedItem(data.fields[key].items[i], image) == Some(out[key].items[i])
  {
    var d := EnrichedField(data.fields, "ideas", image).value;
    var e := EnrichedField(d, "timeline", image).value;
    if key == "ideas" {
      assert d[key] == JArr(EnrichedItems(data.fields[key].items, image).value);
      assert e[key] == d[key];
    } else {
      assert d[key] == data.fields[key];
      assert e[key] == JArr(EnrichedItems(d[key].items, image).value);
    }
  }

  /**
   * Enriching an item twice gives what enriching it once gives, provided the
   * image lookup answers the same for the same title.
   */
  lemma EnrichedItemIdempotent(item: Json, image: string -> Option<string>)
    requires Enrichable(item)
    ensures EnrichedItem(EnrichedItem(item, image).value, image) == EnrichedItem(item, image)
  {
    var f := item.fields;
    var once := EnrichedItem(item, image).value.fields;
    var twice := EnrichedItem(JObj(once), image).value.fields;
    assert once["title"] == f["title"];
    assert twice["image"] == once["image"] by {
      if !HasImage(f) && !HasImage(once) {
        assert twice["image"] == JStr(image(f["title"].s).GetOr(""));
      }
    }
    assert twice["link"] == once["link"];
    assert twice.Keys == once.Keys;
    assert forall k :: k in once ==> twice[k] == once[k];
    assert twice == once;
  }

  /** An item that already has a truthy image and its own map link is left as it is. */
  lemma EnrichedItemFixedPoint(item: Json, image: string -> Option<string>)
    requires HasOwnMapLink(item) && HasImage(item.fields)
    ensures EnrichedItem(item, image) == Some(item)
  {
    var f := item.fields;
    var g := EnrichedItem(item, image).value.fields;
    assert g["title"] == f["title"];
    assert g["link"] == f["link"];
    assert g["image"] == f["image"];
    assert g.Keys == f.Keys;
    assert forall k :: k in g ==> g[k] == f[k];
    assert g == f;
  }

  /** A list whose items all carry a truthy image and their own map link. */
  predicate AllEnriched(v: Json) {
    v.JArr? && forall i :: 0 <= i < |v.items| ==> HasOwnMapLink(v.items[i]) && HasImage(v.items[i].fields)
  }

  /** A list already in enriched form comes back from the loop unchanged. */
  lemma EnrichedItemsFixedPoint(items: seq<Json>, image: string -> Option<string>)
    requires AllEnriched(JArr(items))
    ensures EnrichedItems(items, image) == Some(items)
  {
    forall k | 0 <= k < |items| ensures EnrichedItem(items[k], image) == Some(items[k]) {
      EnrichedItemFixedPoint(items[k], image);
    }
    assert EnrichedItems(items, image).value == items;
  }

  /**
   * Data whose ideas and timeline are already in enriched form is returned
   * unchanged by both loops, whatever the image lookup answers.
   */
  lemma EnrichedDataFixedPoint(data: map<string, Json>, image: string -> Option<string>)
    requires "ideas" in data && AllEnriched(data["ideas"])
    requires "timeline" in data && AllEnriched(data["timeline"])
    ensures EnrichedData(JObj(data), image) == Some(JObj(data))
  {
    EnrichedItemsFixedPoint(data["ideas"].items, image);
    EnrichedItemsFixedPoint(data["timeline"].items, image);
    assert data["ideas" := JArr(data["ideas"].items)] == data;
    assert data["timeline" := JArr(data["timeline"].items)] == data;
  }

  /** The sample is already in enriched form: the loops would give it back unchanged. */
  lemma SampleAlreadyEnriched(query: string, image: string -> Option<string>)
    ensures EnrichedData(Sample(query), image) == Some(Sample(query))
  {
    var s := Sample(query);
    assert AllEnriched(s.fields["ideas"]);
    assert AllEnriched(s.fields["timeline"]);
    EnrichedDataFixedPoint(s.fields, image);
  }

  /** The loop over one list, updating each item in place; proved against `EnrichedItems`. */
  method EnrichItems(items: seq<Json>, image: string -> Option<string>) returns (r: Option<seq<Json>>)
    ensures r == EnrichedItems(items, image)
  {
    var out := items;
    var i := 0;
    while i < |out|
      invariant 0 <= i <= |out| == |items|
      invariant forall k :: 0 <= k < i ==> EnrichedItem(items[k], image) == Some(out[k])
      invariant forall k :: i <= k < |out| ==> out[k] == items[k]
    {
      var item := out[i];
      if !Enrichable(item) {
        return None;
      }
      var fields := item.fields;
      var title := fields["title"].s;
      if !HasImage(fields) {
        fields := fields["image" := JStr(image(title).GetOr(""))];
      }
      fields := fields["link" := JStr(MakeMapLink(title))];
      out := out[i := JObj(fields)];
      i := i + 1;
    }
    assert forall k :: 0 <= k < |items| ==> Enrichable(items[k]);
    assert out == EnrichedItems(items, image).value;
    return Some(out);
  }

  /** `for item in data.get(key, [])` over one top-level field; proved against `EnrichedField`. */
  method EnrichField(data: map<string, Json>, key: string, image: string -> Option<string>)
    returns (r: Option<map<string, Json>>)
    ensures r == EnrichedField(data, key, image)
  {
    if key !in data {
      return Some(data);
    }
    match data[key]
    case JArr(items) =>
      var e := EnrichItems(items, image);
      if e.None? {
        return None;
      }
      return Some(data[key := JArr(e.value)]);
    case JStr(s) =>
      return if s == "" then Some(data) else None;
    case JObj(f) =>
      return if f == map[] then Some(data) else None;
    case _ =>
      return None;
  }

  // ------------------------------------------------------------ the endpoint

  /** The body `/generate` declares (`GenerateRequest`). */
  datatype GenerateRequest = GenerateRequest(query: string, date: string)

  /**
   * Request validation as declared: `query` and `date` are both required
   * strings; other fields are ignored. None means FastAPI answers 422 before
   * `generate` runs.
   */
  function ValidateGenerateRequest(body: Json): (r: Option<GenerateRequest>)
    ensures r.Some? <==>
      body.JObj? && "query" in body.fields && body.fields["query"].JStr? &&
      "date" in body.fields && body.fields["date"].JStr?
    ensures r.Some? ==> r.value == GenerateRequest(body.fields["query"].s, body.fields["date"].s)
  {
    if body.JObj? && "query" in body.fields && body.fields["query"].JStr? &&
       "date" in body.fields && body.fields["date"].JStr?
    then Some(GenerateRequest(body.fields["query"].s, body.fields["date"].s))
    else None
  }

  /**
   * The validation with `date` optional and "" by default, so that a body
   * carrying only a query is accepted; a `date` that is present must still be
   * a string.
   */
  function ValidateGenerateRequestDateOptional(body: Json): (r: Option<GenerateRequest>)
    ensures r.Some? <==>
      body.JObj? && "query" in body.fields && body.fields["query"].JStr? &&
      ("date" in body.fields ==> body.fields["date"].JStr?)
    ensures r.Some? ==> r.value.query == body.fields["query"].s
    ensures r.Some? && "date" !in body.fields ==> r.value.date == ""
    ensures ValidateGenerateRequest(body).Some? ==> r == ValidateGenerateRequest(body)
  {
    if body.JObj? && "query" in body.fields && body.fields["query"].JStr? then
      if "date" !in body.fields then Some(GenerateRequest(body.fields["query"].s, ""))
      else if body.fields["date"].JStr? then Some(GenerateRequest(body.fields["query"].s, body.fields["date"].s))
      else None
    else None
  }

  /** What the Gemini step gave: no client configured, the call raised, or the text of the first part (possibly None). */
  datatype AiReply = NoClient | CallFailed | Replied(text: Option<string>)

  /** The endpoint's answer: a JSON body, or an exception FastAPI turns into HTTP 500. */
  datatype Response = Served(body: Json) | InternalError

  /**
   * `generate`: the sample when there is no client, when the Gemini call
   * raises, when no braces are found or when the JSON does not parse;
   * otherwise the parsed object with both enrichment loops applied. `parse`
   * stands for `json.loads` and `image` for `fetch_google_image`.
   */
  method Generate(query: string, ai: AiReply, parse: string -> Option<Json>, image: string -> Option<string>)
    returns (r: Response)
    requires parse("").None?  // `json.loads("")` always raises
    ensures ai.NoClient? || ai.CallFailed? ==> r == Served(Sample(query))
    ensures ai == Replied(None) ==> r == InternalError
    ensures ai.Replied? && ai.text.Some? ==>
      var extracted := ExtractObjectText(CleanFences(ai.text.value));
      && (extracted.None? ==> r == Served(Sample(query)))
      && (extracted.Some? && parse(extracted.value).None? ==> r == Served(Sample(query)))
      && (extracted.Some? && parse(extracted.value).Some? ==>
            r == match EnrichedData(parse(extracted.value).value, image)
                 case Some(d) => Served(d)
                 case None => InternalError)
  {
    if ai.NoClient? || ai.CallFailed? {
      return Served(Sample(query));
    }
    if ai.text.None? {
      return InternalError;
    }
    var cleaned := CleanFences(ai.text.value);
    var extracted := ExtractObjectText(cleaned);
    if extracted.None? {
      return Served(Sample(query));
    }
    var parsed := parse(extracted.value);
    if parsed.None? {
      return Served(Sample(query));
    }
    var data := parsed.value;
    if !data.JObj? {
      return InternalError;
    }
    var withIdeas := EnrichField(data.fields, "ideas", image);
    if withIdeas.None? {
      return InternalError;
    }
    var withTimeline := EnrichField(withIdeas.value, "timeline", image);
    if withTimeline.None? {
      return InternalError;
    }
    return Served(JObj(withTimeline.value));
  }
}
