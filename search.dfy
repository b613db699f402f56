/** The search providers (src/tools/search.py): how each provider's response
    becomes a list of `Source`s. The HTTP exchanges are oracles that return
    the decoded JSON response, or `None` when the request raises; `now` is
    the ISO 8601 time stamped on every source of one search. Every provider
    catches all exceptions and returns an empty list instead. */
module Search {
  import opened Text
  import opened Json
  import opened State

  const TavilyName: string := "tavily"
  const WikipediaName: string := "wikipedia"
  const SerperName: string := "serper"

  // ------------------------------------------------------ reading values

  /** `v.get(key, default)` read as text: `None` when `v` is not a dictionary
      or the stored value is not a string. */
  function TextField(v: Value, key: string, default: string): (r: Option<string>)
    ensures !v.Dict? ==> r.None?
    ensures v.Dict? && key !in v.entries ==> r == Some(default)
    ensures v.Dict? && key in v.entries ==>
      (r.Some? <==> v.entries[key].Str?) && (r.Some? ==> r.value == v.entries[key].s)
  {
    if !v.Dict? then None
    else if key !in v.entries then Some(default)
    else if v.entries[key].Str? then Some(v.entries[key].s)
    else None
  }

  /** The items of `v.get(key, [])`: `None` when `v` is not a dictionary or
      the value is not a list (iterating any other value either raises or
      yields items whose `.get` raises, and the search returns no sources
      either way). */
  function ListField(v: Value, key: string): (r: Option<seq<Value>>)
    ensures r.Some? ==> v.Dict?
    ensures v.Dict? && key !in v.entries ==> r == Some([])
    ensures v.Dict? && key in v.entries && v.entries[key].List? ==> r == Some(v.entries[key].items)
  {
    if !v.Dict? then None
    else if key !in v.entries then Some([])
    else if v.entries[key].List? then Some(v.entries[key].items)
    else None
  }

  /** Python's `xs[:m]` for any integer `m`. */
  function SlicePrefix<T>(xs: seq<T>, m: int): (r: seq<T>)
    ensures r <= xs
    ensures m >= 0 ==> |r| == Min(m, |xs|)
    ensures m < 0 ==> |r| == (if |xs| + m < 0 then 0 else |xs| + m)
  {
    if m >= 0 then Take(xs, m)
    else if |xs| + m < 0 then []
    else xs[..|xs| + m]
  }

  /** The sources of a response whose items map one by one, or `None` as
      soon as one item fails. */
  function Collect(items: seq<Value>, toSource: Value -> Option<Source>): (r: Option<seq<Source>>)
    ensures r.Some? <==> forall i :: 0 <= i < |items| ==> toSource(items[i]).Some?
    ensures r.Some? ==> |r.value| == |items|
    ensures r.Some? ==> forall i :: 0 <= i < |items| ==> r.value[i] == toSource(items[i]).value
  {
    if forall i :: 0 <= i < |items| ==> toSource(items[i]).Some? then
      Some(seq(|items|, i requires 0 <= i < |items| => toSource(items[i]).value))
    else None
  }

  /** The loop every provider runs: one source per item in response order,
      and no sources at all once an item raises. */
  method MapResults(items: seq<Value>, toSource: Value -> Option<Source>) returns (sources: seq<Source>)
    ensures sources == Collect(items, toSource).GetOr([])
  {
    sources := [];
    for i := 0 to |items|
      invariant |sources| == i
      invariant forall k :: 0 <= k < i ==> toSource(items[k]).Some? && sources[k] == toSource(items[k]).value
    {
      var source := toSource(items[i]);
      if source.None? {
        return [];
      }
      sources := sources + [source.value];
    }
  }

  // ---------------------------------------------------------------- Tavily

  /** The request `TavilyClient.search` receives. */
  datatype TavilyRequest = TavilyRequest(apiKey: string, query: string, searchDepth: string,
                                         maxResults: int, includeAnswer: bool)

  /** The client object; only the key it was built with is modelled. */
  datatype TavilyClient = TavilyClient(apiKey: string)

  /** One Tavily result: missing url and content read as empty, a missing
      title as "Untitled". */
  function TavilySource(item: Value, query: string, now: string): (r: Option<Source>)
    ensures r.Some? ==> r.value.query == query && r.value.provider == TavilyName
    ensures item.Dict? && item.entries == map[] ==>
      r == Some(NewSource("", "Untitled", "", query, TavilyName, now))
  {
    var url := TextField(item, "url", "");
    var title := TextField(item, "title", "Untitled");
    var content := TextField(item, "content", "");
    if url.Some? && title.Some? && content.Some? then
      Some(NewSource(url.value, title.value, content.value, query, TavilyName, now))
    else None
  }

  function TavilySources(response: Option<Value>, query: string, now: string): (r: seq<Source>)
    ensures r != [] ==> response.Some? && ListField(response.value, "results").Some?
                        && |r| == |ListField(response.value, "results").value|
  {
    if response.None? then []
    else match ListField(response.value, "results")
      case None => []
      case Some(items) => Collect(items, item => TavilySource(item, query, now)).GetOr([])
  }

  class TavilySearch {
    const apiKey: string
    var client: Option<TavilyClient>

    constructor (apiKey: string)
      ensures this.apiKey == apiKey && client == None && Valid()
    {
      this.apiKey := apiKey;
      client := None;
    }

    /** The client, once built, is the one for this provider's key. */
    ghost predicate Valid()
      reads this
    {
      client.None? || client == Some(TavilyClient(apiKey))
    }

    /** The `client` property: built on first use and reused after. */
    method Client() returns (c: TavilyClient)
      requires Valid()
      modifies this
      ensures c == TavilyClient(apiKey) && client == Some(c)
      ensures old(client).Some? ==> c == old(client).value
    {
      if client.None? {
        client := Some(TavilyClient(apiKey));
      }
      c := client.value;
    }

    /** `TavilySearch.search`: `respond` stands for the client call on an
        advanced-depth request that asks for an answer. */
    method Search(query: string, maxResults: int, respond: TavilyRequest -> Option<Value>, now: string)
      returns (sources: seq<Source>)
      requires Valid()
      modifies this
      ensures Valid() && client == Some(TavilyClient(apiKey))
      ensures sources == TavilySources(respond(TavilyRequest(apiKey, query, "advanced", maxResults, true)), query, now)
    {
      var c := Client();
      var response := respond(TavilyRequest(c.apiKey, query, "advanced", maxResults, true));
      if response.None? {
        return [];
      }
      var items := ListField(response.value, "results");
      if items.None? {
        return [];
      }
      sources := MapResults(items.value, item => TavilySource(item, query, now));
    }
  }

  // ------------------------------------------------------------- Wikipedia

  const SpanOpen: string := "<span class=\"searchmatch\">"
  const SpanClose: string := "</span>"
  const WikiBase: string := "https://en.wikipedia.org/wiki/"
  const WikiTitlePrefix: string := "Wikipedia: "
  const ExtractLimit: nat := 2000

  /** The snippet with the search-match highlighting removed. */
  function CleanSnippet(raw: string): (r: string)
    ensures |r| <= |raw|
  {
    RemoveShortens(raw, SpanOpen);
    RemoveShortens(ReplaceAll(raw, SpanOpen, ""), SpanClose);
    ReplaceAll(ReplaceAll(raw, SpanOpen, ""), SpanClose, "")
  }

  /** A snippet without highlighting is kept as it is. */
  lemma PlainSnippetUnchanged(raw: string)
    requires !HasInfix(raw, SpanOpen) && !HasInfix(raw, SpanClose)
    ensures CleanSnippet(raw) == raw
  {
    ReplaceAbsent(raw, SpanOpen, "");
    ReplaceAbsent(raw, SpanClose, "");
  }

  /** A snippet with one highlighted match loses both tags and keeps the
      text around and inside them, provided the tags it shows are the first
      of their kind (no other tag, and none straddling a join). */
  lemma HighlightRemoved(a: string, b: string, c: string)
    requires forall i :: 0 <= i < |a| ==> !MatchAt(a + SpanOpen + (b + SpanClose + c), SpanOpen, i)
    requires !HasInfix(b + SpanClose + c, SpanOpen)
    requires forall i :: 0 <= i < |a + b| ==> !MatchAt(a + b + SpanClose + c, SpanClose, i)
    requires !HasInfix(c, SpanClose)
    ensures CleanSnippet(a + SpanOpen + b + SpanClose + c) == a + b + c
  {
    RemoveTagPair(a, b, c, SpanOpen, SpanClose);
  }

  /** The content of a Wikipedia source: the first page's extract (the
      snippet when the page has none) cut to 2000 characters, and the
      snippet when that is falsy. A truthy extract that is not a string is
      `None`. */
  function WikiContent(pages: seq<Value>, snippet: string): (r: Option<string>)
    ensures r.Some? ==> r.value == snippet || (|r.value| <= ExtractLimit && r.value != "")
    ensures pages == [] ==> r == Some(snippet)
    ensures pages != [] && !pages[0].Dict? ==> r.None?
    ensures pages != [] && pages[0].Dict? && "extract" !in pages[0].entries ==>
              r == Some(Take(snippet, ExtractLimit))
    ensures pages != [] && pages[0].Dict? && "extract" in pages[0].entries ==>
              var extract := pages[0].entries["extract"];
              && (!Truthy(extract) ==> r == Some(snippet))
              && (extract.Str? && extract.s != "" ==> r == Some(Take(extract.s, ExtractLimit)))
              && (Truthy(extract) && !extract.Str? ==> r.None?)
  {
    var content := if pages == [] then Some(Str(""))
                   else if pages[0].Dict? then Some(Get(pages[0].entries, "extract", Str(snippet)))
                   else None;
    if content.None? then None
    else if !Truthy(content.value) then Some(snippet)
    else if content.value.Str? then Some(Take(content.value.s, ExtractLimit))
    else None
  }

  /** One Wikipedia search hit. `extract` stands for the second request for
      the article's intro: it returns the values of the response's
      `query.pages` object in response order, or `None` when the request or
      that walk raises. */
  function WikiSource(item: Value, extract: string -> Option<seq<Value>>, query: string, now: string)
    : (r: Option<Source>)
    ensures r.Some? ==> r.value.query == query && r.value.provider == WikipediaName
    ensures r.Some? ==> TextField(item, "title", "").Some?
    ensures r.Some? ==> var title := TextField(item, "title", "").value;
      && r.value.title == WikiTitlePrefix + title
      && r.value.url == WikiBase + Quote(title)
  {
    var title := TextField(item, "title", "");
    var raw := TextField(item, "snippet", "");
    if title.None? || raw.None? then None
    else
      var snippet := CleanSnippet(raw.value);
      var pages := extract(title.value);
      if pages.None? then None
      else
        var content := WikiContent(pages.value, snippet);
        if content.None? then None
        else Some(NewSource(WikiBase + Quote(title.value), WikiTitlePrefix + title.value,
                            content.value, query, WikipediaName, now))
  }

  /** The hits of a search response (`data["query"]["search"]`). */
  function WikiHits(data: Value): Option<seq<Value>> {
    if !data.Dict? then None
    else
      var q := Get(data.entries, "query", Dict(map[]));
      ListField(q, "search")
  }

  function WikipediaSources(data: Option<Value>, extract: string -> Option<seq<Value>>,
                            query: string, now: string): (r: seq<Source>)
    ensures r != [] ==> data.Some? && WikiHits(data.value).Some? && |r| == |WikiHits(data.value).value|
  {
    if data.None? then []
    else match WikiHits(data.value)
      case None => []
      case Some(hits) => Collect(hits, item => WikiSource(item, extract, query, now)).GetOr([])
  }

  /** `WikipediaSearch.search`: `find` stands for the search request with
      `srlimit` set to `maxResults`. */
  method WikipediaSearch(query: string, maxResults: int, find: (string, int) -> Option<Value>,
                         extract: string -> Option<seq<Value>>, now: string)
    returns (sources: seq<Source>)
    ensures sources == WikipediaSources(find(query, maxResults), extract, query, now)
  {
    var data := find(query, maxResults);
    if data.None? {
      return [];
    }
    var hits := WikiHits(data.value);
    if hits.None? {
      return [];
    }
    sources := MapResults(hits.value, item => WikiSource(item, extract, query, now));
  }

  // ----------------------------------------------------------- url quoting

  /** The characters `urllib.parse.quote` leaves alone with its default
      `safe="/"`: ASCII letters and digits, `_.-~` and the slash. */
  predicate QuoteSafe(c: char) {
    IsAlnum(c) || c == '_' || c == '.' || c == '-' || c == '~' || c == '/'
  }

  const HexDigits: string := "0123456789ABCDEF"

  predicate IsHexDigit(c: char) { c in HexDigits }

  /** The UTF-8 encoding of a character. */
  function Utf8(c: char): (bytes: seq<nat>)
    ensures 1 <= |bytes| <= 4
    ensures forall i :: 0 <= i < |bytes| ==> bytes[i] < 256
    ensures c as int < 0x80 ==> bytes == [c as int]
  {
    var cp := c as int;
    if cp < 0x80 then [cp]
    else if cp < 0x800 then [0xC0 + cp / 64, 0x80 + cp % 64]
    else if cp < 0x10000 then [0xE0 + cp / 4096, 0x80 + (cp / 64) % 64, 0x80 + cp % 64]
    else [0xF0 + cp / 262144 % 8, 0x80 + (cp / 4096) % 64, 0x80 + (cp / 64) % 64, 0x80 + cp % 64]
  }

  /** `%XY` for one byte, upper-case hex as Python writes it. */
  function PercentByte(b: nat): (r: string)
    requires b < 256
    ensures |r| == 3 && r[0] == '%' && IsHexDigit(r[1]) && IsHexDigit(r[2])
  {
    ['%', HexDigits[b / 16], HexDigits[b % 16]]
  }

  function PercentBytes(bytes: seq<nat>): (r: string)
    requires forall i :: 0 <= i < |bytes| ==> bytes[i] < 256
    ensures |r| == 3 * |bytes|
    ensures forall i :: 0 <= i < |r| ==> r[i] == '%' || IsHexDigit(r[i])
  {
    if bytes == [] then []
    else
      var head := PercentByte(bytes[0]);
      var tail := PercentBytes(bytes[1..]);
      assert forall i :: 0 <= i < |head + tail| ==> (head + tail)[i] == (if i < 3 then head[i] else tail[i - 3]);
      head + tail
  }

  function QuoteChar(c: char): (r: string)
    ensures QuoteSafe(c) ==> r == [c]
    ensures r != []
  {
    if QuoteSafe(c) then [c] else PercentBytes(Utf8(c))
  }

  /** `urllib.parse.quote(s)`. */
  function Quote(s: string): (r: string)
    ensures forall i :: 0 <= i < |r| ==> QuoteSafe(r[i]) || r[i] == '%' || IsHexDigit(r[i])
  {
    if s == [] then []
    else
      var head := QuoteChar(s[0]);
      var tail := Quote(s[1..]);
      assert forall i :: 0 <= i < |head + tail| ==> (head + tail)[i] == (if i < |head| then head[i] else tail[i - |head|]);
      head + tail
  }

  /** A title made only of safe characters appears in the url unchanged. */
  lemma {:induction false} QuoteSafeIdentity(s: string)
    requires forall i :: 0 <= i < |s| ==> QuoteSafe(s[i])
    ensures Quote(s) == s
  {
    if s != [] {
      QuoteSafeIdentity(s[1..]);
    }
  }

  function HexValue(c: char): nat
    requires IsHexDigit(c)
    ensures HexValue(c) < 16 && HexDigits[HexValue(c)] == c
  {
    if c == '0' then 0 else if c == '1' then 1 else if c == '2' then 2 else if c == '3' then 3
    else if c == '4' then 4 else if c == '5' then 5 else if c == '6' then 6 else if c == '7' then 7
    else if c == '8' then 8 else if c == '9' then 9 else if c == 'A' then 10 else if c == 'B' then 11
    else if c == 'C' then 12 else if c == 'D' then 13 else if c == 'E' then 14 else 15
  }

  /** `urllib.parse.unquote` on ASCII escapes: every `%XY` becomes the
      character with code `XY`. */
  function Unquote(t: string): string {
    if |t| >= 3 && t[0] == '%' && IsHexDigit(t[1]) && IsHexDigit(t[2]) then
      [(16 * HexValue(t[1]) + HexValue(t[2])) as char] + Unquote(t[3..])
    else if t == [] then []
    else [t[0]] + Unquote(t[1..])
  }

  /** Quoting loses nothing: an ASCII title is recovered from its url. */
  lemma {:induction false} QuoteRoundTrip(s: string)
    requires forall i :: 0 <= i < |s| ==> s[i] as int < 0x80
    ensures Unquote(Quote(s)) == s
  {
    if s != [] {
      QuoteRoundTrip(s[1..]);
      var c := s[0];
      var tail := Quote(s[1..]);
      assert Quote(s) == QuoteChar(c) + tail;
      if QuoteSafe(c) {
        assert (QuoteChar(c) + tail)[1..] == tail;
      } else {
        var p := PercentByte(c as int);
        assert QuoteChar(c) == p + [] by {
          assert PercentBytes([c as int]) == p + PercentBytes([]);
        }
        assert (p + tail)[3..] == tail;
        assert HexDigits[(c as int) / 16] == p[1] && HexDigits[(c as int) % 16] == p[2];
        HexInjective(p[1], (c as int) / 16);
        HexInjective(p[2], (c as int) % 16);
      }
    }
  }

  lemma HexInjective(h: char, d: nat)
    requires d < 16 && HexDigits[d] == h
    ensures HexValue(h) == d
  {
  }

  // ---------------------------------------------------------------- Serper

  /** One organic Serper result: its link, title (default "Untitled") and
      snippet. */
  function SerperSource(item: Value, query: string, now: string): (r: Option<Source>)
    ensures r.Some? ==> r.value.query == query && r.value.provider == SerperName
    ensures item.Dict? && item.entries == map[] ==>
      r == Some(NewSource("", "Untitled", "", query, SerperName, now))
  {
    var url := TextField(item, "link", "");
    var title := TextField(item, "title", "Untitled");
    var content := TextField(item, "snippet", "");
    if url.Some? && title.Some? && content.Some? then
      Some(NewSource(url.value, title.value, content.value, query, SerperName, now))
    else None
  }

  function SerperSources(data: Option<Value>, maxResults: int, query: string, now: string): (r: seq<Source>)
    ensures r != [] ==> data.Some? && ListField(data.value, "organic").Some?
                        && |r| == |SlicePrefix(ListField(data.value, "organic").value, maxResults)|
  {
    if data.None? then []
    else match ListField(data.value, "organic")
      case None => []
      case Some(items) => Collect(SlicePrefix(items, maxResults), item => SerperSource(item, query, now)).GetOr([])
  }

  class SerperSearch {
    const apiKey: string

    constructor (apiKey: string)
      ensures this.apiKey == apiKey
    {
      this.apiKey := apiKey;
    }

    /** `SerperSearch.search`: `post` stands for the request carrying the
        key, the query and `num = maxResults`. */
    method Search(query: string, maxResults: int, post: (string, string, int) -> Option<Value>, now: string)
      returns (sources: seq<Source>)
      ensures sources == SerperSources(post(apiKey, query, maxResults), maxResults, query, now)
    {
      var data := post(apiKey, query, maxResults);
      if data.None? {
        return [];
      }
      var items := ListField(data.value, "organic");
      if items.None? {
        return [];
      }
      sources := MapResults(SlicePrefix(items.value, maxResults), item => SerperSource(item, query, now));
    }
  }

  // ---------------------------------------------------------------- lemmas

  /** Every source a Tavily search yields carries the query and the
      provider's name. */
  lemma TavilyTagged(response: Option<Value>, query: string, now: string)
    ensures forall s :: s in TavilySources(response, query, now) ==> s.query == query && s.provider == TavilyName
  {
    if response.Some? && ListField(response.value, "results").Some? {
      var items := ListField(response.value, "results").value;
      var r := Collect(items, item => TavilySource(item, query, now));
      if r.Some? {
        forall s | s in r.value ensures s.query == query && s.provider == TavilyName {
          var i :| 0 <= i < |r.value| && r.value[i] == s;
          assert TavilySource(items[i], query, now).Some?;
        }
      }
    }
  }

  /** Every source a Wikipedia search yields carries the query and the
      provider's name. */
  lemma WikipediaTagged(data: Option<Value>, extract: string -> Option<seq<Value>>, query: string, now: string)
    ensures forall s :: s in WikipediaSources(data, extract, query, now) ==>
      s.query == query && s.provider == WikipediaName
  {
    if data.Some? && WikiHits(data.value).Some? {
      var hits := WikiHits(data.value).value;
      var r := Collect(hits, item => WikiSource(item, extract, query, now));
      if r.Some? {
        forall s | s in r.value ensures s.query == query && s.provider == WikipediaName {
          var i :| 0 <= i < |r.value| && r.value[i] == s;
          assert WikiSource(hits[i], extract, query, now).Some?;
        }
      }
    }
  }

  /** Every source a Serper search yields carries the query and the
      provider's name, and there are never more than `maxResults`. */
  lemma SerperTagged(data: Option<Value>, maxResults: int, query: string, now: string)
    ensures forall s :: s in SerperSources(data, maxResults, query, now) ==> s.query == query && s.provider == SerperName
    ensures maxResults >= 0 ==> |SerperSources(data, maxResults, query, now)| <= maxResults
  {
    if data.Some? && ListField(data.value, "organic").Some? {
      var items := SlicePrefix(ListField(data.value, "organic").value, maxResults);
      var r := Collect(items, item => SerperSource(item, query, now));
      if r.Some? {
        forall s | s in r.value ensures s.query == query && s.provider == SerperName {
          var i :| 0 <= i < |r.value| && r.value[i] == s;
          assert SerperSource(items[i], query, now).Some?;
        }
      }
    }
  }

  /** A well-formed Tavily response yields one source per result, in order,
      each carrying the result's own fields. */
  lemma TavilyOnePerResult(results: seq<map<string, Value>>, query: string, now: string)
    requires forall i :: 0 <= i < |results| ==>
      forall k :: k in results[i] ==> results[i][k].Str?
    ensures var response := Dict(map["results" := List(seq(|results|, i requires 0 <= i < |results| => Dict(results[i])))]);
      var r := TavilySources(Some(response), query, now);
      && |r| == |results|
      && forall i :: 0 <= i < |results| ==>
           r[i].url == (if "url" in results[i] then results[i]["url"].s else "")
           && r[i].title == (if "title" in results[i] then results[i]["title"].s else "Untitled")
           && r[i].content == (if "content" in results[i] then results[i]["content"].s else "")
  {
    var items := seq(|results|, i requires 0 <= i < |results| => Dict(results[i]));
    forall i | 0 <= i < |items|
      ensures TavilySource(items[i], query, now).Some?
    {
      assert items[i] == Dict(results[i]);
    }
  }
}
