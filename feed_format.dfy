/** `GET /plugin/mutopia/feed`: the user's feed as Sanora serves it, as JSON
    by default and as Canimus RSS when the request asks for XML. */
module FeedFormat {
  import opened Wrappers
  import opened Js
  import opened RssWriter
  import opened Publish

  /** The media types that select RSS when the Accept header contains one. */
  const RssTypes: seq<string> := ["application/rss+xml", "application/xml", "text/xml"]

  /** `req.query.format?.toLowerCase()`: absent stays `undefined`; a value
      that is not a string (a repeated parameter gives an array) has no
      `toLowerCase` and throws. */
  function FormatParam(format: JsValue): (r: Result<JsValue, Failure>)
    ensures Nullish(format) ==> r == Ok(Undefined)
    ensures format.Str? ==>
      && r.Ok? && r.value.Str? && |r.value.s| == |format.s|
      && forall k :: 0 <= k < |format.s| ==> r.value.s[k] == LowerChar(format.s[k])
    ensures r.Err? <==> !Nullish(format) && !format.Str?
  {
    if Nullish(format) then Ok(Undefined)
    else if format.Str? then Ok(Str(ToLowerCase(format.s)))
    else Err(TypeError("req.query.format?.toLowerCase is not a function"))
  }

  /** `req.get('Accept') || ''` */
  function AcceptHeader(accept: Option<string>): string {
    if accept.Some? then accept.value else ""
  }

  /** The `wantsRss` test: the lowercased format is `rss` or `xml`, or the
      Accept header contains one of the XML media types. */
  predicate WantsRss(formatParam: JsValue, acceptHeader: string) {
    formatParam == Str("rss") || formatParam == Str("xml")
    || Includes(acceptHeader, "application/rss+xml")
    || Includes(acceptHeader, "application/xml")
    || Includes(acceptHeader, "text/xml")
  }

  /** The body of a reply of the feed route. */
  datatype FeedBody =
    | RssDocument(xml: string)
    | JsonFeed(feed: JsValue)
    | FeedFailure(error: string)

  datatype FeedResponse = FeedResponse(status: nat, contentType: string, body: FeedBody)

  const RssContentType := "application/rss+xml; charset=utf-8"
  const JsonContentType := "application/json"

  /** The error thrown for a Sanora reply carrying `error`: `new Error(e)`
      takes `String(e)` as its message. */
  function SanoraError(json: JsValue): Result<JsValue, Failure> {
    var error :- Get(json, "error");
    if Truthy(error) then Err(Error(ToJsString(error))) else Ok(json)
  }

  /** The route after the fetch: check the reply, pick the format, render. */
  function FeedReply(json: JsValue, format: JsValue, accept: Option<string>, utc: DateFormatter): Result<FeedResponse, Failure> {
    var feed :- SanoraError(json);
    var formatParam :- FormatParam(format);
    if WantsRss(formatParam, AcceptHeader(accept)) then
      var xml :- CanimusRss(feed, utc);
      Ok(FeedResponse(200, RssContentType, RssDocument(xml)))
    else
      Ok(FeedResponse(200, JsonContentType, JsonFeed(feed)))
  }

  /** What the route answers.  `fetched` is the reply of Sanora's feed
      endpoint after `json()`, or what the fetch or the decoding threw. */
  function FeedRoute(user: Option<User>, fetched: Result<JsValue, Failure>, format: JsValue, accept: Option<string>, utc: DateFormatter): FeedResponse {
    if user.None? then
      FeedResponse(404, JsonContentType, FeedFailure("No music library available"))
    else
      var reply := if fetched.Err? then Err(fetched.error) else FeedReply(fetched.value, format, accept, utc);
      if reply.Err? then FeedResponse(500, JsonContentType, FeedFailure(reply.error.message)) else reply.value
  }

  /** The route handler: each step in the order the source takes them, the
      first throw answered with 500. */
  method ServeFeed(user: Option<User>, fetched: Result<JsValue, Failure>, format: JsValue, accept: Option<string>, utc: DateFormatter)
    returns (response: FeedResponse)
    ensures response == FeedRoute(user, fetched, format, accept, utc)
  {
    if user.None? {
      return FeedResponse(404, JsonContentType, FeedFailure("No music library available"));
    }
    if fetched.Err? {
      return FeedResponse(500, JsonContentType, FeedFailure(fetched.error.message));
    }
    var reply := ReplyToFeed(fetched.value, format, accept, utc);
    if reply.Err? {
      return FeedResponse(500, JsonContentType, FeedFailure(reply.error.message));
    }
    response := reply.value;
  }

  /** The rest of the `try` block once Sanora's feed is in hand: check it,
      pick the format and render, or throw. */
  method ReplyToFeed(jsonFeed: JsValue, format: JsValue, accept: Option<string>, utc: DateFormatter)
    returns (reply: Result<FeedResponse, Failure>)
    ensures reply == FeedReply(jsonFeed, format, accept, utc)
  {
    ghost var spec := FeedReply(jsonFeed, format, accept, utc);
    var checked := SanoraError(jsonFeed);
    if checked.Err? {
      assert spec == Err(checked.error);
      return Err(checked.error);
    }
    var formatParam := FormatParam(format);
    if formatParam.Err? {
      assert spec == Err(formatParam.error);
      return Err(formatParam.error);
    }
    var acceptHeader := AcceptHeader(accept);
    if WantsRss(formatParam.value, acceptHeader) {
      var rssXml := ConvertToCanimusRSS(jsonFeed, utc);
      if rssXml.Err? {
        assert spec == Err(rssXml.error);
        return Err(rssXml.error);
      }
      reply := Ok(FeedResponse(200, RssContentType, RssDocument(rssXml.value)));
    } else {
      reply := Ok(FeedResponse(200, JsonContentType, JsonFeed(jsonFeed)));
    }
    assert spec == reply;
  }

  // ---------------------------------------------------------------------------
  // Properties

  /** An independent statement of the test for every format value the
      route gets past `toLowerCase` with (absent or a string): the format is
      `rss` or `xml` in any letter case, or one of the XML media types occurs
      somewhere in the Accept header.  With no format, only the header
      decides. */
  lemma WantsRssIff(format: JsValue, accept: Option<string>)
    requires FormatParam(format).Ok?
    ensures WantsRss(FormatParam(format).value, AcceptHeader(accept)) <==>
      ((format.Str? && (ToLowerCase(format.s) == "rss" || ToLowerCase(format.s) == "xml"))
       || exists t, i :: t in RssTypes && OccursAt(AcceptHeader(accept), t, i))
  {
    var header := AcceptHeader(accept);
    var listed := Includes(header, RssTypes[0]) || Includes(header, RssTypes[1]) || Includes(header, RssTypes[2]);
    assert WantsRss(FormatParam(format).value, header)
      <==> (format.Str? && (ToLowerCase(format.s) == "rss" || ToLowerCase(format.s) == "xml")) || listed;
    if listed {
      var t := if Includes(header, RssTypes[0]) then RssTypes[0]
               else if Includes(header, RssTypes[1]) then RssTypes[1] else RssTypes[2];
      var i := IncludesPosition(header, t);
      assert t in RssTypes && OccursAt(header, t, i);
    }
    if exists t, i :: t in RssTypes && OccursAt(header, t, i) {
      var t, i :| t in RssTypes && OccursAt(header, t, i);
      OccursIncludes(header, t, i);
      assert t == RssTypes[0] || t == RssTypes[1] || t == RssTypes[2];
    }
  }

  /** The format parameter does not override the header: an Accept header
      naming an XML type yields RSS even with `format=json`. */
  lemma HeaderWinsOverFormat(format: JsValue, accept: string)
    requires FormatParam(format).Ok?
    requires Includes(accept, "text/xml") || Includes(accept, "application/xml") || Includes(accept, "application/rss+xml")
    ensures WantsRss(FormatParam(format).value, accept)
  {
  }

  /** `format=RSS` selects RSS whatever the header says: the parameter is
      compared after lowercasing. */
  lemma UpperCaseFormatSelectsRss(accept: Option<string>)
    ensures WantsRss(FormatParam(Str("RSS")).value, AcceptHeader(accept))
  {
    var lower := ToLowerCase("RSS");
    assert lower[0] == 'r' && lower[1] == 's' && lower[2] == 's';
    assert lower == "rss";
  }

  /** JSON is the default: with an Accept header naming none of the XML
      types, no format or `format=json` gives JSON. */
  lemma JsonByDefault(accept: Option<string>)
    requires forall t :: t in RssTypes ==> !Includes(AcceptHeader(accept), t)
    ensures !WantsRss(FormatParam(Undefined).value, AcceptHeader(accept))
    ensures !WantsRss(FormatParam(Str("json")).value, AcceptHeader(accept))
  {
    assert RssTypes[0] in RssTypes && RssTypes[1] in RssTypes && RssTypes[2] in RssTypes;
    var lower := ToLowerCase("json");
    assert lower[0] == 'j';
    assert lower != "rss" && lower != "xml";
  }

  /** Without a loaded user the route answers 404 before fetching; with
      one, every throw becomes a 500 carrying the error's message: a failed
      fetch, an unreadable reply, or a reply carrying `error`. */
  lemma FeedRouteErrors(user: Option<User>, fetched: Result<JsValue, Failure>, format: JsValue, accept: Option<string>, utc: DateFormatter)
    ensures user.None? ==> FeedRoute(user, fetched, format, accept, utc).status == 404
    ensures user.Some? && fetched.Err? ==>
      FeedRoute(user, fetched, format, accept, utc) == FeedResponse(500, JsonContentType, FeedFailure(fetched.error.message))
    ensures user.Some? && fetched.Ok? && Nullish(fetched.value) ==> FeedRoute(user, fetched, format, accept, utc).status == 500
    ensures user.Some? && fetched.Ok? && !Nullish(fetched.value) && Truthy(Prop(fetched.value, "error")) ==>
      FeedRoute(user, fetched, format, accept, utc)
        == FeedResponse(500, JsonContentType, FeedFailure(ToJsString(Prop(fetched.value, "error"))))
  {
  }

  /** A 200 carries the RSS rendering exactly when the request wants RSS,
      and the feed as Sanora sent it otherwise. */
  lemma FeedRouteSuccess(user: Option<User>, fetched: Result<JsValue, Failure>, format: JsValue, accept: Option<string>, utc: DateFormatter)
    requires FeedRoute(user, fetched, format, accept, utc).status == 200
    ensures user.Some? && fetched.Ok? && FormatParam(format).Ok?
    ensures var r := FeedRoute(user, fetched, format, accept, utc);
      var rss := WantsRss(FormatParam(format).value, AcceptHeader(accept));
      && (rss <==> r.body.RssDocument?)
      && (rss ==> Ok(r.body.xml) == CanimusRss(fetched.value, utc))
      && (!rss ==> r.body == JsonFeed(fetched.value))
  {
  }
}
