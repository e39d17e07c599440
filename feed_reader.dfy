/** `parseCanimusFeed`: the album and its tracks read out of the tree the
    XML parser builds from a Canimus RSS feed.  In that tree every child
    element is an array of element values, attributes sit under `$` and the
    text of an element that also has attributes under `_`. */
module FeedReader {
  import opened Wrappers
  import opened Js

  /** `parser.parseStringPromise(xml)`, which the model takes from the caller. */
  type XmlParser = string -> Result<JsValue, Failure>

  /** One track of the album as the upload route sees it. */
  datatype Track = Track(
    title: JsValue,
    description: JsValue,
    enclosure: JsValue,
    duration: JsValue,
    order: JsValue,
    guid: JsValue)

  /** The album: channel values and one track per `<item>`. */
  datatype Feed = Feed(
    title: JsValue,
    description: JsValue,
    image: JsValue,
    author: JsValue,
    tracks: seq<Track>)

  const MissingChannel := Error("Invalid Canimus feed: missing channel")

  /** `v?.[0]`, the first value of a parsed element. */
  function First(v: JsValue): JsValue {
    OptAt(v, 0)
  }

  /** The track read from the `<item>` at `index`, or the error reading it
      throws: reading throws exactly when the item is null or undefined, and
      a track always has a title. */
  function ReadTrack(item: JsValue, index: nat): (r: Result<Track, Failure>)
    ensures r.Err? <==> Nullish(item)
    ensures r.Ok? ==> Truthy(r.value.title)
  {
    var title :- Get(item, "title");
    var guid := First(Prop(item, "guid"));
    Ok(Track(
      Or(First(title), Str("Track " + NatToString(index + 1))),
      Or(First(Prop(item, "description")), Str("")),
      OptGet(First(Prop(item, "enclosure")), "$"),
      Or(First(Prop(item, "itunes:duration")), Str("")),
      Or(First(Prop(item, "itunes:order")), Num(index)),
      Or(Or(OptGet(guid, "_"), guid), Null)))
  }

  /** The image: `<image><url>`, else the `href` of `<itunes:image>`, else `''`. */
  function ChannelImage(channel: JsValue): JsValue {
    Or(Or(First(OptGet(First(OptGet(channel, "image")), "url")),
          OptGet(OptGet(First(OptGet(channel, "itunes:image")), "$"), "href")),
       Str(""))
  }

  /** The feed element: `<rss>`, else the root named `feed`. */
  function FeedRoot(result: JsValue): Result<JsValue, Failure> {
    var rss :- Get(result, "rss");
    Ok(Or(rss, Prop(result, "feed")))
  }

  /** The album read from a parsed document, or the error the reading throws:
      an album is read only from a root that has a channel, and always has a
      title and an author. */
  function ReadFeed(result: JsValue): (r: Result<Feed, Failure>)
    ensures r.Ok? ==> FeedRoot(result).Ok? && Truthy(FeedRoot(result).value) && Truthy(Prop(FeedRoot(result).value, "channel"))
    ensures r.Ok? ==> Truthy(r.value.title) && Truthy(r.value.author)
  {
    var feed :- FeedRoot(result);
    if !Truthy(feed) || !Truthy(Prop(feed, "channel")) then
      Err(MissingChannel)
    else
      var channel := Elem(Prop(feed, "channel"), 0);
      var item :- Get(channel, "item");
      var items := Or(item, Arr([]));
      if !items.Arr? then
        Err(TypeError("items.map is not a function"))
      else
        var tracks :- MapWithIndex(items.elems, ReadTrack);
        Ok(Feed(
          Or(First(Prop(channel, "title")), Str("Untitled Album")),
          Or(First(Prop(channel, "description")), Str("")),
          ChannelImage(channel),
          Or(Or(First(Prop(channel, "itunes:author")), First(Prop(channel, "author"))), Str("Unknown Artist")),
          tracks))
  }

  /** `parseCanimusFeed(xmlContent)`: parse, then read the album.  A parser
      error propagates unchanged; an album read has a title and an author. */
  function ParseCanimusFeed(xmlContent: string, parse: XmlParser): (r: Result<Feed, Failure>)
    ensures parse(xmlContent).Err? ==> r == Err(parse(xmlContent).error)
    ensures r.Ok? ==> parse(xmlContent).Ok? && Truthy(r.value.title) && Truthy(r.value.author)
  {
    var result :- parse(xmlContent);
    ReadFeed(result)
  }

  /** The `<item>` elements of a readable feed. */
  function Items(result: JsValue): seq<JsValue>
    requires FeedRoot(result).Ok?
    requires Truthy(FeedRoot(result).value) && Truthy(Prop(FeedRoot(result).value, "channel"))
  {
    var item := Prop(Elem(Prop(FeedRoot(result).value, "channel"), 0), "item");
    if item.Arr? then item.elems else []
  }

  // ---------------------------------------------------------------------------
  // Properties

  /** "missing channel" is thrown exactly when neither `rss` nor `feed` is
      present, or the root has no `channel`. */
  lemma MissingChannelIff(result: JsValue)
    ensures ReadFeed(result) == Err(MissingChannel) <==>
      !Nullish(result)
      && var feed := Or(Prop(result, "rss"), Prop(result, "feed"));
      (!Truthy(feed) || !Truthy(Prop(feed, "channel")))
  {
    var root := FeedRoot(result);
    if root.Ok? && Truthy(root.value) && Truthy(Prop(root.value, "channel")) {
      var channel := Elem(Prop(root.value, "channel"), 0);
      var item := Prop(channel, "item");
      if !Nullish(channel) && (!Truthy(item) || item.Arr?) {
        var items := Or(item, Arr([])).elems;
        MapWithIndexSpec(items, ReadTrack);
        if MapWithIndex(items, ReadTrack).Err? {
          var k :| 0 <= k < |items| && ReadTrack(items[k], k) == Err(MapWithIndex(items, ReadTrack).error);
          assert MapWithIndex(items, ReadTrack).error.TypeError?;
        }
      }
    }
  }

  /** The album is read exactly when the document is an object with a
      channel whose `item` is absent or an array of non-null items. */
  lemma ReadFeedSucceeds(result: JsValue)
    ensures ReadFeed(result).Ok? <==>
      && FeedRoot(result).Ok?
      && Truthy(FeedRoot(result).value) && Truthy(Prop(FeedRoot(result).value, "channel"))
      && !Nullish(Elem(Prop(FeedRoot(result).value, "channel"), 0))
      && var item := Prop(Elem(Prop(FeedRoot(result).value, "channel"), 0), "item");
      (!Truthy(item) || item.Arr?)
      && (forall k :: 0 <= k < |Items(result)| ==> !Nullish(Items(result)[k]))
  {
    var root := FeedRoot(result);
    if root.Ok? && Truthy(root.value) && Truthy(Prop(root.value, "channel")) {
      var channel := Elem(Prop(root.value, "channel"), 0);
      if !Nullish(channel) {
        var item := Prop(channel, "item");
        if !Truthy(item) || item.Arr? {
          var items := Or(item, Arr([])).elems;
          assert items == Items(result);
          MapWithIndexSpec(items, ReadTrack);
        }
      }
    }
  }

  /** One track per `<item>`, in document order. */
  lemma TracksFollowItems(result: JsValue)
    requires ReadFeed(result).Ok?
    ensures |ReadFeed(result).value.tracks| == |Items(result)|
    ensures forall k :: 0 <= k < |Items(result)| ==>
      ReadTrack(Items(result)[k], k) == Ok(ReadFeed(result).value.tracks[k])
  {
    var items := Items(result);
    assert Or(Prop(Elem(Prop(FeedRoot(result).value, "channel"), 0), "item"), Arr([])).elems == items;
    MapWithIndexSpec(items, ReadTrack);
  }

  /** A channel without items gives an album without tracks. */
  lemma NoItemsNoTracks(result: JsValue)
    requires ReadFeed(result).Ok?
    requires !Truthy(Prop(Elem(Prop(FeedRoot(result).value, "channel"), 0), "item"))
    ensures ReadFeed(result).value.tracks == []
  {
    TracksFollowItems(result);
  }

  /** The album title and author are never empty, with "Untitled Album" and
      "Unknown Artist" when the channel gives none; `<itunes:author>` wins
      over `<author>`. */
  lemma AlbumDefaults(result: JsValue)
    requires ReadFeed(result).Ok?
    ensures var feed := ReadFeed(result).value;
      var channel := Elem(Prop(FeedRoot(result).value, "channel"), 0);
      && Truthy(feed.title) && Truthy(feed.author)
      && (!Truthy(First(Prop(channel, "title"))) ==> feed.title == Str("Untitled Album"))
      && (Truthy(First(Prop(channel, "itunes:author"))) ==> feed.author == First(Prop(channel, "itunes:author")))
      && (!Truthy(First(Prop(channel, "itunes:author"))) && Truthy(First(Prop(channel, "author"))) ==>
            feed.author == First(Prop(channel, "author")))
      && (!Truthy(First(Prop(channel, "itunes:author"))) && !Truthy(First(Prop(channel, "author"))) ==>
            feed.author == Str("Unknown Artist"))
  {
  }

  /** Track defaults: the title is never empty and falls back to "Track n"
      with n the 1-based position; the order falls back to the 0-based
      position; the guid falls back to the text of `<guid>`, then `null`. */
  lemma TrackDefaults(item: JsValue, index: nat)
    requires ReadTrack(item, index).Ok?
    ensures var t := ReadTrack(item, index).value;
      && Truthy(t.title)
      && (!Truthy(First(Prop(item, "title"))) ==> t.title == Str("Track " + NatToString(index + 1)))
      && (!Truthy(First(Prop(item, "itunes:order"))) ==> t.order == Num(index))
      && (Truthy(OptGet(First(Prop(item, "guid")), "_")) ==> t.guid == OptGet(First(Prop(item, "guid")), "_"))
      && (!Truthy(OptGet(First(Prop(item, "guid")), "_")) && Truthy(First(Prop(item, "guid"))) ==>
            t.guid == First(Prop(item, "guid")))
      && (!Truthy(First(Prop(item, "guid"))) ==> t.guid == Null)
  {
    var g := First(Prop(item, "guid"));
    if !Truthy(g) {
      assert !Truthy(OptGet(g, "_")) by {
        if !Nullish(g) {
          assert g.Bool? || g.Num? || g.Str?;
        }
      }
    }
  }
}
