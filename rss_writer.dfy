/** `convertToCanimusRSS`: the JSON feed served by Sanora rendered as an
    RSS 2.0 document with the iTunes namespace, built line by line. */
module RssWriter {
  import opened Wrappers
  import opened Js
  import opened XmlEscape

  /** `new Date(v).toUTCString()`, which the model takes from the caller. */
  type DateFormatter = JsValue -> string

  /** The attributes of an `<enclosure>` element before rendering. */
  datatype Enclosure = Enclosure(url: JsValue, length: JsValue, mimeType: JsValue)

  /** The channel-level values the document is built from. */
  datatype ChannelView = ChannelView(
    title: JsValue,
    link: JsValue,
    description: JsValue,
    author: Option<JsValue>,
    image: Option<JsValue>,
    items: seq<JsValue>)

  /** The values one `<item>` is built from; `None` means the line is omitted. */
  datatype ItemView = ItemView(
    title: JsValue,
    link: Option<JsValue>,
    guid: Option<JsValue>,
    description: Option<JsValue>,
    enclosure: Option<Enclosure>,
    duration: Option<JsValue>,
    order: Option<JsValue>,
    published: Option<JsValue>)

  const XmlDeclaration := "<?xml version=\"1.0\" encoding=\"UTF-8\"?>\n"
  const RssOpen := "<rss version=\"2.0\" xmlns:itunes=\"http://www.itunes.com/dtds/podcast-1.0.dtd\" xmlns:content=\"http://purl.org/rss/1.0/modules/content/\">\n"
  const ChannelClose := "  </channel>\n</rss>"
  const ItemOpen := "    <item>\n"
  const ItemClose := "    </item>\n"

  // ---------------------------------------------------------------------------
  // Reading the input

  /** `x > 0` for the `length` of an attachments value: numbers compare by
      value and `true` counts as 1; anything else is taken as not positive. */
  predicate Positive(v: JsValue) {
    (v.Num? && v.n > 0) || v == Bool(true)
  }

  /** The channel values: title from `title`, `name` or "Music Feed", link
      from `url` or `home_page_url`; `items` must be an array when present. */
  function ReadChannel(feed: JsValue): Result<ChannelView, Failure> {
    if Nullish(feed) then
      Err(TypeError("Cannot read properties of " + ToJsString(feed) + " (reading 'title')"))
    else
      var title := Or(Or(Prop(feed, "title"), Prop(feed, "name")), Str("Music Feed"));
      var link := Or(Or(Prop(feed, "url"), Prop(feed, "home_page_url")), Str(""));
      var description := Or(Prop(feed, "description"), Str(""));
      var author := Prop(feed, "author");
      var image := Prop(feed, "image");
      var items := Or(Prop(feed, "items"), Arr([]));
      if !items.Arr? then
        Err(TypeError("items.forEach is not a function"))
      else
        Ok(ChannelView(
          title, link, description,
          if Truthy(author) then Some(Or(Prop(author, "name"), author)) else None,
          if Truthy(image) then Some(image) else None,
          items.elems))
  }

  /** The title of the item at `index`. */
  function ItemTitle(item: JsValue, index: nat): JsValue {
    Or(Or(Prop(item, "title"), Prop(item, "name")), Str("Track " + NatToString(index + 1)))
  }

  /** The enclosure of an item, or the error reading its first attachment throws. */
  function ReadEnclosure(item: JsValue): Result<Option<Enclosure>, Failure> {
    var attachments := Prop(item, "attachments");
    if Truthy(attachments) && Positive(Prop(attachments, "length")) then
      var audio := Elem(attachments, 0);
      if Nullish(audio) then
        Err(TypeError("Cannot read properties of " + ToJsString(audio) + " (reading 'url')"))
      else
        Ok(Some(Enclosure(
          Or(Prop(audio, "url"), Str("")),
          Or(Prop(audio, "size_in_bytes"), Num(0)),
          Or(Prop(audio, "mime_type"), Str("audio/mpeg")))))
    else if Truthy(Prop(item, "content_url")) then
      Ok(Some(Enclosure(Prop(item, "content_url"), Num(0), Str("audio/mpeg"))))
    else
      Ok(None)
  }

  function IfTruthy(v: JsValue): Option<JsValue> {
    if Truthy(v) then Some(v) else None
  }

  /** Everything an item contributes, or the error its callback throws. */
  function ReadItem(item: JsValue, index: nat): Result<ItemView, Failure> {
    if Nullish(item) then
      Err(TypeError("Cannot read properties of " + ToJsString(item) + " (reading 'title')"))
    else
      var enclosure :- ReadEnclosure(item);
      var order := Prop(item, "order");
      Ok(ItemView(
        ItemTitle(item, index),
        IfTruthy(Prop(item, "url")),
        IfTruthy(Prop(item, "id")),
        IfTruthy(Or(Prop(item, "summary"), Prop(item, "description"))),
        enclosure,
        IfTruthy(Prop(item, "duration")),
        if order != Undefined then Some(order) else None,
        IfTruthy(Prop(item, "date_published"))))
  }

  // ---------------------------------------------------------------------------
  // Rendering: one function per line the source appends

  function ChannelHead(title: JsValue, link: JsValue, description: JsValue): string {
    XmlDeclaration
    + RssOpen
    + "  <channel>\n"
    + "    <title>" + EscapeXml(title) + "</title>\n"
    + "    <link>" + EscapeXml(link) + "</link>\n"
    + "    <description>" + EscapeXml(description) + "</description>\n"
  }

  function AuthorLine(author: JsValue): string {
    "    <itunes:author>" + EscapeXml(author) + "</itunes:author>\n"
  }

  function ImageLines(image: JsValue, title: JsValue, link: JsValue): string {
    "    <image>\n"
    + "      <url>" + EscapeXml(image) + "</url>\n"
    + "      <title>" + EscapeXml(title) + "</title>\n"
    + "      <link>" + EscapeXml(link) + "</link>\n"
    + "    </image>\n"
    + "    <itunes:image href=\"" + EscapeXml(image) + "\" />\n"
  }

  function TitleLine(title: JsValue): string {
    "      <title>" + EscapeXml(title) + "</title>\n"
  }

  function LinkLine(url: JsValue): string {
    "      <link>" + EscapeXml(url) + "</link>\n"
  }

  function GuidLine(id: JsValue): string {
    "      <guid isPermaLink=\"false\">" + EscapeXml(id) + "</guid>\n"
  }

  function DescriptionLine(description: JsValue): string {
    "      <description>" + EscapeXml(description) + "</description>\n"
  }

  /** The enclosure line; only the url is escaped, the length and the type are
      inserted with `String(...)` as they are. */
  function EnclosureLine(e: Enclosure): string {
    "      <enclosure url=\"" + EscapeXml(e.url) + "\" length=\"" + ToJsString(e.length)
    + "\" type=\"" + ToJsString(e.mimeType) + "\" />\n"
  }

  function DurationLine(duration: JsValue): string {
    "      <itunes:duration>" + EscapeXml(duration) + "</itunes:duration>\n"
  }

  function OrderLine(order: JsValue): string {
    "      <itunes:order>" + ToJsString(order) + "</itunes:order>\n"
  }

  function PubDateLine(published: JsValue, utc: DateFormatter): string {
    "      <pubDate>" + utc(published) + "</pubDate>\n"
  }

  function Optional<T>(v: Option<T>, line: T -> string): string {
    if v.Some? then line(v.value) else ""
  }

  /** `xml` followed by the title, link, guid and description lines. */
  function WithHead(xml: string, title: JsValue, link: Option<JsValue>, guid: Option<JsValue>, description: Option<JsValue>): string {
    xml
    + TitleLine(title)
    + Optional(link, LinkLine)
    + Optional(guid, GuidLine)
    + Optional(description, DescriptionLine)
  }

  /** `xml` followed by the duration, order and publication date lines. */
  function WithTail(xml: string, duration: Option<JsValue>, order: Option<JsValue>, published: Option<JsValue>, utc: DateFormatter): string {
    xml
    + Optional(duration, DurationLine)
    + Optional(order, OrderLine)
    + Optional(published, (d: JsValue) => PubDateLine(d, utc))
  }

  /** The `<item>` block of one item, in the order the callback appends its lines. */
  function RenderItem(v: ItemView, utc: DateFormatter): string {
    var head := WithHead(ItemOpen, v.title, v.link, v.guid, v.description);
    WithTail(head + Optional(v.enclosure, EnclosureLine), v.duration, v.order, v.published, utc) + ItemClose
  }

  function RenderChannel(c: ChannelView): string {
    ChannelHead(c.title, c.link, c.description)
    + Optional(c.author, AuthorLine)
    + Optional(c.image, (image: JsValue) => ImageLines(image, c.title, c.link))
  }

  function Concat(blocks: seq<string>): string {
    if |blocks| == 0 then "" else Concat(blocks[..|blocks| - 1]) + blocks[|blocks| - 1]
  }

  lemma ConcatSnoc(prefix: string, blocks: seq<string>, block: string)
    ensures prefix + Concat(blocks + [block]) == prefix + Concat(blocks) + block
  {
    assert (blocks + [block])[..|blocks|] == blocks;
  }

  /** The block of one item, or the error its callback throws. */
  function ItemBlock(item: JsValue, index: nat, utc: DateFormatter): Result<string, Failure> {
    var view :- ReadItem(item, index);
    Ok(RenderItem(view, utc))
  }

  function BlockOf(utc: DateFormatter): (JsValue, nat) -> Result<string, Failure> {
    (item: JsValue, index: nat) => ItemBlock(item, index, utc)
  }

  /** The whole document `convertToCanimusRSS` returns, or the error it throws. */
  function CanimusRss(feed: JsValue, utc: DateFormatter): Result<string, Failure> {
    var channel :- ReadChannel(feed);
    var blocks :- MapWithIndex(channel.items, BlockOf(utc));
    Ok(RenderChannel(channel) + Concat(blocks) + ChannelClose)
  }

  // ---------------------------------------------------------------------------
  // The conversion as the source performs it

  /** `convertToCanimusRSS(jsonFeed)`: appends the header lines, then one item
      block per entry of `items`, then the closing tags. */
  method ConvertToCanimusRSS(feed: JsValue, utc: DateFormatter) returns (r: Result<string, Failure>)
    ensures r == CanimusRss(feed, utc)
  {
    var channel := ReadChannel(feed);
    if channel.Err? {
      return Err(channel.error);
    }
    var c := channel.value;
    var xml := AppendChannel(c);

    var body := AppendItems(xml, c.items, utc);
    if body.Err? {
      return Err(body.error);
    }
    xml := body.value + ChannelClose;
    r := Ok(xml);
  }

  /** The `items.forEach` loop: one block per item appended to `xml0`, or
      the error of the first item whose callback throws. */
  method AppendItems(xml0: string, items: seq<JsValue>, utc: DateFormatter) returns (r: Result<string, Failure>)
    ensures MapWithIndex(items, BlockOf(utc)).Err? ==> r == Err(MapWithIndex(items, BlockOf(utc)).error)
    ensures MapWithIndex(items, BlockOf(utc)).Ok? ==> r == Ok(xml0 + Concat(MapWithIndex(items, BlockOf(utc)).value))
  {
    var xml := xml0;
    ghost var blocks: seq<string> := [];
    var i := 0;
    while i < |items|
      invariant 0 <= i <= |items|
      invariant MapWithIndex(items[..i], BlockOf(utc)) == Ok(blocks)
      invariant xml == xml0 + Concat(blocks)
    {
      var block := AppendItem(items[i], i, utc);
      assert BlockOf(utc)(items[i], i) == block;
      MapWithIndexStep(items, i, BlockOf(utc));
      if block.Err? {
        MapWithIndexPrefixFailure(items, i + 1, BlockOf(utc));
        return Err(block.error);
      }
      ConcatSnoc(xml0, blocks, block.value);
      blocks := blocks + [block.value];
      xml := xml + block.value;
      i := i + 1;
    }
    assert items[..i] == items;
    r := Ok(xml);
  }

  /** The channel lines, the author and the image included when present. */
  method AppendChannel(c: ChannelView) returns (xml: string)
    ensures xml == RenderChannel(c)
  {
    xml := ChannelHead(c.title, c.link, c.description);
    if c.author.Some? {
      xml := xml + AuthorLine(c.author.value);
    }
    assert xml == ChannelHead(c.title, c.link, c.description) + Optional(c.author, AuthorLine);
    ghost var stage := xml;
    if c.image.Some? {
      xml := xml + ImageLines(c.image.value, c.title, c.link);
    }
    assert xml == stage + Optional(c.image, (image: JsValue) => ImageLines(image, c.title, c.link));
  }

  /** The body of the `items.forEach` callback: the lines of one item. */
  method AppendItem(item: JsValue, index: nat, utc: DateFormatter) returns (r: Result<string, Failure>)
    ensures r == ItemBlock(item, index, utc)
  {
    if Nullish(item) {
      return Err(TypeError("Cannot read properties of " + ToJsString(item) + " (reading 'title')"));
    }
    var xml := ItemOpen;
    var title := Or(Or(Prop(item, "title"), Prop(item, "name")), Str("Track " + NatToString(index + 1)));
    xml := AppendHead(xml, title, Prop(item, "url"), Prop(item, "id"), Prop(item, "summary"), Prop(item, "description"));
    var withEnclosure := AppendEnclosure(xml, item);
    if withEnclosure.Err? {
      return Err(withEnclosure.error);
    }
    xml := withEnclosure.value;
    xml := AppendTail(xml, item, utc);
    xml := xml + ItemClose;
    r := Ok(xml);
  }

  /** `if (v) xml += line(v)`: one optional line of the callback. */
  method AppendIfTruthy(xml0: string, v: JsValue, line: JsValue -> string) returns (xml: string)
    ensures xml == xml0 + Optional(IfTruthy(v), line)
  {
    xml := xml0;
    if Truthy(v) {
      xml := xml + line(v);
    } else {
      assert xml0 + "" == xml0;
    }
  }

  /** The title, link, guid and description lines of the callback, from the
      values it reads off the item. */
  method AppendHead(xml0: string, title: JsValue, url: JsValue, id: JsValue, summary: JsValue, description: JsValue)
    returns (xml: string)
    ensures xml == WithHead(xml0, title, IfTruthy(url), IfTruthy(id), IfTruthy(Or(summary, description)))
  {
    xml := xml0 + TitleLine(title);
    xml := AppendIfTruthy(xml, url, LinkLine);
    xml := AppendIfTruthy(xml, id, GuidLine);
    xml := AppendIfTruthy(xml, Or(summary, description), DescriptionLine);
  }

  /** The enclosure line of the callback, or the error reading the first
      attachment throws. */
  method AppendEnclosure(xml0: string, item: JsValue) returns (r: Result<string, Failure>)
    ensures ReadEnclosure(item).Err? ==> r == Err(ReadEnclosure(item).error)
    ensures ReadEnclosure(item).Ok? ==> r == Ok(xml0 + Optional(ReadEnclosure(item).value, EnclosureLine))
  {
    var xml := xml0;
    var attachments := Prop(item, "attachments");
    if Truthy(attachments) && Positive(Prop(attachments, "length")) {
      var audio := Elem(attachments, 0);
      if Nullish(audio) {
        r := Err(TypeError("Cannot read properties of " + ToJsString(audio) + " (reading 'url')"));
        assert r == Err(ReadEnclosure(item).error);
        return;
      }
      var url := Or(Prop(audio, "url"), Str(""));
      var size := Or(Prop(audio, "size_in_bytes"), Num(0));
      var mimeType := Or(Prop(audio, "mime_type"), Str("audio/mpeg"));
      xml := xml + EnclosureLine(Enclosure(url, size, mimeType));
      assert ReadEnclosure(item) == Ok(Some(Enclosure(url, size, mimeType)));
    } else if Truthy(Prop(item, "content_url")) {
      xml := xml + EnclosureLine(Enclosure(Prop(item, "content_url"), Num(0), Str("audio/mpeg")));
    } else {
      assert xml0 + "" == xml0;
    }
    r := Ok(xml);
  }

  /** The duration, order and publication date lines of the callback. */
  method AppendTail(xml0: string, item: JsValue, utc: DateFormatter) returns (xml: string)
    ensures xml == WithTail(xml0, IfTruthy(Prop(item, "duration")),
      if Prop(item, "order") != Undefined then Some(Prop(item, "order")) else None,
      IfTruthy(Prop(item, "date_published")), utc)
  {
    var duration, order, published := Prop(item, "duration"), Prop(item, "order"), Prop(item, "date_published");
    xml := xml0;
    if Truthy(duration) {
      xml := xml + DurationLine(duration);
    }
    assert xml == xml0 + Optional(IfTruthy(duration), DurationLine);
    ghost var stage := xml;
    if order != Undefined {
      xml := xml + OrderLine(order);
    }
    assert xml == stage + Optional(if order != Undefined then Some(order) else None, OrderLine);
    stage := xml;
    if Truthy(published) {
      xml := xml + PubDateLine(published, utc);
    }
    assert xml == stage + Optional(IfTruthy(published), (d: JsValue) => PubDateLine(d, utc));
  }

  // ---------------------------------------------------------------------------
  // Properties of the conversion

  /** The conversion throws before writing anything exactly when the feed is
      null or undefined, or its `items` is truthy but not an array. */
  lemma ReadChannelFails(feed: JsValue)
    ensures ReadChannel(feed).Err? <==>
      Nullish(feed) || (Truthy(Prop(feed, "items")) && !Prop(feed, "items").Arr?)
    ensures !Nullish(feed) && !Truthy(Prop(feed, "items")) ==> ReadChannel(feed).value.items == []
  {
  }

  /** The channel title is never empty: `title`, else `name`, else "Music Feed". */
  lemma ChannelTitleFallback(feed: JsValue)
    requires ReadChannel(feed).Ok?
    ensures Truthy(ReadChannel(feed).value.title)
    ensures Truthy(Prop(feed, "title")) ==> ReadChannel(feed).value.title == Prop(feed, "title")
    ensures !Truthy(Prop(feed, "title")) && Truthy(Prop(feed, "name")) ==> ReadChannel(feed).value.title == Prop(feed, "name")
    ensures !Truthy(Prop(feed, "title")) && !Truthy(Prop(feed, "name")) ==> ReadChannel(feed).value.title == Str("Music Feed")
  {
  }

  /** An item title is never empty: `title`, else `name`, else "Track n" with
      n the 1-based position of the item. */
  lemma ItemTitleFallback(item: JsValue, index: nat)
    ensures Truthy(ItemTitle(item, index))
    ensures Truthy(Prop(item, "title")) ==> ItemTitle(item, index) == Prop(item, "title")
    ensures !Truthy(Prop(item, "title")) && Truthy(Prop(item, "name")) ==> ItemTitle(item, index) == Prop(item, "name")
    ensures !Truthy(Prop(item, "title")) && !Truthy(Prop(item, "name")) ==>
      ItemTitle(item, index) == Str("Track " + NatToString(index + 1))
  {
  }

  /** The enclosure comes from the first attachment when there are any, with
      url `''`, length 0 and type `audio/mpeg` by default, else from
      `content_url`; the type is never empty, and reading the first
      attachment throws exactly when it is null or undefined. */
  lemma EnclosureRules(item: JsValue)
    ensures ReadEnclosure(item).Err? <==>
      Truthy(Prop(item, "attachments")) && Positive(Prop(Prop(item, "attachments"), "length"))
      && Nullish(Elem(Prop(item, "attachments"), 0))
    ensures ReadEnclosure(item).Ok? ==>
      (ReadEnclosure(item).value.Some? <==>
        (Truthy(Prop(item, "attachments")) && Positive(Prop(Prop(item, "attachments"), "length")))
        || Truthy(Prop(item, "content_url")))
    ensures ReadEnclosure(item).Ok? && ReadEnclosure(item).value.Some? ==>
      Truthy(ReadEnclosure(item).value.value.mimeType)
    ensures var a := Prop(item, "attachments");
      Truthy(a) && Positive(Prop(a, "length")) && !Nullish(Elem(a, 0)) ==>
        var audio := Elem(a, 0);
        ReadEnclosure(item) == Ok(Some(Enclosure(
          Or(Prop(audio, "url"), Str("")),
          Or(Prop(audio, "size_in_bytes"), Num(0)),
          Or(Prop(audio, "mime_type"), Str("audio/mpeg")))))
    ensures var a := Prop(item, "attachments");
      !(Truthy(a) && Positive(Prop(a, "length"))) && Truthy(Prop(item, "content_url")) ==>
        ReadEnclosure(item) == Ok(Some(Enclosure(Prop(item, "content_url"), Num(0), Str("audio/mpeg"))))
  {
  }

  /** Unlike the url, the enclosure's length and type are written without
      `escapeXml`: whatever text they hold appears in the attribute as is,
      so a `"` in a type ends the attribute early. */
  lemma UnescapedEnclosureAttributes(url: JsValue, length: string, mimeType: string)
    ensures EndsWith(EnclosureLine(Enclosure(url, Str(length), Str(mimeType))),
      "\" length=\"" + length + "\" type=\"" + mimeType + "\" />\n")
  {
    var tail := "\" length=\"" + length + "\" type=\"" + mimeType + "\" />\n";
    var head := "      <enclosure url=\"" + EscapeXml(url);
    assert EnclosureLine(Enclosure(url, Str(length), Str(mimeType))) == head + tail;
    SuffixOfAppend(head, tail);
  }

  /** A type holding `"` gives a different line than its escaped text
      would: the `"` closes the attribute early. */
  lemma UnescapedEnclosureType(url: JsValue, length: JsValue, mimeType: string)
    ensures '"' in mimeType ==>
      EnclosureLine(Enclosure(url, length, Str(mimeType)))
      != EnclosureLine(Enclosure(url, length, Str(EscapeXml(Str(mimeType)))))
  {
    var head := "      <enclosure url=\"" + EscapeXml(url) + "\" length=\"" + ToJsString(length) + "\" type=\"";
    var close := "\" />\n";
    var escaped := EscapeXml(Str(mimeType));
    var line := EnclosureLine(Enclosure(url, length, Str(mimeType)));
    var alt := EnclosureLine(Enclosure(url, length, Str(escaped)));
    assert line == head + mimeType + close;
    assert alt == head + escaped + close;
    if '"' in mimeType {
      var k :| 0 <= k < |mimeType| && mimeType[k] == '"';
      assert line[|head| + k] == '"';
      if |escaped| == |mimeType| {
        assert alt[|head| + k] == escaped[k];
      }
    }
  }

  /** The `itunes:order` value is likewise written as is: an order holding
      `<` gives a different line than its escaped text would. */
  lemma UnescapedOrder(order: string)
    ensures '<' in order ==>
      OrderLine(Str(order)) != "      <itunes:order>" + EscapeXml(Str(order)) + "</itunes:order>\n"
  {
    var open, close := "      <itunes:order>", "</itunes:order>\n";
    var escaped := EscapeXml(Str(order));
    var line, alt := OrderLine(Str(order)), open + escaped + close;
    if '<' in order {
      var k :| 0 <= k < |order| && order[k] == '<';
      assert line[|open| + k] == '<';
      if |escaped| == |order| {
        assert alt[|open| + k] == escaped[k];
      }
    }
  }

  lemma WithHeadExtends(xml: string, title: JsValue, link: Option<JsValue>, guid: Option<JsValue>, description: Option<JsValue>)
    ensures StartsWith(WithHead(xml, title, link, guid, description), xml)
  {
    var x1 := xml + TitleLine(title);
    var x2 := x1 + Optional(link, LinkLine);
    var x3 := x2 + Optional(guid, GuidLine);
    PrefixOfAppend(xml, TitleLine(title));
    PrefixExtend(x1, Optional(link, LinkLine), xml);
    PrefixExtend(x2, Optional(guid, GuidLine), xml);
    PrefixExtend(x3, Optional(description, DescriptionLine), xml);
  }

  lemma WithTailExtends(xml: string, duration: Option<JsValue>, order: Option<JsValue>, published: Option<JsValue>, utc: DateFormatter)
    ensures StartsWith(WithTail(xml, duration, order, published, utc), xml)
  {
    var x1 := xml + Optional(duration, DurationLine);
    var x2 := x1 + Optional(order, OrderLine);
    PrefixOfAppend(xml, Optional(duration, DurationLine));
    PrefixExtend(x1, Optional(order, OrderLine), xml);
    PrefixExtend(x2, Optional(published, (d: JsValue) => PubDateLine(d, utc)), xml);
  }

  /** Every rendered item is one `<item>` ... `</item>` block. */
  lemma RenderItemIsBlock(v: ItemView, utc: DateFormatter)
    ensures StartsWith(RenderItem(v, utc), ItemOpen) && EndsWith(RenderItem(v, utc), ItemClose)
  {
    var head := WithHead(ItemOpen, v.title, v.link, v.guid, v.description);
    var withEnclosure := head + Optional(v.enclosure, EnclosureLine);
    var body := WithTail(withEnclosure, v.duration, v.order, v.published, utc);
    WithHeadExtends(ItemOpen, v.title, v.link, v.guid, v.description);
    PrefixExtend(head, Optional(v.enclosure, EnclosureLine), ItemOpen);
    WithTailExtends(withEnclosure, v.duration, v.order, v.published, utc);
    PrefixTransitive(body, withEnclosure, ItemOpen);
    PrefixExtend(body, ItemClose, ItemOpen);
    SuffixOfAppend(body, ItemClose);
  }

  /** An item's callback throws exactly when the item is null or undefined or
      its enclosure cannot be read; otherwise it yields one `<item>` block. */
  lemma ItemBlockShape(item: JsValue, index: nat, utc: DateFormatter)
    ensures ItemBlock(item, index, utc).Err? <==> Nullish(item) || ReadEnclosure(item).Err?
    ensures ItemBlock(item, index, utc).Ok? ==>
      StartsWith(ItemBlock(item, index, utc).value, ItemOpen) && EndsWith(ItemBlock(item, index, utc).value, ItemClose)
  {
    if ItemBlock(item, index, utc).Ok? {
      RenderItemIsBlock(ReadItem(item, index).value, utc);
    }
  }

  /** The whole document is produced exactly when the channel can be read
      and no item's callback throws. */
  lemma DocumentSucceeds(feed: JsValue, utc: DateFormatter)
    ensures CanimusRss(feed, utc).Ok? <==>
      ReadChannel(feed).Ok? &&
      forall k :: 0 <= k < |ReadChannel(feed).value.items| ==> ItemBlock(ReadChannel(feed).value.items[k], k, utc).Ok?
  {
    if ReadChannel(feed).Ok? {
      MapWithIndexSpec(ReadChannel(feed).value.items, BlockOf(utc));
    }
  }

  /** When an item's callback throws, the conversion throws the error of the
      first such item and produces no document. */
  lemma DocumentFailsAtFirstBadItem(feed: JsValue, utc: DateFormatter)
    requires ReadChannel(feed).Ok?
    requires CanimusRss(feed, utc).Err?
    ensures var items := ReadChannel(feed).value.items;
      exists k :: 0 <= k < |items| && ItemBlock(items[k], k, utc) == Err(CanimusRss(feed, utc).error)
        && (forall j :: 0 <= j < k ==> ItemBlock(items[j], j, utc).Ok?)
  {
    MapWithIndexSpec(ReadChannel(feed).value.items, BlockOf(utc));
  }

  lemma ChannelStartsWithHeader(c: ChannelView)
    ensures StartsWith(RenderChannel(c), XmlDeclaration + RssOpen)
  {
    var head := ChannelHead(c.title, c.link, c.description);
    assert head[..|XmlDeclaration + RssOpen|] == XmlDeclaration + RssOpen;
    PrefixExtend(head, Optional(c.author, AuthorLine), XmlDeclaration + RssOpen);
    PrefixExtend(head + Optional(c.author, AuthorLine),
      Optional(c.image, (image: JsValue) => ImageLines(image, c.title, c.link)), XmlDeclaration + RssOpen);
  }

  /** The item blocks are the callback's results for the items, in order. */
  lemma BlocksInOrder(items: seq<JsValue>, utc: DateFormatter)
    requires MapWithIndex(items, BlockOf(utc)).Ok?
    ensures |MapWithIndex(items, BlockOf(utc)).value| == |items|
    ensures forall k :: 0 <= k < |items| ==>
      ItemBlock(items[k], k, utc).Ok? && MapWithIndex(items, BlockOf(utc)).value[k] == ItemBlock(items[k], k, utc).value
  {
    MapWithIndexSpec(items, BlockOf(utc));
    forall k | 0 <= k < |items|
      ensures ItemBlock(items[k], k, utc).Ok? && MapWithIndex(items, BlockOf(utc)).value[k] == ItemBlock(items[k], k, utc).value
    {
      assert BlockOf(utc)(items[k], k) == ItemBlock(items[k], k, utc);
    }
  }

  /** A produced document is the channel header, then one block per item in
      the order of `items`, then the closing tags. */
  lemma DocumentLayout(feed: JsValue, utc: DateFormatter)
    requires CanimusRss(feed, utc).Ok?
    ensures var c := ReadChannel(feed).value;
      var blocks := MapWithIndex(c.items, BlockOf(utc)).value;
      && CanimusRss(feed, utc).value == RenderChannel(c) + Concat(blocks) + ChannelClose
      && |blocks| == |c.items|
      && forall k :: 0 <= k < |blocks| ==>
           ItemBlock(c.items[k], k, utc).Ok? && blocks[k] == ItemBlock(c.items[k], k, utc).value
  {
    BlocksInOrder(ReadChannel(feed).value.items, utc);
  }

  /** A produced document opens with the XML declaration and the `<rss>`
      element and closes the channel and the feed. */
  lemma DocumentFrame(feed: JsValue, utc: DateFormatter)
    requires CanimusRss(feed, utc).Ok?
    ensures StartsWith(CanimusRss(feed, utc).value, XmlDeclaration + RssOpen)
    ensures EndsWith(CanimusRss(feed, utc).value, ChannelClose)
  {
    var c := ReadChannel(feed).value;
    var header := XmlDeclaration + RssOpen;
    var channel := RenderChannel(c);
    var blocks := Concat(MapWithIndex(c.items, BlockOf(utc)).value);
    ChannelStartsWithHeader(c);
    PrefixExtend(channel, blocks, header);
    PrefixExtend(channel + blocks, ChannelClose, header);
    SuffixOfAppend(channel + blocks, ChannelClose);
  }
}
