# wiki-plugin-mutopia server core in Dafny

This project models the server side of the Mutopia wiki plugin
(`server/server.js`). The plugin lets the owner of a wiki upload a Canimus
album archive: a zip holding an RSS feed and the audio files. It publishes
every track on the Sanora store. It also serves the user's Sanora feed back
as JSON or as Canimus RSS, and lists the library grouped by album.

The model covers the logic between the libraries:

- `XmlEscape`: `escapeXml`, the five global replaces with `&` first.
- `RssWriter`: `convertToCanimusRSS`. The JSON feed is read with JavaScript's
  `||` fallbacks and truthiness, and the document is accumulated line by line.
  The methods build it the way the source does (`xml +=` in a loop). The
  functions state what the document is.
- `FeedReader`: `parseCanimusFeed` after the XML parser has produced its tree.
  The parser is a parameter.
- `Archive`: the two scans of the archive entries. The first stops at the
  first feed file. The second collects every audio file.
- `Publish`: `uploadTrackToSanora`. It builds two signed requests: the product
  first, then its artifact. Sanora is an object that logs the requests it
  receives and answers through a given reply function. `Date.now()` is a clock
  object that counts its readings.
- `UploadRoute`: the upload route. It pairs feed tracks with audio files
  (`find` on the basename or the title, else by position), then publishes
  them in a loop that the first error aborts. The loop's specification reads
  the pairing of each track from a precomputed sequence; the matcher is pure,
  so this is the pairing the loop computes. Publishing one track is a
  parameter of the specification, instantiated with `uploadTrackToSanora`.
- `FeedFormat`: the `wantsRss` test and the feed route.
- `Library`: the library route's grouping of tracks by album in a `Map`.
- `Js`: the slice of JavaScript the server relies on. It covers values,
  truthiness, `||`, property reads with and without `?.`, `String(v)`,
  `map`/`forEach` with a callback that may throw, `includes`, `endsWith`
  and `toLowerCase`.

A thrown exception is the `Err` case of a `Result`. An `Error` the server
constructs carries its exact message. A `TypeError` raised by the runtime is
the other case. Sanora's replies, the XML parser, the text decoder, signing,
`encodeURIComponent` and date formatting are all parameters.

The model follows the code where it behaves differently from what its
comments or a first reading suggest:

- The feed file is the first entry that passes the test. The comment at
  server.js:232 lists `feed.xml`, `feed.rss` and `*.xml`, but there is no
  preference for `feed.xml` over other `.xml` files
  (`Archive.FeedIndexIsFirst`).
- The default track `order` is the 0-based position, while the default
  title counts from 1 (`FeedReader.TrackDefaults`).
- The positional fallback takes `audioFiles[i]` by track index. It does not
  take the i-th file left unmatched (`UploadRoute.PositionalFallback`).
- A track without an enclosure is paired with the first audio file: the empty
  basename is contained in every file name
  (`UploadRoute.EmptyBasenameTakesFirstFile`).
- The first publishing error aborts the whole batch and the route answers
  500. Tracks published before it stay published, but the reply does not list
  them (`UploadRoute.FirstErrorAborts`).
- The comment at server.js:488 says the query parameter takes precedence over
  the Accept header. The code OR-s the two, so an XML Accept header selects RSS
  even with `format=json` (`FeedFormat.HeaderWinsOverFormat`).
- The enclosure's `length` and `type` and the `itunes:order` value are written
  without `escapeXml` (server.js:151, 162), unlike every other value. A type
  holding `"` therefore ends its attribute early, and an order holding `<`
  puts raw markup into the document (`RssWriter.UnescapedEnclosureType`,
  `RssWriter.UnescapedOrder`).
- The archive function is declared as `processCanimus Archive` (server.js:226),
  with a space, which is a syntax error. The route calls `processCanimusArchive`
  (server.js:408), and the model takes that as the function's name.

## Model

| member | source | states |
|---|---|---|
| XmlEscape.EscapeXml | server/server.js:181-189 | The output has no raw `<`, `>`, `"` or `'`, and every `&` in it starts one of the five entities. Decoding the entities gives back the input string. A non-string gives `''`. |
| XmlEscape.EscapeIsPerCharacter | server/server.js:183-188 | The chain of replaces equals replacing each character by its own entity independently, so no entity is escaped twice. |
| XmlEscape.ReplacementsOrdered | server/server.js:183-188 | No replacement text contains a character that a later replace rewrites. `&` goes first, so the entities are not re-escaped. |
| XmlEscape.EscapeAppend | server/server.js:183-188 | Escaping distributes over concatenation. |
| XmlEscape.UnescapeInvertsEscape | server/server.js:181-189 | A left-to-right entity decoder inverts the per-character escaping. |
| XmlEscape.EscapeKeepsPlainText | server/server.js:181-189 | A string with none of the five characters is returned unchanged. |
| XmlEscape.EscapeNeverShrinks | server/server.js:181-189 | The escaped string is never shorter than its input. |
| RssWriter.ConvertToCanimusRSS | server/server.js:100-176 | The accumulated document, or the error thrown, equals the specification `CanimusRss`. |
| RssWriter.AppendItems | server/server.js:129-170 | The `forEach` loop yields the error of the first item whose callback throws. Otherwise it yields the input followed by every item's block, in item order. |
| RssWriter.AppendChannel | server/server.js:107-126 | The channel header equals `RenderChannel`: the declaration, the rss and channel openers, title, link and description, then the author and image lines only when present. |
| RssWriter.AppendItem | server/server.js:130-169 | One item's block equals `ItemBlock`. It throws on a null or undefined item. |
| RssWriter.AppendHead | server/server.js:131-143 | The title line always appears. The link, guid and description lines appear only for truthy values, with `summary` preferred over `description`. |
| RssWriter.AppendEnclosure | server/server.js:146-154 | The enclosure line comes from the first attachment, else from `content_url`, else is absent. Reading a null first attachment throws. |
| RssWriter.AppendIfTruthy | server/server.js:133-143 | A guarded `xml +=` adds the line for a truthy value and nothing otherwise. |
| RssWriter.AppendTail | server/server.js:157-167 | The duration line appears for a truthy duration, the order line whenever `order` is defined, and the pubDate line for a truthy date. |
| RssWriter.UnescapedEnclosureAttributes | server/server.js:151 | The enclosure's length and type appear in the line exactly as given, unescaped. |
| RssWriter.UnescapedEnclosureType | server/server.js:151 | A type holding `"` gives a different line than its escaped text would. |
| RssWriter.UnescapedOrder | server/server.js:161-163 | An order holding `<` gives a different line than its escaped text would. |
| RssWriter.ReadChannelFails | server/server.js:101-104 | Reading the feed throws exactly when the feed is nullish or `items` is truthy and not an array. Falsy `items` means no items. |
| RssWriter.ChannelTitleFallback | server/server.js:101 | The channel title is `title`, else `name`, else "Music Feed", and is never falsy. |
| RssWriter.ItemTitleFallback | server/server.js:131 | The item title is `title`, else `name`, else "Track n" with n the 1-based index. |
| RssWriter.EnclosureRules | server/server.js:146-154 | With attachments of positive length, the enclosure comes from the first one, with url `''`, length 0 and type `audio/mpeg` as defaults. Reading it throws exactly when it is nullish. Otherwise a truthy `content_url` gives an enclosure of length 0 and type `audio/mpeg`, even when `attachments` is an empty array. There is no enclosure when neither is present. |
| RssWriter.RenderItemIsBlock | server/server.js:130-169 | Every item block starts with `<item>` and ends with `</item>`. |
| RssWriter.ItemBlockShape | server/server.js:130-169 | An item's callback throws exactly when the item is nullish or its enclosure cannot be read. Otherwise it yields one block that starts with `<item>` and ends with `</item>`. |
| RssWriter.DocumentSucceeds | server/server.js:100-176 | The conversion succeeds exactly when the channel can be read and every item's callback succeeds. |
| RssWriter.DocumentFailsAtFirstBadItem | server/server.js:129-170 | On failure, the error is that of the first failing item, and every earlier item succeeds. |
| RssWriter.ChannelStartsWithHeader | server/server.js:107-108 | The channel rendering starts with the XML declaration and the `<rss>` opener. |
| RssWriter.BlocksInOrder | server/server.js:129-170 | There is exactly one block per item, and block k is item k's block. |
| RssWriter.DocumentLayout | server/server.js:100-176 | The document is the channel header, then one block per input item in input order, then the closing tags. |
| RssWriter.DocumentFrame | server/server.js:107-173 | The document starts with the declaration and `<rss>` opener and ends with `</channel></rss>`. |
| FeedReader.ParseCanimusFeed | server/server.js:195-221 | A parser error propagates unchanged. An album read has a truthy title and author. |
| FeedReader.ReadFeed | server/server.js:199-220 | An album is read only from a root that has a channel, and always has a truthy title and author. |
| FeedReader.MissingChannelIff | server/server.js:199-202 | "Invalid Canimus feed: missing channel" is thrown exactly when neither `rss` nor `feed` is truthy, or the root has no truthy `channel`. |
| FeedReader.ReadFeedSucceeds | server/server.js:199-219 | The album is read exactly when the root and channel are present, `item` is absent or an array, and no item is null. |
| FeedReader.TracksFollowItems | server/server.js:212-219 | There is one track per `<item>`, in document order, each read from its own item and index. |
| FeedReader.NoItemsNoTracks | server/server.js:205 | A channel without items gives no tracks. |
| FeedReader.AlbumDefaults | server/server.js:208-211 | The album title defaults to "Untitled Album". The author is `itunes:author`, else `author`, else "Unknown Artist". |
| FeedReader.TrackDefaults | server/server.js:213-218 | The track title defaults to "Track n" with n 1-based. The order defaults to the 0-based index. The guid is `guid._`, else `guid`, else `null`. |
| FeedReader.ReadTrack | server/server.js:212-219 | Reading a track throws exactly when the item is null or undefined. A track read always has a truthy title. |
| Archive.ProcessCanimusArchive | server/server.js:226-270 | The two scans return the album and audio files of `ArchiveOf`, or its error. |
| Archive.FeedIndexIsFirst | server/server.js:236-242 | The chosen feed entry is the first one whose name passes the feed test. There is none exactly when no entry passes. |
| Archive.AudioIndicesMembers | server/server.js:253-254 | An entry is taken as audio exactly when its lowercased name ends in one of the five extensions. |
| Archive.AudioIndicesIncreasing | server/server.js:252-262 | The audio files keep the order of the archive entries: their positions increase. |
| Archive.AudioOfFollowsEntries | server/server.js:252-262 | The audio files are the audio entries in entry order, each with `size` equal to its byte length. |
| Archive.FindFeed | server/server.js:236-242 | The first loop yields the text of the first entry passing the feed test, or nothing. |
| Archive.CollectAudio | server/server.js:252-262 | The second loop yields exactly the specification's audio files. |
| Archive.ArchiveOutcome | server/server.js:244-249 | "No RSS feed found in archive" is thrown when no entry passes the test or the chosen text is empty. Success means a feed entry was parsed and all audio files are carried. |
| Publish.Sanora.Put | server/server.js:293-307 | A PUT to Sanora appends the request to the log and returns the reply to it. |
| Publish.Clock.Now | server/server.js:285 | Each `Date.now()` takes the next reading of the clock. |
| Publish.Tags | server/server.js:303 | The tags contain no upper-case ASCII letter. |
| Publish.UploadTrackToSanora | server/server.js:276-355 | The result, the requests Sanora receives and the clock readings all equal `PublishTrack`. |
| Publish.NoCredentialsNoRequests | server/server.js:279-281 | Without credentials, "Mutopia credentials not loaded" is thrown before any request or clock reading. |
| Publish.CreateBeforeUpload | server/server.js:287-341 | At most two requests are sent. The first is the product creation. The artifact upload follows only an error-free create reply. Success sends both. |
| Publish.CreateErrorAborts | server/server.js:307-311 | A create reply with a truthy `error` throws "Failed to create product: …" and no artifact request is sent. |
| Publish.SignedMessages | server/server.js:285-318 | The create message signed is timestamp + uuid + title + "album - artist" + "0". The artifact message signed is its own timestamp + uuid + title, sent to the product URL + `/artifact` with the file's bytes. |
| Publish.PublishTrackRequests | server/server.js:293-341 | Publishing one track sends one or two requests after those already sent. The first is the create request. The second, when present, is the artifact request. |
| Publish.ResultCarriesProductId | server/server.js:346-350 | The result's `id` is the create reply's `productId`. Title, artist and album are the track's. |
| Publish.TagsAreLowerCase | server/server.js:303 | The tags are `music,artist,album` lowercased, character by character. |
| Publish.TagsIgnoreCase | server/server.js:303 | Two tracks whose artist and album agree up to ASCII case get the same tags. |
| Publish.TagsKeepLowerCase | server/server.js:303 | A tag string with no upper-case letter is kept unchanged. |
| UploadRoute.Basename | server/server.js:418 | `path.basename` drops the trailing slashes and keeps the last path component. That is the longest run without `/` that ends where the trailing slashes begin. |
| UploadRoute.FirstMatchIsFirst | server/server.js:416-419 | `find` gives the first file whose name contains the basename or the title. It gives nothing exactly when no file matches. |
| UploadRoute.MatchFor | server/server.js:416-420 | The matcher throws exactly when there is at least one file and the enclosure url is not a string. `path.basename` rejects the url, and the callback only runs when there is a file. |
| UploadRoute.EmptyBasenameTakesFirstFile | server/server.js:417-419 | With no enclosure url, or an empty basename, the first audio file is taken whenever one exists. |
| UploadRoute.PositionalFallback | server/server.js:420 | With no match, track i takes `audioFiles[i]`. It is skipped when there are no more than i files. |
| UploadRoute.MatchIsAnAudioFile | server/server.js:416-422 | The chosen file is one of the archive's audio files. A track with index below the file count always gets one. |
| UploadRoute.PlannedSpec | server/server.js:412-433 | The tracks that get a file are listed in feed order, each once, and there are no more of them than tracks. |
| UploadRoute.RoundOfKeepsTrackData | server/server.js:423-429 | Publishing a track through `uploadTrackToSanora` yields an upload with the title, artist and album it was given. |
| UploadRoute.PublishTracks | server/server.js:411-433 | The loop's result, requests and clock readings equal the specification `PublishFrom`, applied to the per-track pairings and to `uploadTrackToSanora` as the round. |
| UploadRoute.PublishFromStep | server/server.js:414-431 | A successful loop met no matcher error at a track. A track without a file adds nothing. A track with a file adds exactly one upload, after the earlier ones, carrying the track's title and the album's title and artist. |
| UploadRoute.PublishFromFollowsPlan | server/server.js:411-433 | A successful loop returns one upload per planned track, in feed order, with that track's title and the album's title and artist. |
| UploadRoute.PublishFromMatches | server/server.js:414-420 | A successful loop met no matcher error on any track from the start position on. |
| UploadRoute.FirstErrorAborts | server/server.js:414-431 | A matcher error at a track ends the loop with that error and no further request. A publishing error ends it with that error and the requests sent so far. |
| UploadRoute.HandleUpload | server/server.js:396-464 | The route answers 400 without a file. It answers 500 with the message of the first error, from the archive or the loop. Otherwise it answers 200 with the album summary and the uploads, all as `UploadOutcome` says. |
| UploadRoute.TrackCountBound | server/server.js:438-448 | `trackCount` is the number of uploads and never exceeds the number of tracks. It equals it when there are at least as many audio files as tracks. |
| FeedFormat.FormatParam | server/server.js:489 | An absent format stays undefined. A string is lowercased character by character, keeping its length. Any other value throws. |
| FeedFormat.WantsRssIff | server/server.js:489-496 | The `wantsRss` test (`WantsRss`), for every format the route accepts, absent or a string: RSS is chosen exactly when the format is `rss` or `xml` in any case, or one of the three XML media types occurs in the Accept header. With no format only the header decides. |
| FeedFormat.HeaderWinsOverFormat | server/server.js:491-496 | An Accept header with an XML type selects RSS whatever the format parameter says, `format=json` included. |
| FeedFormat.UpperCaseFormatSelectsRss | server/server.js:489-491 | `format=RSS` selects RSS. |
| FeedFormat.JsonByDefault | server/server.js:489-496 | With an Accept header naming none of the XML types, a request without a format, or with `format=json`, gets JSON. |
| FeedFormat.ServeFeed | server/server.js:471-515 | The route's answer equals `FeedRoute`. |
| FeedFormat.ReplyToFeed | server/server.js:484-507 | The steps after the fetch yield `FeedReply`: Sanora's error, the format parameter's error or the rendering's error, else the 200 answer. |
| FeedFormat.FeedRouteErrors | server/server.js:471-486 | No user gives 404. A failed fetch, an unreadable reply or a Sanora `error` gives 500 with the error's message. |
| FeedFormat.FeedRouteSuccess | server/server.js:488-510 | A 200 carries the RSS rendering exactly when RSS is wanted, else the JSON feed unchanged. |
| Library.GroupAlbums | server/server.js:540-553 | The `forEach` over a `Map` yields the grouping `Grouped`, or the error of the first null track. |
| Library.ServeLibrary | server/server.js:521-567 | The route's answer equals `LibraryRoute`. |
| Library.GroupedNext | server/server.js:544-552 | One more non-null track inserts that track into its album, creating the album at the end when it is new. |
| Library.GroupedSucceeds | server/server.js:544-545 | Grouping succeeds when no track is null or undefined. |
| Library.GroupedFails | server/server.js:544-545 | Grouping throws exactly when some track is null or undefined. |
| Library.GroupedTitles | server/server.js:544-551 | Album names appear in first-seen order, each once. |
| Library.GroupedTracks | server/server.js:544-551 | Each album holds exactly the tracks carrying its name, in input order. |
| Library.GroupedTotal | server/server.js:544-551 | The album track counts sum to the number of tracks. |
| Library.GroupedSpec | server/server.js:540-553 | The three grouping properties together. |
| Library.UnknownAlbumFallback | server/server.js:545 | A track without a truthy `album` is listed under "Unknown Album". |
| Library.LibraryListsEveryTrack | server/server.js:540-558 | A 200 answer lists the items unchanged beside the albums, and the albums hold as many tracks as the items. |
| Library.OneAlbumOfTwo | server/server.js:540-553 | Two tracks of one album form one album holding both, in input order. |
| Library.TwoAlbumsInOrder | server/server.js:540-553 | Two tracks of one album followed by a track of another give those two albums in order of first appearance, the first holding its two tracks in input order. |
| Js.MapWithIndexSpec | server/server.js:212-219 | `map` with a throwing callback succeeds exactly when every call does, keeping results in order. Otherwise it throws the first call's error. |
| Js.IncludesPosition | server/server.js:419 | When `includes` holds, a position where the string occurs is produced. |
| Js.OccursIncludes | server/server.js:419 | An occurrence at any position makes `includes` hold. |
| Js.IncludesIffOccurs | server/server.js:419 | `includes` holds exactly when the string occurs at some position. |

## Left out

- Reading the uploaded file, JSZip decompression, `file.async` decoding, the xml2js parser, `fetch`, `FormData`, `response.json()`, `sessionless.sign`, `encodeURIComponent`, `toUTCString` and `toISOString` are foreign code. They are parameters of the model: functions, or the `Responder` of the Sanora object.
- A failure in those foreign parts cannot be represented. The archive is a list of entries, and decoding and signing are total functions. An unreadable or corrupt zip, a failing `file.async` or a rejected signature, each of which the source turns into a 500 through the catch at server.js:450-463, is therefore not modelled. A parser error is modelled.
- Credential bootstrap (`loadMutopiaCredentials`, lines 35-94) is file and network I/O. The loaded identity is the `Credentials` value, with `None` for "not loaded".
- The multer upload limits, temp-file removal (`unlinkSync`), console logging, the owner middleware, the proxy routes and their error handler, and wasm serving are plumbing with no logic to state.
- The `stack` field of the upload route's 500 body is left out. The model keeps the status and the message.
- Response encoding (`res.json`, `res.send`, headers) is left out. A response is its status, content type and body value.
- Numbers are integers. Floating point, NaN and `-0` are not modelled.
- `toLowerCase` and the `/i` regular expressions fold only ASCII letters.
- Objects are lists of properties, and a property read takes the first one with the key. The model assumes the keys are distinct, as they are in every object JavaScript or `JSON.parse` builds.
- The order of `Object.entries(zip.files)` is taken as given. The model does not reorder integer-like names the way JavaScript does.
- Runtime `TypeError` messages follow V8's wording only approximately. The messages of the server's own `Error`s are exact.
- RssWriter.ReadEnclosure: `attachments.length > 0` is modelled for numbers and `true`. Other values JavaScript would coerce (numeric strings) count as not positive.
- Library.GroupAlbums: album keys are compared as values. A JavaScript `Map` compares object and array keys by reference, so two equal-looking object album values would form two albums there and one here.
- Publish.Clock.Now: `Date.now()` is a natural number chosen by the clock function. Its millisecond meaning is not modelled.
