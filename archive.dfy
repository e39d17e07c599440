/** `processCanimusArchive`: picking the feed and the audio files out of an
    uploaded zip archive.  The archive is its list of entries, in the order
    `Object.entries(zip.files)` visits them. */
module Archive {
  import opened Wrappers
  import opened Js
  import opened FeedReader

  newtype byte = x: int | 0 <= x < 256

  /** One entry of the archive: its path and its uncompressed bytes. */
  datatype ZipEntry = ZipEntry(name: string, data: seq<byte>)

  /** An audio file handed to the upload loop. */
  datatype AudioFile = AudioFile(filename: string, buffer: seq<byte>, size: nat)

  /** What the archive yields: the album and its audio files. */
  datatype Album = Album(feed: Feed, audioFiles: seq<AudioFile>)

  /** `file.async('text')`, which the model takes from the caller. */
  type TextDecoder = seq<byte> -> string

  const NoFeed := Error("No RSS feed found in archive")

  /** `/feed\.(xml|rss)$/i` or `.endsWith('.xml')`: the second test is case
      sensitive, the first is not. */
  predicate IsFeedName(name: string) {
    EndsWith(ToLowerCase(name), "feed.xml") || EndsWith(ToLowerCase(name), "feed.rss") || EndsWith(name, ".xml")
  }

  /** `/\.(mp3|m4a|ogg|flac|wav)$/i` */
  predicate IsAudioName(name: string) {
    var lower := ToLowerCase(name);
    EndsWith(lower, ".mp3") || EndsWith(lower, ".m4a") || EndsWith(lower, ".ogg")
    || EndsWith(lower, ".flac") || EndsWith(lower, ".wav")
  }

  function AudioFileOf(e: ZipEntry): (a: AudioFile)
    ensures a.filename == e.name && a.buffer == e.data && a.size == |a.buffer|
  {
    AudioFile(e.name, e.data, |e.data|)
  }

  // ---------------------------------------------------------------------------
  // Specification

  /** The position of the first entry whose name passes the feed test. */
  function FeedIndex(entries: seq<ZipEntry>): (r: Option<nat>)
    decreases |entries|
    ensures r.Some? ==> r.value < |entries|
  {
    if |entries| == 0 then None
    else if IsFeedName(entries[0].name) then Some(0)
    else match FeedIndex(entries[1..])
      case None => None
      case Some(k) => Some(k + 1)
  }

  /** The positions of the audio entries, in entry order. */
  function AudioIndices(entries: seq<ZipEntry>): seq<nat>
    decreases |entries|
  {
    if |entries| == 0 then []
    else
      var n := |entries| - 1;
      AudioIndices(entries[..n]) + (if IsAudioName(entries[n].name) then [n] else [])
  }

  /** The audio files, one per audio entry, in entry order. */
  function AudioOf(entries: seq<ZipEntry>): seq<AudioFile>
    decreases |entries|
  {
    if |entries| == 0 then []
    else
      var n := |entries| - 1;
      AudioOf(entries[..n]) + (if IsAudioName(entries[n].name) then [AudioFileOf(entries[n])] else [])
  }

  /** The text of the chosen feed entry, when there is one. */
  function FeedContent(entries: seq<ZipEntry>, decode: TextDecoder): Option<string> {
    match FeedIndex(entries)
    case None => None
    case Some(k) => Some(decode(entries[k].data))
  }

  /** What processing the archive returns or throws. */
  function ArchiveOf(entries: seq<ZipEntry>, decode: TextDecoder, parse: XmlParser): Result<Album, Failure> {
    var content := FeedContent(entries, decode);
    if content.None? || content.value == "" then
      Err(NoFeed)
    else
      var feed :- ParseCanimusFeed(content.value, parse);
      Ok(Album(feed, AudioOf(entries)))
  }

  // ---------------------------------------------------------------------------
  // The scan as the source performs it

  /** `processCanimusArchive(filePath)` once the archive is open: the first
      loop stops at the first feed entry, the second collects every audio
      entry. */
  method ProcessCanimusArchive(entries: seq<ZipEntry>, decode: TextDecoder, parse: XmlParser)
    returns (r: Result<Album, Failure>)
    ensures r == ArchiveOf(entries, decode, parse)
  {
    var feedContent := FindFeed(entries, decode);
    if feedContent.None? || feedContent.value == "" {
      return Err(NoFeed);
    }
    var feed := ParseCanimusFeed(feedContent.value, parse);
    if feed.Err? {
      return Err(feed.error);
    }
    var audioFiles := CollectAudio(entries);
    r := Ok(Album(feed.value, audioFiles));
  }

  /** The first loop: the text of the first entry that passes the feed test. */
  method FindFeed(entries: seq<ZipEntry>, decode: TextDecoder) returns (feedContent: Option<string>)
    ensures feedContent == FeedContent(entries, decode)
  {
    feedContent := None;
    var i := 0;
    while i < |entries|
      invariant 0 <= i <= |entries|
      invariant feedContent == None
      invariant forall j :: 0 <= j < i ==> !IsFeedName(entries[j].name)
    {
      if IsFeedName(entries[i].name) {
        feedContent := Some(decode(entries[i].data));
        break;
      }
      i := i + 1;
    }
    FeedIndexIsFirst(entries);
  }

  /** The second loop: every audio entry, in entry order. */
  method CollectAudio(entries: seq<ZipEntry>) returns (audioFiles: seq<AudioFile>)
    ensures audioFiles == AudioOf(entries)
  {
    audioFiles := [];
    var j := 0;
    while j < |entries|
      invariant 0 <= j <= |entries|
      invariant audioFiles == AudioOf(entries[..j])
    {
      assert entries[..j + 1][..j] == entries[..j];
      if IsAudioName(entries[j].name) {
        var buffer := entries[j].data;
        audioFiles := audioFiles + [AudioFile(entries[j].name, buffer, |buffer|)];
      }
      j := j + 1;
    }
    assert entries[..j] == entries;
  }

  // ---------------------------------------------------------------------------
  // Properties

  /** The chosen feed is the first entry that passes the feed test, and there
      is none exactly when no entry passes it. */
  lemma {:induction false} FeedIndexIsFirst(entries: seq<ZipEntry>)
    ensures FeedIndex(entries).Some? ==>
      var k := FeedIndex(entries).value;
      IsFeedName(entries[k].name) && forall j :: 0 <= j < k ==> !IsFeedName(entries[j].name)
    ensures FeedIndex(entries).None? <==> forall j :: 0 <= j < |entries| ==> !IsFeedName(entries[j].name)
    decreases |entries|
  {
    if |entries| > 0 && !IsFeedName(entries[0].name) {
      var rest := entries[1..];
      FeedIndexIsFirst(rest);
      assert forall j :: 0 <= j < |rest| ==> rest[j] == entries[j + 1];
      if FeedIndex(entries).None? {
        forall j | 0 <= j < |entries| ensures !IsFeedName(entries[j].name) {
          if j > 0 {
            assert entries[j] == rest[j - 1];
          }
        }
      }
    }
  }

  /** A position is among the audio positions exactly when its entry
      passes the audio test. */
  lemma {:induction false} AudioIndicesMembers(entries: seq<ZipEntry>)
    ensures forall k :: k in AudioIndices(entries) <==> 0 <= k < |entries| && IsAudioName(entries[k].name)
    decreases |entries|
  {
    if |entries| > 0 {
      var n := |entries| - 1;
      var init := entries[..n];
      AudioIndicesMembers(init);
      var before := AudioIndices(init);
      var idx := AudioIndices(entries);
      assert idx == before + (if IsAudioName(entries[n].name) then [n] else []);
      forall k ensures k in idx <==> 0 <= k < |entries| && IsAudioName(entries[k].name) {
        if 0 <= k < n {
          assert init[k] == entries[k];
        }
      }
    }
  }

  /** The audio positions are increasing. */
  lemma {:induction false} AudioIndicesIncreasing(entries: seq<ZipEntry>)
    ensures forall a, b :: 0 <= a < b < |AudioIndices(entries)| ==> AudioIndices(entries)[a] < AudioIndices(entries)[b]
    decreases |entries|
  {
    if |entries| > 0 {
      var n := |entries| - 1;
      var init := entries[..n];
      AudioIndicesIncreasing(init);
      AudioIndicesMembers(init);
      var before := AudioIndices(init);
      forall a | 0 <= a < |before| ensures before[a] < n {
        assert before[a] in before;
      }
      var idx := AudioIndices(entries);
      assert idx == before + (if IsAudioName(entries[n].name) then [n] else []);
      forall a, b | 0 <= a < b < |idx| ensures idx[a] < idx[b] {
        if b < |before| {
          assert idx[a] == before[a] && idx[b] == before[b];
        } else {
          assert idx[a] == before[a] && idx[b] == n;
        }
      }
    }
  }

  /** The audio files are the audio entries in entry order, each with its
      size equal to its byte length. */
  lemma {:induction false} AudioOfFollowsEntries(entries: seq<ZipEntry>)
    ensures |AudioOf(entries)| == |AudioIndices(entries)|
    ensures forall k :: 0 <= k < |AudioOf(entries)| ==>
      AudioIndices(entries)[k] < |entries| && AudioOf(entries)[k] == AudioFileOf(entries[AudioIndices(entries)[k]])
    ensures forall a :: a in AudioOf(entries) ==> IsAudioName(a.filename) && a.size == |a.buffer|
    decreases |entries|
  {
    if |entries| > 0 {
      var n := |entries| - 1;
      var init := entries[..n];
      AudioOfFollowsEntries(init);
      AudioIndicesMembers(init);
      assert forall k :: 0 <= k < n ==> init[k] == entries[k];
      forall k | 0 <= k < |AudioIndices(init)| ensures AudioIndices(init)[k] < n {
        assert AudioIndices(init)[k] in AudioIndices(init);
      }
    }
  }

  /** The archive is rejected with "No RSS feed found in archive" when no
      entry passes the feed test or the chosen entry's text is empty; an
      accepted archive has a feed entry and carries every audio file. */
  lemma ArchiveOutcome(entries: seq<ZipEntry>, decode: TextDecoder, parse: XmlParser)
    ensures (forall j :: 0 <= j < |entries| ==> !IsFeedName(entries[j].name)) ==>
      ArchiveOf(entries, decode, parse) == Err(NoFeed)
    ensures FeedIndex(entries).Some? && decode(entries[FeedIndex(entries).value].data) == "" ==>
      ArchiveOf(entries, decode, parse) == Err(NoFeed)
    ensures ArchiveOf(entries, decode, parse).Ok? ==>
      && FeedIndex(entries).Some?
      && ParseCanimusFeed(decode(entries[FeedIndex(entries).value].data), parse) == Ok(ArchiveOf(entries, decode, parse).value.feed)
      && ArchiveOf(entries, decode, parse).value.audioFiles == AudioOf(entries)
  {
    FeedIndexIsFirst(entries);
  }
}
