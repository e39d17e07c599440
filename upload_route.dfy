/** `POST /plugin/mutopia/upload`: the archive's tracks paired with its audio
    files and published one after the other. */
module UploadRoute {
  import opened Wrappers
  import opened Js
  import opened FeedReader
  import opened Archive
  import opened Publish

  /** `path.basename(p)` on POSIX: trailing slashes are dropped, then the
      text after the last remaining slash is kept.  The result is the last
      run of characters without `/` that ends where the trailing slashes
      begin: the whole of what is left, or what follows a `/`. */
  function Basename(p: string): (base: string)
    ensures forall i :: 0 <= i < |base| ==> base[i] != '/'
    ensures var n := |TrimSlashes(p)|;
      && |base| <= n <= |p|
      && (forall i :: n <= i < |p| ==> p[i] == '/')
      && (n == 0 || p[n - 1] != '/')
      && base == p[n - |base|..n]
      && (|base| == n || p[n - |base| - 1] == '/')
  {
    AfterLastSlash(TrimSlashes(p))
  }

  function TrimSlashes(p: string): (r: string)
    decreases |p|
    ensures |r| <= |p| && r == p[..|r|]
    ensures |r| == 0 || r[|r| - 1] != '/'
    ensures forall i :: |r| <= i < |p| ==> p[i] == '/'
  {
    if |p| > 0 && p[|p| - 1] == '/' then TrimSlashes(p[..|p| - 1]) else p
  }

  function AfterLastSlash(p: string): (r: string)
    decreases |p|
    ensures forall i :: 0 <= i < |r| ==> r[i] != '/'
    ensures EndsWith(p, r)
    ensures |r| == |p| || p[|p| - |r| - 1] == '/'
  {
    if |p| == 0 || p[|p| - 1] == '/' then ""
    else
      var front := p[..|p| - 1];
      var init := AfterLastSlash(front);
      assert front[|front| - |init|..] == init;
      assert p[|p| - 1 - |init|..] == init + [p[|p| - 1]];
      assert |init| < |front| ==> p[|p| - |init| - 2] == front[|front| - |init| - 1];
      init + [p[|p| - 1]]
  }

  /** What `path.basename` throws when its argument is not a string. */
  function BasenameTypeError(v: JsValue): Failure {
    TypeError("The \"path\" argument must be of type string. Received " + ToJsString(v))
  }

  /** The `find` callback: the file name contains the enclosure's basename
      or the track title. */
  predicate Matches(file: AudioFile, base: string, title: JsValue) {
    Includes(file.filename, base) || Includes(file.filename, ToJsString(title))
  }

  /** `audioFiles.find(...)`: the position of the first file that matches. */
  function FirstMatch(audio: seq<AudioFile>, base: string, title: JsValue): (r: Option<nat>)
    decreases |audio|
    ensures r.Some? ==> r.value < |audio|
  {
    if |audio| == 0 then None
    else if Matches(audio[0], base, title) then Some(0)
    else match FirstMatch(audio[1..], base, title)
      case None => None
      case Some(k) => Some(k + 1)
  }

  /** The file paired with track `i`: the first matching file, else
      `audioFiles[i]`, else none.  The callback, and with it `basename`,
      only runs when there is at least one file, so the matcher throws
      exactly when there is a file and the enclosure url is not a string. */
  function MatchFor(track: Track, i: nat, audio: seq<AudioFile>): (r: Result<Option<AudioFile>, Failure>)
    ensures r.Err? <==> |audio| > 0 && !Or(OptGet(track.enclosure, "url"), Str("")).Str?
  {
    if |audio| == 0 then Ok(None)
    else
      var url := Or(OptGet(track.enclosure, "url"), Str(""));
      if !url.Str? then Err(BasenameTypeError(url))
      else
        match FirstMatch(audio, Basename(url.s), track.title)
        case Some(k) => Ok(Some(audio[k]))
        case None => if i < |audio| then Ok(Some(audio[i])) else Ok(None)
  }

  /** The values the route hands `uploadTrackToSanora` for a track. */
  function TrackDataOf(feed: Feed, track: Track): TrackData {
    TrackData(track.title, feed.author, feed.title, track.duration, track.order)
  }

  // ---------------------------------------------------------------------------
  // Specification of the upload loop

  /** The outcome of the loop: the published tracks or the first error, with
      the requests sent and the clock readings taken. */
  datatype Batch = Batch(result: Result<seq<UploadedTrack>, Failure>, sent: seq<Request>, readings: nat)

  /** The pairing the loop computes for each track, in feed order: entry
      `k` is what the matcher gives track `k`. */
  function Pairings(tracks: seq<Track>, audio: seq<AudioFile>): (m: seq<Result<Option<AudioFile>, Failure>>)
    ensures |m| == |tracks|
    ensures forall k :: 0 <= k < |tracks| ==> m[k] == MatchFor(tracks[k], k, audio)
  {
    seq(|tracks|, k requires 0 <= k < |tracks| => MatchFor(tracks[k], k, audio))
  }

  /** Publishing one track: the metadata, the paired file, the requests
      sent so far and the clock readings taken so far. */
  type Round = (TrackData, AudioFile, seq<Request>, nat) -> Publication

  /** The round the route performs: `uploadTrackToSanora` with the file's
      bytes and name. */
  function RoundOf(cred: Credentials, env: Externals, respond: Responder, at: nat -> nat): Round {
    (track: TrackData, file: AudioFile, sent: seq<Request>, readings: nat) =>
      PublishTrack(cred, track, file.buffer, file.filename, env, respond, at, sent, readings)
  }

  /** A round whose upload carries the title, artist and album it was given. */
  ghost predicate KeepsTrackData(round: Round) {
    forall track, file, sent, readings :: round(track, file, sent, readings).result.Ok? ==>
      var u := round(track, file, sent, readings).result.value;
      u.title == track.title && u.artist == track.artist && u.album == track.album
  }

  /** `uploadTrackToSanora` answers with the metadata it was given. */
  lemma RoundOfKeepsTrackData(cred: Credentials, env: Externals, respond: Responder, at: nat -> nat)
    ensures KeepsTrackData(RoundOf(cred, env, respond, at))
  {
    forall track, file, sent, readings | RoundOf(cred, env, respond, at)(track, file, sent, readings).result.Ok?
      ensures var u := RoundOf(cred, env, respond, at)(track, file, sent, readings).result.value;
        u.title == track.title && u.artist == track.artist && u.album == track.album
    {
      ResultCarriesProductId(cred, track, file.buffer, file.filename, env, respond, at, sent, readings);
    }
  }

  /** The loop from track `i` on, with `done` already published; `pairs`
      holds the pairing of each track and `round` publishes one. */
  function PublishFrom(
    feed: Feed, pairs: seq<Result<Option<AudioFile>, Failure>>, round: Round,
    i: nat, done: seq<UploadedTrack>, sent: seq<Request>, readings: nat): Batch
    requires |pairs| == |feed.tracks|
    decreases |feed.tracks| - i
  {
    if i >= |feed.tracks| then Batch(Ok(done), sent, readings)
    else
      match pairs[i]
      case Err(e) => Batch(Err(e), sent, readings)
      case Ok(None) => PublishFrom(feed, pairs, round, i + 1, done, sent, readings)
      case Ok(Some(file)) =>
        var p := round(TrackDataOf(feed, feed.tracks[i]), file, sent, readings);
        if p.result.Err? then Batch(Err(p.result.error), p.sent, p.readings)
        else PublishFrom(feed, pairs, round, i + 1, done + [p.result.value], p.sent, p.readings)
  }

  /** For each track, whether it is paired with a file. */
  function Picks(pairs: seq<Result<Option<AudioFile>, Failure>>): (picks: seq<bool>)
    ensures |picks| == |pairs|
    ensures forall k :: 0 <= k < |pairs| ==> picks[k] == (pairs[k].Ok? && pairs[k].value.Some?)
  {
    seq(|pairs|, k requires 0 <= k < |pairs| => pairs[k].Ok? && pairs[k].value.Some?)
  }

  /** The positions from `i` on that are picked, in order. */
  function Planned(picks: seq<bool>, i: nat): seq<nat>
    decreases |picks| - i
  {
    if i >= |picks| then []
    else if picks[i] then [i] + Planned(picks, i + 1)
    else Planned(picks, i + 1)
  }

  // ---------------------------------------------------------------------------
  // The route as the source performs it

  /** The reply body: `{ success: true, album, tracks }` or `{ success: false, error }`. */
  datatype AlbumSummary = AlbumSummary(title: JsValue, artist: JsValue, description: JsValue, image: JsValue, trackCount: nat)
  datatype Reply =
    | Published(album: AlbumSummary, tracks: seq<UploadedTrack>)
    | Failed(error: string)
  datatype Response = Response(status: nat, body: Reply)

  /** The `for` loop over `feed.tracks`. */
  method PublishTracks(
    feed: Feed, audio: seq<AudioFile>, cred: Credentials, env: Externals, sanora: Sanora, clock: Clock)
    returns (r: Result<seq<UploadedTrack>, Failure>)
    requires sanora != clock as object
    modifies sanora, clock
    ensures var b := PublishFrom(feed, Pairings(feed.tracks, audio), RoundOf(cred, env, sanora.respond, clock.at), 0, [], old(sanora.sent), old(clock.readings));
      r == b.result && sanora.sent == b.sent && clock.readings == b.readings
  {
    ghost var pairs := Pairings(feed.tracks, audio);
    ghost var round := RoundOf(cred, env, sanora.respond, clock.at);
    ghost var total := PublishFrom(feed, pairs, round, 0, [], sanora.sent, clock.readings);
    var uploadedTracks: seq<UploadedTrack> := [];
    var i := 0;
    while i < |feed.tracks|
      invariant 0 <= i <= |feed.tracks|
      invariant round == RoundOf(cred, env, sanora.respond, clock.at)
      invariant total == PublishFrom(feed, pairs, round, i, uploadedTracks, sanora.sent, clock.readings)
      decreases |feed.tracks| - i
    {
      var trackMeta := feed.tracks[i];
      var audioFile := MatchFor(trackMeta, i, audio);
      assert audioFile == pairs[i];
      if audioFile.Err? {
        return Err(audioFile.error);
      }
      if audioFile.value.Some? {
        var file := audioFile.value.value;
        var data := TrackData(trackMeta.title, feed.author, feed.title, trackMeta.duration, trackMeta.order);
        ghost var p := PublishTrack(cred, data, file.buffer, file.filename, env, sanora.respond, clock.at, sanora.sent, clock.readings);
        var result := UploadTrackToSanora(cred, data, file.buffer, file.filename, env, sanora, clock);
        if result.Err? {
          return Err(result.error);
        }
        assert total == PublishFrom(feed, pairs, round, i + 1, uploadedTracks + [result.value], p.sent, p.readings);
        uploadedTracks := uploadedTracks + [result.value];
      }
      i := i + 1;
    }
    r := Ok(uploadedTracks);
  }

  /** The route's outcome: the response, the requests sent and the clock
      readings taken. */
  datatype RouteOutcome = RouteOutcome(response: Response, sent: seq<Request>, readings: nat)

  /** What the route answers for an upload (`None` when no file came with
      the request). */
  function UploadOutcome(
    upload: Option<seq<ZipEntry>>, decode: TextDecoder, parse: XmlParser, cred: Credentials, env: Externals,
    respond: Responder, at: nat -> nat, sent: seq<Request>, readings: nat): RouteOutcome
  {
    if upload.None? then
      RouteOutcome(Response(400, Failed("No file uploaded")), sent, readings)
    else
      var album := ArchiveOf(upload.value, decode, parse);
      if album.Err? then
        RouteOutcome(Response(500, Failed(album.error.message)), sent, readings)
      else
        var feed := album.value.feed;
        var b := PublishFrom(feed, Pairings(feed.tracks, album.value.audioFiles), RoundOf(cred, env, respond, at), 0, [], sent, readings);
        if b.result.Err? then
          RouteOutcome(Response(500, Failed(b.result.error.message)), b.sent, b.readings)
        else
          RouteOutcome(
            Response(200, Published(
              AlbumSummary(feed.title, feed.author, feed.description, feed.image, |b.result.value|),
              b.result.value)),
            b.sent, b.readings)
  }

  /** The route handler once the archive has been stored: read it, publish
      its tracks, answer with the album or with the first error. */
  method HandleUpload(
    upload: Option<seq<ZipEntry>>, decode: TextDecoder, parse: XmlParser, cred: Credentials, env: Externals,
    sanora: Sanora, clock: Clock)
    returns (response: Response)
    requires sanora != clock as object
    modifies sanora, clock
    ensures var o := UploadOutcome(upload, decode, parse, cred, env, sanora.respond, clock.at, old(sanora.sent), old(clock.readings));
      response == o.response && sanora.sent == o.sent && clock.readings == o.readings
  {
    if upload.None? {
      return Response(400, Failed("No file uploaded"));
    }
    var album := ProcessCanimusArchive(upload.value, decode, parse);
    if album.Err? {
      return Response(500, Failed(album.error.message));
    }
    var feed := album.value.feed;
    var uploadedTracks := PublishTracks(feed, album.value.audioFiles, cred, env, sanora, clock);
    if uploadedTracks.Err? {
      return Response(500, Failed(uploadedTracks.error.message));
    }
    response := Response(200, Published(
      AlbumSummary(feed.title, feed.author, feed.description, feed.image, |uploadedTracks.value|),
      uploadedTracks.value));
  }

  // ---------------------------------------------------------------------------
  // Properties of the matcher

  /** `find` returns the first matching file, and nothing exactly when no
      file matches. */
  lemma {:induction false} FirstMatchIsFirst(audio: seq<AudioFile>, base: string, title: JsValue)
    ensures FirstMatch(audio, base, title).Some? ==>
      var k := FirstMatch(audio, base, title).value;
      Matches(audio[k], base, title) && forall j :: 0 <= j < k ==> !Matches(audio[j], base, title)
    ensures FirstMatch(audio, base, title).None? <==> forall j :: 0 <= j < |audio| ==> !Matches(audio[j], base, title)
    decreases |audio|
  {
    if |audio| > 0 && !Matches(audio[0], base, title) {
      var rest := audio[1..];
      FirstMatchIsFirst(rest, base, title);
      assert forall j :: 0 <= j < |rest| ==> rest[j] == audio[j + 1];
      if FirstMatch(audio, base, title).None? {
        forall j | 0 <= j < |audio| ensures !Matches(audio[j], base, title) {
          if j > 0 {
            assert audio[j] == rest[j - 1];
          }
        }
      }
    }
  }

  /** A track whose enclosure has no url (or one whose basename is empty)
      is paired with the first audio file, whatever its name: every name
      contains the empty string. */
  lemma EmptyBasenameTakesFirstFile(track: Track, i: nat, audio: seq<AudioFile>)
    requires |audio| > 0
    requires var url := Or(OptGet(track.enclosure, "url"), Str(""));
      url.Str? && Basename(url.s) == ""
    ensures MatchFor(track, i, audio) == Ok(Some(audio[0]))
  {
    IncludesEmpty(audio[0].filename);
  }

  /** With no file matching by name, track `i` takes `audioFiles[i]`, and
      is skipped when there are not that many files. */
  lemma PositionalFallback(track: Track, i: nat, audio: seq<AudioFile>)
    requires var url := Or(OptGet(track.enclosure, "url"), Str(""));
      url.Str? && forall j :: 0 <= j < |audio| ==> !Matches(audio[j], Basename(url.s), track.title)
    ensures i < |audio| ==> MatchFor(track, i, audio) == Ok(Some(audio[i]))
    ensures i >= |audio| ==> MatchFor(track, i, audio) == Ok(None)
  {
    var url := Or(OptGet(track.enclosure, "url"), Str(""));
    FirstMatchIsFirst(audio, Basename(url.s), track.title);
  }

  /** The chosen file is one of the archive's audio files; a track is only
      skipped when it has no match and its position is past the last file. */
  lemma MatchIsAnAudioFile(track: Track, i: nat, audio: seq<AudioFile>)
    requires MatchFor(track, i, audio).Ok?
    ensures MatchFor(track, i, audio).value.Some? ==> MatchFor(track, i, audio).value.value in audio
    ensures i < |audio| ==> MatchFor(track, i, audio).value.Some?
  {
  }

  // ---------------------------------------------------------------------------
  // Properties of the loop

  predicate Increasing(xs: seq<nat>) {
    forall a, b :: 0 <= a < b < |xs| ==> xs[a] < xs[b]
  }

  lemma ConsIncreasing(x: nat, xs: seq<nat>)
    requires Increasing(xs)
    requires forall k :: 0 <= k < |xs| ==> x < xs[k]
    ensures Increasing([x] + xs)
  {
    var ys := [x] + xs;
    forall a, b | 0 <= a < b < |ys| ensures ys[a] < ys[b] {
      assert ys[b] == xs[b - 1];
      if a > 0 {
        assert ys[a] == xs[a - 1];
      }
    }
  }

  /** The planned positions are exactly the picked ones from `i` on, in
      increasing order, so no track is published twice. */
  lemma {:induction false} PlannedSpec(picks: seq<bool>, i: nat)
    ensures forall k :: 0 <= k < |Planned(picks, i)| ==> i <= Planned(picks, i)[k] < |picks|
    ensures forall k :: k in Planned(picks, i) <==> i <= k < |picks| && picks[k]
    ensures Increasing(Planned(picks, i))
    ensures i <= |picks| ==> |Planned(picks, i)| <= |picks| - i
    decreases |picks| - i
  {
    if i < |picks| {
      PlannedSpec(picks, i + 1);
      if picks[i] {
        ConsIncreasing(i, Planned(picks, i + 1));
      }
    }
  }

  /** With every position picked, every position is planned. */
  lemma {:induction false} PlannedAll(picks: seq<bool>, i: nat)
    requires forall k :: i <= k < |picks| ==> picks[k]
    ensures |Planned(picks, i)| == if i >= |picks| then 0 else |picks| - i
    decreases |picks| - i
  {
    if i < |picks| {
      PlannedAll(picks, i + 1);
    }
  }

  /** `out[base + k]` is the upload of track `plan[k]`, for every `k`. */
  predicate PublishedAs(out: seq<UploadedTrack>, base: nat, plan: seq<nat>, feed: Feed) {
    && |out| == base + |plan|
    && forall k :: 0 <= k < |plan| ==>
         && plan[k] < |feed.tracks|
         && out[base + k].title == feed.tracks[plan[k]].title
         && out[base + k].album == feed.title
         && out[base + k].artist == feed.author
  }

  lemma PublishedAsCons(out: seq<UploadedTrack>, base: nat, i: nat, rest: seq<nat>, feed: Feed)
    requires PublishedAs(out, base + 1, rest, feed)
    requires i < |feed.tracks| && base < |out|
    requires out[base].title == feed.tracks[i].title && out[base].album == feed.title && out[base].artist == feed.author
    ensures PublishedAs(out, base, [i] + rest, feed)
  {
    var plan := [i] + rest;
    forall k | 0 <= k < |plan|
      ensures plan[k] < |feed.tracks| && out[base + k].title == feed.tracks[plan[k]].title
    {
      if k > 0 {
        assert plan[k] == rest[k - 1] && base + k == (base + 1) + (k - 1);
      }
    }
  }

  /** One successful round of the loop: a track paired with no file adds
      nothing, a track paired with a file adds one upload carrying the
      track's title and the album's title and artist. */
  lemma PublishFromStep(
    feed: Feed, pairs: seq<Result<Option<AudioFile>, Failure>>, round: Round,
    i: nat, done: seq<UploadedTrack>, sent: seq<Request>, readings: nat)
    returns (done': seq<UploadedTrack>, sent': seq<Request>, readings': nat)
    requires |pairs| == |feed.tracks| && i < |feed.tracks|
    requires PublishFrom(feed, pairs, round, i, done, sent, readings).result.Ok?
    ensures pairs[i].Ok?
    ensures PublishFrom(feed, pairs, round, i, done, sent, readings)
         == PublishFrom(feed, pairs, round, i + 1, done', sent', readings')
    ensures pairs[i].value.None? ==> done' == done
    ensures pairs[i].value.Some? ==>
      && |done'| == |done| + 1 && done'[..|done|] == done
      && (KeepsTrackData(round) ==>
            done'[|done|].title == feed.tracks[i].title
            && done'[|done|].album == feed.title && done'[|done|].artist == feed.author)
  {
    if pairs[i].value.None? {
      done', sent', readings' := done, sent, readings;
    } else {
      var p := round(TrackDataOf(feed, feed.tracks[i]), pairs[i].value.value, sent, readings);
      done', sent', readings' := done + [p.result.value], p.sent, p.readings;
      assert done'[..|done|] == done;
    }
  }

  /** A successful loop keeps what was already published and adds one
      upload per planned track, in feed order, each with the album's title
      and artist. */
  lemma {:induction false} PublishFromFollowsPlan(
    feed: Feed, pairs: seq<Result<Option<AudioFile>, Failure>>, round: Round,
    i: nat, done: seq<UploadedTrack>, sent: seq<Request>, readings: nat)
    requires |pairs| == |feed.tracks| && KeepsTrackData(round)
    requires PublishFrom(feed, pairs, round, i, done, sent, readings).result.Ok?
    ensures var out := PublishFrom(feed, pairs, round, i, done, sent, readings).result.value;
      && PublishedAs(out, |done|, Planned(Picks(pairs), i), feed)
      && out[..|done|] == done
    decreases |feed.tracks| - i
  {
    var picks := Picks(pairs);
    if i < |feed.tracks| {
      var done', sent', readings' := PublishFromStep(feed, pairs, round, i, done, sent, readings);
      PublishFromFollowsPlan(feed, pairs, round, i + 1, done', sent', readings');
      var out := PublishFrom(feed, pairs, round, i + 1, done', sent', readings').result.value;
      if !picks[i] {
        assert Planned(picks, i) == Planned(picks, i + 1);
      } else {
        assert Planned(picks, i) == [i] + Planned(picks, i + 1);
        assert out[..|done'|] == done';
        assert out[..|done|] == done'[..|done|];
        assert out[|done|] == done'[|done|];
        PublishedAsCons(out, |done|, i, Planned(picks, i + 1), feed);
      }
    }
  }

  /** `trackCount` never exceeds the number of tracks in the feed, and every
      track is published when there are at least as many files as tracks. */
  lemma TrackCountBound(
    upload: Option<seq<ZipEntry>>, decode: TextDecoder, parse: XmlParser, cred: Credentials, env: Externals,
    respond: Responder, at: nat -> nat, sent: seq<Request>, readings: nat)
    requires UploadOutcome(upload, decode, parse, cred, env, respond, at, sent, readings).response.status == 200
    ensures var o := UploadOutcome(upload, decode, parse, cred, env, respond, at, sent, readings);
      var feed := ArchiveOf(upload.value, decode, parse).value.feed;
      var audio := ArchiveOf(upload.value, decode, parse).value.audioFiles;
      && o.response.body.Published?
      && o.response.body.album.trackCount == |o.response.body.tracks| <= |feed.tracks|
      && (|audio| >= |feed.tracks| ==> o.response.body.album.trackCount == |feed.tracks|)
  {
    var album := ArchiveOf(upload.value, decode, parse).value;
    var feed := album.feed;
    var pairs := Pairings(feed.tracks, album.audioFiles);
    var picks := Picks(pairs);
    var round := RoundOf(cred, env, respond, at);
    RoundOfKeepsTrackData(cred, env, respond, at);
    PublishFromFollowsPlan(feed, pairs, round, 0, [], sent, readings);
    PlannedSpec(picks, 0);
    if |album.audioFiles| >= |feed.tracks| {
      PublishFromMatches(feed, pairs, round, 0, [], sent, readings);
      forall k | 0 <= k < |picks| ensures picks[k] {
        MatchIsAnAudioFile(feed.tracks[k], k, album.audioFiles);
      }
      PlannedAll(picks, 0);
    }
  }

  /** A successful loop met no matcher error from track `i` on. */
  lemma {:induction false} PublishFromMatches(
    feed: Feed, pairs: seq<Result<Option<AudioFile>, Failure>>, round: Round,
    i: nat, done: seq<UploadedTrack>, sent: seq<Request>, readings: nat)
    requires |pairs| == |feed.tracks|
    requires PublishFrom(feed, pairs, round, i, done, sent, readings).result.Ok?
    ensures forall k :: i <= k < |feed.tracks| ==> pairs[k].Ok?
    decreases |feed.tracks| - i
  {
    if i < |feed.tracks| {
      var done', sent', readings' := PublishFromStep(feed, pairs, round, i, done, sent, readings);
      PublishFromMatches(feed, pairs, round, i + 1, done', sent', readings');
    }
  }

  /** The first error, from the matcher or from publishing, ends the loop
      with that error and the requests sent so far. */
  lemma FirstErrorAborts(
    feed: Feed, pairs: seq<Result<Option<AudioFile>, Failure>>, round: Round,
    i: nat, done: seq<UploadedTrack>, sent: seq<Request>, readings: nat)
    requires |pairs| == |feed.tracks| && i < |feed.tracks|
    ensures pairs[i].Err? ==>
      PublishFrom(feed, pairs, round, i, done, sent, readings) == Batch(Err(pairs[i].error), sent, readings)
    ensures pairs[i].Ok? && pairs[i].value.Some? ==>
      var file := pairs[i].value.value;
      var p := round(TrackDataOf(feed, feed.tracks[i]), file, sent, readings);
      p.result.Err? ==>
        PublishFrom(feed, pairs, round, i, done, sent, readings) == Batch(Err(p.result.error), p.sent, p.readings)
  {
  }
}
