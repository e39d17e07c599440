/** `GET /plugin/mutopia/library`: the tracks of the user's Sanora feed,
    grouped by album in the order albums are first seen. */
module Library {
  import opened Wrappers
  import opened Js
  import opened Publish

  /** One value of `albums`: the album name and its tracks. */
  datatype AlbumGroup = AlbumGroup(title: JsValue, tracks: seq<JsValue>)

  /** The body of a reply of the library route. */
  datatype LibraryBody =
    | Listing(albums: seq<AlbumGroup>, tracks: JsValue)
    | LibraryFailure(error: string)

  datatype LibraryResponse = LibraryResponse(status: nat, body: LibraryBody)

  const UnknownAlbum := Str("Unknown Album")

  /** `track.album || 'Unknown Album'` for a track that can be read. */
  function AlbumOf(track: JsValue): (name: JsValue)
    ensures Truthy(name)
  {
    Or(Prop(track, "album"), UnknownAlbum)
  }

  /** The album name, or the error reading `album` off null or undefined throws. */
  function AlbumName(track: JsValue): (r: Result<JsValue, Failure>)
    ensures r.Ok? <==> !Nullish(track)
    ensures r.Ok? ==> r.value == AlbumOf(track)
  {
    var album :- Get(track, "album");
    Ok(Or(album, UnknownAlbum))
  }

  /** `albums.has(key)` and `albums.get(key)`: the position of the album
      with that name. */
  function IndexOf(albums: seq<AlbumGroup>, key: JsValue): (r: Option<nat>)
    decreases |albums|
    ensures r.Some? ==> r.value < |albums| && albums[r.value].title == key
    ensures r.None? <==> key !in Titles(albums)
  {
    if |albums| == 0 then None
    else if albums[|albums| - 1].title == key then Some(|albums| - 1)
    else IndexOf(albums[..|albums| - 1], key)
  }

  function Titles(albums: seq<AlbumGroup>): (titles: seq<JsValue>)
    ensures |titles| == |albums|
    ensures forall j :: 0 <= j < |albums| ==> titles[j] == albums[j].title
  {
    seq(|albums|, j requires 0 <= j < |albums| => albums[j].title)
  }

  /** The map after one track: a new album at the end for a new name, the
      track appended to its album otherwise. */
  function Insert(albums: seq<AlbumGroup>, key: JsValue, track: JsValue): seq<AlbumGroup> {
    match IndexOf(albums, key)
    case None => albums + [AlbumGroup(key, [track])]
    case Some(k) => albums[k := AlbumGroup(key, albums[k].tracks + [track])]
  }

  /** The albums built from `tracks`, or the error of the first track that
      cannot be read. */
  function Grouped(tracks: seq<JsValue>): Result<seq<AlbumGroup>, Failure>
    decreases |tracks|
  {
    if |tracks| == 0 then Ok([])
    else
      var n := |tracks| - 1;
      var albums :- Grouped(tracks[..n]);
      var name :- AlbumName(tracks[n]);
      Ok(Insert(albums, name, tracks[n]))
  }

  /** The grouping loop as the source performs it: look the name up, add an
      empty album when it is new, push the track onto its album. */
  method GroupAlbums(tracks: seq<JsValue>) returns (r: Result<seq<AlbumGroup>, Failure>)
    ensures r == Grouped(tracks)
  {
    var albums: seq<AlbumGroup> := [];
    var i := 0;
    while i < |tracks|
      invariant 0 <= i <= |tracks|
      invariant Grouped(tracks[..i]) == Ok(albums)
    {
      var track := tracks[i];
      if Nullish(track) {
        assert tracks[..i + 1][..i] == tracks[..i];
        GroupedPrefixFailure(tracks, i + 1);
        return Err(AlbumName(track).error);
      }
      GroupedNext(tracks, i, albums);
      var albumName := Or(Prop(track, "album"), UnknownAlbum);
      ghost var prev := albums;
      var found := IndexOf(albums, albumName);
      if found.None? {
        InsertNewAlbum(albums, albumName, track);
        albums := albums + [AlbumGroup(albumName, [])];
      }
      var k := IndexOf(albums, albumName).value;
      albums := albums[k := AlbumGroup(albumName, albums[k].tracks + [track])];
      assert albums == Insert(prev, albumName, track);
      i := i + 1;
    }
    assert tracks[..i] == tracks;
    r := Ok(albums);
  }

  /** One more readable track: the grouping of the longer prefix inserts it. */
  lemma GroupedNext(tracks: seq<JsValue>, i: nat, albums: seq<AlbumGroup>)
    requires i < |tracks| && !Nullish(tracks[i])
    requires Grouped(tracks[..i]) == Ok(albums)
    ensures Grouped(tracks[..i + 1]) == Ok(Insert(albums, AlbumOf(tracks[i]), tracks[i]))
  {
    assert tracks[..i + 1][..i] == tracks[..i];
  }

  /** `Insert` of a new name as the loop performs it: add an empty album,
      then push the track onto it. */
  lemma InsertNewAlbum(albums: seq<AlbumGroup>, key: JsValue, track: JsValue)
    requires IndexOf(albums, key).None?
    ensures var mid := albums + [AlbumGroup(key, [])];
      && IndexOf(mid, key) == Some(|albums|)
      && mid[|albums| := AlbumGroup(key, mid[|albums|].tracks + [track])] == Insert(albums, key, track)
  {
    var mid := albums + [AlbumGroup(key, [])];
    assert mid[|albums|].tracks + [track] == [track];
    assert mid[|albums| := AlbumGroup(key, [track])] == albums + [AlbumGroup(key, [track])];
  }

  /** What the route answers.  `fetched` is the reply of Sanora's feed
      endpoint after `json()`, or what the fetch or the decoding threw. */
  function LibraryRoute(user: Option<User>, fetched: Result<JsValue, Failure>): LibraryResponse {
    if user.None? then
      LibraryResponse(200, Listing([], Arr([])))
    else
      var reply := if fetched.Err? then Err(fetched.error) else LibraryOf(fetched.value);
      if reply.Err? then LibraryResponse(500, LibraryFailure(reply.error.message))
      else LibraryResponse(200, reply.value)
  }

  /** The listing for a Sanora reply: its error thrown, else its items
      (`[]` when absent) grouped. */
  function LibraryOf(feed: JsValue): Result<LibraryBody, Failure> {
    var error :- Get(feed, "error");
    if Truthy(error) then Err(Error(ToJsString(error)))
    else
      var tracks := Or(Prop(feed, "items"), Arr([]));
      if !tracks.Arr? then Err(TypeError("tracks.forEach is not a function"))
      else
        var albums :- Grouped(tracks.elems);
        Ok(Listing(albums, tracks))
  }

  /** The route handler, step by step. */
  method ServeLibrary(user: Option<User>, fetched: Result<JsValue, Failure>) returns (response: LibraryResponse)
    ensures response == LibraryRoute(user, fetched)
  {
    if user.None? {
      return LibraryResponse(200, Listing([], Arr([])));
    }
    if fetched.Err? {
      return LibraryResponse(500, LibraryFailure(fetched.error.message));
    }
    var feed := fetched.value;
    var error := Get(feed, "error");
    if error.Err? {
      return LibraryResponse(500, LibraryFailure(error.error.message));
    }
    if Truthy(error.value) {
      return LibraryResponse(500, LibraryFailure(ToJsString(error.value)));
    }
    var tracks := Or(Prop(feed, "items"), Arr([]));
    if !tracks.Arr? {
      return LibraryResponse(500, LibraryFailure("tracks.forEach is not a function"));
    }
    var albums := GroupAlbums(tracks.elems);
    if albums.Err? {
      return LibraryResponse(500, LibraryFailure(albums.error.message));
    }
    response := LibraryResponse(200, Listing(albums.value, tracks));
  }

  // ---------------------------------------------------------------------------
  // Reference definitions

  /** The album names in the order they first occur. */
  function FirstSeen(tracks: seq<JsValue>): seq<JsValue>
    decreases |tracks|
  {
    if |tracks| == 0 then []
    else
      var n := |tracks| - 1;
      var seen := FirstSeen(tracks[..n]);
      if AlbumOf(tracks[n]) in seen then seen else seen + [AlbumOf(tracks[n])]
  }

  /** The tracks whose album is `key`, in input order. */
  function TracksOf(tracks: seq<JsValue>, key: JsValue): seq<JsValue>
    decreases |tracks|
  {
    if |tracks| == 0 then []
    else
      var n := |tracks| - 1;
      TracksOf(tracks[..n], key) + (if AlbumOf(tracks[n]) == key then [tracks[n]] else [])
  }

  /** The number of tracks over all albums. */
  function Total(albums: seq<AlbumGroup>): nat
    decreases |albums|
  {
    if |albums| == 0 then 0 else Total(albums[..|albums| - 1]) + |albums[|albums| - 1].tracks|
  }

  predicate Distinct(xs: seq<JsValue>) {
    forall a, b :: 0 <= a < b < |xs| ==> xs[a] != xs[b]
  }

  // ---------------------------------------------------------------------------
  // Properties

  lemma {:induction false} GroupedPrefixFailure(tracks: seq<JsValue>, n: nat)
    requires n <= |tracks|
    requires Grouped(tracks[..n]).Err?
    ensures Grouped(tracks) == Grouped(tracks[..n])
    decreases |tracks| - n
  {
    if n < |tracks| {
      assert tracks[..n + 1][..n] == tracks[..n];
      GroupedPrefixFailure(tracks, n + 1);
    } else {
      assert tracks[..n] == tracks;
    }
  }

  /** The grouping goes through exactly when it goes through on all but
      the last track and the last track can be read. */
  lemma GroupedLast(tracks: seq<JsValue>)
    requires |tracks| > 0
    ensures Grouped(tracks).Ok? <==> Grouped(tracks[..|tracks| - 1]).Ok? && !Nullish(tracks[|tracks| - 1])
  {
  }

  /** With every track readable the grouping goes through. */
  lemma {:induction false} GroupedSucceeds(tracks: seq<JsValue>)
    requires forall k :: 0 <= k < |tracks| ==> !Nullish(tracks[k])
    ensures Grouped(tracks).Ok?
    decreases |tracks|
  {
    if |tracks| > 0 {
      var init := tracks[..|tracks| - 1];
      forall k | 0 <= k < |init| ensures !Nullish(init[k]) {
        assert init[k] == tracks[k];
      }
      GroupedSucceeds(init);
      GroupedLast(tracks);
    }
  }

  /** The grouping throws exactly when some track is null or undefined. */
  lemma GroupedFails(tracks: seq<JsValue>)
    ensures Grouped(tracks).Ok? <==> forall k :: 0 <= k < |tracks| ==> !Nullish(tracks[k])
  {
    if forall k :: 0 <= k < |tracks| ==> !Nullish(tracks[k]) {
      GroupedSucceeds(tracks);
    } else {
      var k :| 0 <= k < |tracks| && Nullish(tracks[k]);
      var upto := tracks[..k + 1];
      assert upto[..k] == tracks[..k] && upto[k] == tracks[k];
      GroupedLast(upto);
      GroupedPrefixFailure(tracks, k + 1);
    }
  }

  lemma {:induction false} FirstSeenMembers(tracks: seq<JsValue>)
    ensures forall x :: x in FirstSeen(tracks) <==> exists k :: 0 <= k < |tracks| && AlbumOf(tracks[k]) == x
    ensures Distinct(FirstSeen(tracks))
    decreases |tracks|
  {
    if |tracks| > 0 {
      var n := |tracks| - 1;
      var init := tracks[..n];
      FirstSeenMembers(init);
      assert forall k :: 0 <= k < n ==> init[k] == tracks[k];
      forall x | x in FirstSeen(tracks) ensures exists k :: 0 <= k < |tracks| && AlbumOf(tracks[k]) == x {
        if x in FirstSeen(init) {
          var k :| 0 <= k < n && AlbumOf(init[k]) == x;
          assert AlbumOf(tracks[k]) == x;
        } else {
          assert AlbumOf(tracks[n]) == x;
        }
      }
      forall x | exists k :: 0 <= k < |tracks| && AlbumOf(tracks[k]) == x ensures x in FirstSeen(tracks) {
        var k :| 0 <= k < |tracks| && AlbumOf(tracks[k]) == x;
        if k < n {
          assert AlbumOf(init[k]) == x;
        }
      }
    }
  }

  /** A name no track carries has no tracks. */
  lemma {:induction false} TracksOfAbsent(tracks: seq<JsValue>, key: JsValue)
    requires key !in FirstSeen(tracks)
    ensures TracksOf(tracks, key) == []
    decreases |tracks|
  {
    if |tracks| > 0 {
      var n := |tracks| - 1;
      TracksOfAbsent(tracks[..n], key);
    }
  }

  lemma {:induction false} TotalUpdate(albums: seq<AlbumGroup>, k: nat, g: AlbumGroup)
    requires k < |albums|
    ensures Total(albums[k := g]) + |albums[k].tracks| == Total(albums) + |g.tracks|
    decreases |albums|
  {
    var n := |albums| - 1;
    if k == n {
      assert albums[k := g][..n] == albums[..n];
    } else {
      assert albums[k := g][..n] == albums[..n][k := g];
      TotalUpdate(albums[..n], k, g);
    }
  }

  lemma TotalAppend(albums: seq<AlbumGroup>, g: AlbumGroup)
    ensures Total(albums + [g]) == Total(albums) + |g.tracks|
  {
    assert (albums + [g])[..|albums|] == albums;
  }

  /** One track more: the titles grow by the new name when it is new. */
  lemma InsertTitles(albums: seq<AlbumGroup>, key: JsValue, track: JsValue)
    ensures Titles(Insert(albums, key, track)) == if key in Titles(albums) then Titles(albums) else Titles(albums) + [key]
  {
    var r := Insert(albums, key, track);
    if IndexOf(albums, key).None? {
      assert Titles(r) == Titles(albums) + [key];
    } else {
      assert Titles(r) == Titles(albums);
    }
  }

  /** One track more: the albums hold one track more. */
  lemma InsertTotal(albums: seq<AlbumGroup>, key: JsValue, track: JsValue)
    ensures Total(Insert(albums, key, track)) == Total(albums) + 1
  {
    match IndexOf(albums, key)
    case None =>
      TotalAppend(albums, AlbumGroup(key, [track]));
    case Some(k) =>
      TotalUpdate(albums, k, AlbumGroup(key, albums[k].tracks + [track]));
  }

  /** One track more: the album of that name gains the track at its end,
      and every other album is kept. */
  lemma InsertTracks(albums: seq<AlbumGroup>, key: JsValue, track: JsValue)
    requires Distinct(Titles(albums))
    ensures var r := Insert(albums, key, track);
      forall j :: 0 <= j < |r| ==>
        r[j].tracks == (if j < |albums| then albums[j].tracks else []) + (if r[j].title == key then [track] else [])
  {
    var r := Insert(albums, key, track);
    match IndexOf(albums, key)
    case None =>
      assert r == albums + [AlbumGroup(key, [track])];
    case Some(k) =>
      forall j | 0 <= j < |r| && j != k ensures r[j].title != key {
        assert Titles(albums)[j] != Titles(albums)[k];
      }
  }

  /** The albums appear in the order their names are first seen, with no
      name twice. */
  lemma {:induction false} GroupedTitles(tracks: seq<JsValue>)
    requires Grouped(tracks).Ok?
    ensures Titles(Grouped(tracks).value) == FirstSeen(tracks)
    ensures Distinct(FirstSeen(tracks))
    decreases |tracks|
  {
    FirstSeenMembers(tracks);
    if |tracks| > 0 {
      var n := |tracks| - 1;
      GroupedTitles(tracks[..n]);
      InsertTitles(Grouped(tracks[..n]).value, AlbumOf(tracks[n]), tracks[n]);
    }
  }

  /** The albums together hold every track once. */
  lemma {:induction false} GroupedTotal(tracks: seq<JsValue>)
    requires Grouped(tracks).Ok?
    ensures Total(Grouped(tracks).value) == |tracks|
    decreases |tracks|
  {
    if |tracks| > 0 {
      var n := |tracks| - 1;
      GroupedTotal(tracks[..n]);
      InsertTotal(Grouped(tracks[..n]).value, AlbumOf(tracks[n]), tracks[n]);
    }
  }

  /** Each album holds exactly the tracks carrying its name, in input order. */
  lemma {:induction false} GroupedTracks(tracks: seq<JsValue>)
    requires Grouped(tracks).Ok?
    ensures var albums := Grouped(tracks).value;
      forall j :: 0 <= j < |albums| ==> albums[j].tracks == TracksOf(tracks, albums[j].title)
    decreases |tracks|
  {
    if |tracks| > 0 {
      var n := |tracks| - 1;
      var init := tracks[..n];
      var track := tracks[n];
      var key := AlbumOf(track);
      var before := Grouped(init).value;
      GroupedTracks(init);
      GroupedTitles(init);
      InsertTracks(before, key, track);
      var albums := Grouped(tracks).value;
      assert albums == Insert(before, key, track);
      forall j | 0 <= j < |albums| ensures albums[j].tracks == TracksOf(tracks, albums[j].title) {
        if j >= |before| {
          InsertTitles(before, key, track);
          assert Titles(albums)[j] == key;
          TracksOfAbsent(init, key);
        } else {
          assert albums[j].title == before[j].title;
        }
      }
    }
  }

  /** The three properties of the grouping together. */
  lemma GroupedSpec(tracks: seq<JsValue>)
    requires Grouped(tracks).Ok?
    ensures var albums := Grouped(tracks).value;
      && Titles(albums) == FirstSeen(tracks)
      && Distinct(Titles(albums))
      && (forall j :: 0 <= j < |albums| ==> albums[j].tracks == TracksOf(tracks, albums[j].title))
      && Total(albums) == |tracks|
  {
    GroupedTitles(tracks);
    GroupedTotal(tracks);
    GroupedTracks(tracks);
  }

  /** A track without an album name is listed under "Unknown Album". */
  lemma UnknownAlbumFallback(tracks: seq<JsValue>, k: nat)
    requires Grouped(tracks).Ok? && k < |tracks|
    requires !Truthy(Prop(tracks[k], "album"))
    ensures exists j :: (0 <= j < |Grouped(tracks).value| && Grouped(tracks).value[j].title == UnknownAlbum
      && tracks[k] in Grouped(tracks).value[j].tracks)
  {
    GroupedSpec(tracks);
    FirstSeenMembers(tracks);
    var albums := Grouped(tracks).value;
    assert UnknownAlbum in Titles(albums);
    var j :| 0 <= j < |albums| && Titles(albums)[j] == UnknownAlbum;
    TracksOfContains(tracks, k);
  }

  lemma {:induction false} TracksOfContains(tracks: seq<JsValue>, k: nat)
    requires k < |tracks|
    ensures tracks[k] in TracksOf(tracks, AlbumOf(tracks[k]))
    decreases |tracks|
  {
    var n := |tracks| - 1;
    if k < n {
      TracksOfContains(tracks[..n], k);
    }
  }

  /** The route lists the items unchanged beside the albums, and the albums
      together hold as many tracks as the items. */
  lemma LibraryListsEveryTrack(user: Option<User>, fetched: Result<JsValue, Failure>)
    requires user.Some? && LibraryRoute(user, fetched).status == 200
    ensures fetched.Ok?
    ensures var body := LibraryRoute(user, fetched).body;
      && body.Listing?
      && body.tracks == Or(Prop(fetched.value, "items"), Arr([]))
      && Total(body.albums) == |body.tracks.elems|
  {
    var tracks := Or(Prop(fetched.value, "items"), Arr([]));
    GroupedSpec(tracks.elems);
  }

  lemma InsertIntoEmpty(key: JsValue, track: JsValue)
    ensures Insert([], key, track) == [AlbumGroup(key, [track])]
  {
  }

  /** A track of the only album is appended to it. */
  lemma InsertIntoSingle(key: JsValue, ts: seq<JsValue>, track: JsValue)
    ensures Insert([AlbumGroup(key, ts)], key, track) == [AlbumGroup(key, ts + [track])]
  {
    assert IndexOf([AlbumGroup(key, ts)], key) == Some(0);
  }

  /** A track of another album opens a second album after the only one. */
  lemma InsertAfterSingle(key: JsValue, ts: seq<JsValue>, other: JsValue, track: JsValue)
    requires other != key
    ensures Insert([AlbumGroup(key, ts)], other, track) == [AlbumGroup(key, ts), AlbumGroup(other, [track])]
  {
    var albums := [AlbumGroup(key, ts)];
    assert albums[..0] == [];
    assert IndexOf(albums, other) == None;
  }

  /** Two tracks of one album make one album holding both, in order. */
  lemma OneAlbumOfTwo(t1: JsValue, t2: JsValue)
    requires !Nullish(t1) && !Nullish(t2) && AlbumOf(t1) == AlbumOf(t2)
    ensures Grouped([t1, t2]) == Ok([AlbumGroup(AlbumOf(t1), [t1, t2])])
  {
    var a := AlbumOf(t1);
    var tracks := [t1, t2];
    assert tracks[..0] == [];
    GroupedNext(tracks, 0, []);
    InsertIntoEmpty(a, t1);
    GroupedNext(tracks, 1, [AlbumGroup(a, [t1])]);
    InsertIntoSingle(a, [t1], t2);
    assert [t1] + [t2] == [t1, t2];
    assert tracks[..2] == tracks;
  }

  /** Two tracks of one album followed by a track of another give two
      albums, in order of first appearance, with the tracks of each in
      input order. */
  lemma TwoAlbumsInOrder(t1: JsValue, t2: JsValue, t3: JsValue)
    requires !Nullish(t1) && !Nullish(t2) && !Nullish(t3)
    requires AlbumOf(t1) == AlbumOf(t2) != AlbumOf(t3)
    ensures Grouped([t1, t2, t3]) == Ok([AlbumGroup(AlbumOf(t1), [t1, t2]), AlbumGroup(AlbumOf(t3), [t3])])
  {
    var tracks := [t1, t2, t3];
    assert tracks[..2] == [t1, t2];
    OneAlbumOfTwo(t1, t2);
    GroupedNext(tracks, 2, [AlbumGroup(AlbumOf(t1), [t1, t2])]);
    InsertAfterSingle(AlbumOf(t1), [t1, t2], AlbumOf(t3), t3);
    assert tracks[..3] == tracks;
  }
}
