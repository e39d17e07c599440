/** `uploadTrackToSanora`: publishing one track on the Sanora store in two
    signed requests, first the product and then its audio artifact. */
module Publish {
  import opened Wrappers
  import opened Js
  import opened Archive

  const SanoraBase := "http://localhost:7243"
  const NoCredentials := Error("Mutopia credentials not loaded")

  /** The identity the plugin registered with Sanora. */
  datatype User = User(uuid: string)
  datatype Keys = Keys(pubKey: string)

  /** The module-level `mutopiaUser` and `mutopiaKeys`, `None` until loaded. */
  datatype Credentials = Credentials(user: Option<User>, keys: Option<Keys>)

  /** What the upload route passes for one track. */
  datatype TrackData = TrackData(title: JsValue, artist: JsValue, album: JsValue, duration: JsValue, order: JsValue)

  /** The library functions the procedure calls: `sessionless.sign` with the
      loaded keys, `encodeURIComponent`, and `Date.prototype.toISOString`. */
  datatype Externals = Externals(
    sign: string -> string,
    encodeUri: string -> string,
    isoDate: nat -> string)

  /** The two requests the procedure sends, with the fields they carry. */
  datatype Request =
    | CreateProduct(
        url: string, timestamp: string, pubKey: string, signature: string,
        description: string, price: int, category: string, tags: string)
    | UploadArtifact(
        url: string, artifactType: string, timestamp: string, signature: string,
        filename: string, contentType: string, body: seq<byte>)

  /** The value the procedure returns for a published track. */
  datatype UploadedTrack = UploadedTrack(
    id: JsValue, title: JsValue, artist: JsValue, album: JsValue,
    duration: JsValue, url: string, uploaded: string)

  /** How Sanora answers a request, given the requests before it: the parsed
      JSON body, or the error `fetch` or `.json()` throws. */
  type Responder = (seq<Request>, Request) -> Result<JsValue, Failure>

  /** The Sanora service as the plugin sees it: every request it receives, in order. */
  class Sanora {
    const respond: Responder
    var sent: seq<Request>

    constructor(respond: Responder)
      ensures this.respond == respond && sent == []
    {
      this.respond := respond;
      sent := [];
    }

    /** `await (await fetch(url, { method: 'PUT', ... })).json()` */
    method Put(request: Request) returns (reply: Result<JsValue, Failure>)
      modifies this
      ensures sent == old(sent) + [request]
      ensures reply == respond(old(sent), request)
    {
      reply := respond(sent, request);
      sent := sent + [request];
    }
  }

  /** `Date.now()`: the `n`th reading is `at(n)`. */
  class Clock {
    const at: nat -> nat
    var readings: nat

    constructor(at: nat -> nat)
      ensures this.at == at && readings == 0
    {
      this.at := at;
      readings := 0;
    }

    method Now() returns (t: nat)
      modifies this
      ensures t == at(old(readings)) && readings == old(readings) + 1
    {
      t := at(readings);
      readings := readings + 1;
    }
  }

  // ---------------------------------------------------------------------------
  // The strings the procedure builds

  /** `${album} - ${artist}` */
  function Description(track: TrackData): string {
    ToJsString(track.album) + " - " + ToJsString(track.artist)
  }

  /** `music,${artist},${album}`.toLowerCase() */
  function Tags(track: TrackData): (tags: string)
    ensures forall i :: 0 <= i < |tags| ==> !('A' <= tags[i] <= 'Z')
  {
    ToLowerCase("music," + ToJsString(track.artist) + "," + ToJsString(track.album))
  }

  /** The message signed for the product: timestamp, uuid, title,
      description and the price 0, concatenated. */
  function CreateMessage(timestamp: string, uuid: string, track: TrackData): string {
    timestamp + uuid + ToJsString(track.title) + Description(track) + "0"
  }

  /** The message signed for the artifact: timestamp, uuid and title. */
  function ArtifactMessage(timestamp: string, uuid: string, track: TrackData): string {
    timestamp + uuid + ToJsString(track.title)
  }

  function ProductUrl(uuid: string, track: TrackData, env: Externals): string {
    SanoraBase + "/user/" + uuid + "/product/" + env.encodeUri(ToJsString(track.title))
  }

  /** A truthy `error` in a reply body becomes a thrown `Error` with `prefix`. */
  function CheckReply(body: JsValue, prefix: string): Result<JsValue, Failure> {
    var error :- Get(body, "error");
    if Truthy(error) then Err(Error(prefix + ToJsString(error))) else Ok(body)
  }

  // ---------------------------------------------------------------------------
  // Specification

  /** The outcome of one call: what it returns or throws, the requests Sanora
      has received, and how many clock readings have been taken. */
  datatype Publication = Publication(result: Result<UploadedTrack, Failure>, sent: seq<Request>, readings: nat)

  function CreateRequest(uuid: string, pubKey: string, t: nat, track: TrackData, env: Externals): Request {
    var timestamp := NatToString(t);
    CreateProduct(
      ProductUrl(uuid, track, env), timestamp, pubKey,
      env.sign(CreateMessage(timestamp, uuid, track)),
      Description(track), 0, "music", Tags(track))
  }

  function ArtifactRequest(uuid: string, t: nat, track: TrackData, audio: seq<byte>, filename: string, env: Externals): Request {
    var timestamp := NatToString(t);
    UploadArtifact(
      ProductUrl(uuid, track, env) + "/artifact", "audio", timestamp,
      env.sign(ArtifactMessage(timestamp, uuid, track)),
      filename, "audio/mpeg", audio)
  }

  /** The whole procedure, starting from the requests `sent` so far and
      `readings` clock readings. */
  function PublishTrack(
    cred: Credentials, track: TrackData, audio: seq<byte>, filename: string, env: Externals,
    respond: Responder, at: nat -> nat, sent: seq<Request>, readings: nat): Publication
  {
    if cred.user.None? || cred.keys.None? then
      Publication(Err(NoCredentials), sent, readings)
    else
      var uuid := cred.user.value.uuid;
      var create := CreateRequest(uuid, cred.keys.value.pubKey, at(readings), track, env);
      var sent1 := sent + [create];
      var product := respond(sent, create);
      if product.Err? then
        Publication(Err(product.error), sent1, readings + 1)
      else if CheckReply(product.value, "Failed to create product: ").Err? then
        Publication(Err(CheckReply(product.value, "Failed to create product: ").error), sent1, readings + 1)
      else
        var artifact := ArtifactRequest(uuid, at(readings + 1), track, audio, filename, env);
        var sent2 := sent1 + [artifact];
        var uploaded := respond(sent1, artifact);
        if uploaded.Err? then
          Publication(Err(uploaded.error), sent2, readings + 2)
        else if CheckReply(uploaded.value, "Failed to upload artifact: ").Err? then
          Publication(Err(CheckReply(uploaded.value, "Failed to upload artifact: ").error), sent2, readings + 2)
        else
          Publication(
            Ok(UploadedTrack(
              Prop(product.value, "productId"), track.title, track.artist, track.album, track.duration,
              SanoraBase + "/products/" + uuid + "/" + env.encodeUri(ToJsString(track.title)),
              env.isoDate(at(readings + 2)))),
            sent2, readings + 3)
  }

  // ---------------------------------------------------------------------------
  // The procedure as the source performs it

  method UploadTrackToSanora(
    cred: Credentials, track: TrackData, audio: seq<byte>, filename: string, env: Externals,
    sanora: Sanora, clock: Clock)
    returns (r: Result<UploadedTrack, Failure>)
    requires sanora != clock as object
    modifies sanora, clock
    ensures var p := PublishTrack(cred, track, audio, filename, env, sanora.respond, clock.at,
                                  old(sanora.sent), old(clock.readings));
      r == p.result && sanora.sent == p.sent && clock.readings == p.readings
  {
    if cred.user.None? || cred.keys.None? {
      return Err(NoCredentials);
    }
    var uuid := cred.user.value.uuid;
    var title := track.title;
    var now := clock.Now();
    var timestamp := NatToString(now);

    var description := ToJsString(track.album) + " - " + ToJsString(track.artist);
    var message := timestamp + uuid + ToJsString(title) + description + "0";
    var signature := env.sign(message);
    var productUrl := SanoraBase + "/user/" + uuid + "/product/" + env.encodeUri(ToJsString(title));
    var tags := ToLowerCase("music," + ToJsString(track.artist) + "," + ToJsString(track.album));
    var create := CreateProduct(productUrl, timestamp, cred.keys.value.pubKey, signature, description, 0, "music", tags);
    var product := sanora.Put(create);
    if product.Err? {
      return Err(product.error);
    }
    var productError := Get(product.value, "error");
    if productError.Err? {
      return Err(productError.error);
    }
    if Truthy(productError.value) {
      return Err(Error("Failed to create product: " + ToJsString(productError.value)));
    }

    now := clock.Now();
    var artifactTimestamp := NatToString(now);
    var artifactMessage := artifactTimestamp + uuid + ToJsString(title);
    var artifactSignature := env.sign(artifactMessage);
    var artifact := UploadArtifact(productUrl + "/artifact", "audio", artifactTimestamp, artifactSignature,
                                   filename, "audio/mpeg", audio);
    var uploadResult := sanora.Put(artifact);
    if uploadResult.Err? {
      return Err(uploadResult.error);
    }
    var uploadError := Get(uploadResult.value, "error");
    if uploadError.Err? {
      return Err(uploadError.error);
    }
    if Truthy(uploadError.value) {
      return Err(Error("Failed to upload artifact: " + ToJsString(uploadError.value)));
    }

    now := clock.Now();
    r := Ok(UploadedTrack(
      Prop(product.value, "productId"), title, track.artist, track.album, track.duration,
      SanoraBase + "/products/" + uuid + "/" + env.encodeUri(ToJsString(title)),
      env.isoDate(now)));
  }

  // ---------------------------------------------------------------------------
  // Properties

  /** Without credentials the procedure throws before any request or clock
      reading. */
  lemma NoCredentialsNoRequests(
    cred: Credentials, track: TrackData, audio: seq<byte>, filename: string, env: Externals,
    respond: Responder, at: nat -> nat, sent: seq<Request>, readings: nat)
    requires cred.user.None? || cred.keys.None?
    ensures PublishTrack(cred, track, audio, filename, env, respond, at, sent, readings)
      == Publication(Err(NoCredentials), sent, readings)
  {
  }

  /** Requests are only ever appended: the product first, then, only when
      Sanora accepted it, the artifact. */
  lemma CreateBeforeUpload(
    cred: Credentials, track: TrackData, audio: seq<byte>, filename: string, env: Externals,
    respond: Responder, at: nat -> nat, sent: seq<Request>, readings: nat)
    ensures var p := PublishTrack(cred, track, audio, filename, env, respond, at, sent, readings);
      var added := p.sent[|sent|..];
      && |sent| <= |p.sent| && p.sent[..|sent|] == sent
      && |added| <= 2
      && (|added| >= 1 ==> added[0].CreateProduct?)
      && (|added| == 2 ==>
            (added[1].UploadArtifact? && respond(sent, added[0]).Ok?
             && !Truthy(Prop(respond(sent, added[0]).value, "error"))))
      && (p.result.Ok? ==> |added| == 2)
  {
    var p := PublishTrack(cred, track, audio, filename, env, respond, at, sent, readings);
    if cred.user.Some? && cred.keys.Some? {
      var create := CreateRequest(cred.user.value.uuid, cred.keys.value.pubKey, at(readings), track, env);
      assert (sent + [create])[..|sent|] == sent;
      assert (sent + [create])[|sent|..] == [create];
      if p.sent != sent + [create] {
        var artifact := ArtifactRequest(cred.user.value.uuid, at(readings + 1), track, audio, filename, env);
        assert p.sent == sent + [create] + [artifact];
        assert (sent + [create] + [artifact])[..|sent|] == sent;
        assert (sent + [create] + [artifact])[|sent|..] == [create, artifact];
      }
    } else {
      assert sent[|sent|..] == [];
    }
  }

  /** A create reply carrying `error` throws "Failed to create product: ..."
      and no artifact is uploaded. */
  lemma CreateErrorAborts(
    cred: Credentials, track: TrackData, audio: seq<byte>, filename: string, env: Externals,
    respond: Responder, at: nat -> nat, sent: seq<Request>, readings: nat)
    requires cred.user.Some? && cred.keys.Some?
    requires var create := CreateRequest(cred.user.value.uuid, cred.keys.value.pubKey, at(readings), track, env);
      respond(sent, create).Ok? && !Nullish(respond(sent, create).value)
      && Truthy(Prop(respond(sent, create).value, "error"))
    ensures var create := CreateRequest(cred.user.value.uuid, cred.keys.value.pubKey, at(readings), track, env);
      var p := PublishTrack(cred, track, audio, filename, env, respond, at, sent, readings);
      && p.sent == sent + [create]
      && p.result == Err(Error("Failed to create product: " + ToJsString(Prop(respond(sent, create).value, "error"))))
  {
  }

  /** The signatures are over the documented messages: the product's over its
      timestamp, the uuid, the title, "album - artist" and "0"; the
      artifact's over its own timestamp, the uuid and the title.  The
      timestamps are the first and second clock readings. */
  lemma SignedMessages(
    cred: Credentials, track: TrackData, audio: seq<byte>, filename: string, env: Externals,
    respond: Responder, at: nat -> nat, sent: seq<Request>, readings: nat)
    requires cred.user.Some? && cred.keys.Some?
    ensures var p := PublishTrack(cred, track, audio, filename, env, respond, at, sent, readings);
      var uuid := cred.user.value.uuid;
      && |p.sent| >= |sent| + 1
      && var create := p.sent[|sent|];
      && create.CreateProduct?
      && create.timestamp == NatToString(at(readings))
      && create.description == ToJsString(track.album) + " - " + ToJsString(track.artist)
      && create.signature == env.sign(create.timestamp + uuid + ToJsString(track.title) + create.description + "0")
      && create.pubKey == cred.keys.value.pubKey
      && create.price == 0 && create.category == "music"
      && (|p.sent| == |sent| + 2 ==>
            var artifact := p.sent[|sent| + 1];
            && artifact.UploadArtifact?
            && artifact.timestamp == NatToString(at(readings + 1))
            && artifact.signature == env.sign(artifact.timestamp + uuid + ToJsString(track.title))
            && artifact.url == create.url + "/artifact"
            && artifact.body == audio && artifact.filename == filename)
  {
    var uuid := cred.user.value.uuid;
    PublishTrackRequests(cred, track, audio, filename, env, respond, at, sent, readings);
    var create := CreateRequest(uuid, cred.keys.value.pubKey, at(readings), track, env);
    assert create.signature == env.sign(create.timestamp + uuid + ToJsString(track.title) + create.description + "0");
    var artifact := ArtifactRequest(uuid, at(readings + 1), track, audio, filename, env);
    assert artifact.url == create.url + "/artifact";
  }

  /** The requests one call sends: the product, then, once the product was
      created, the artifact. */
  lemma PublishTrackRequests(
    cred: Credentials, track: TrackData, audio: seq<byte>, filename: string, env: Externals,
    respond: Responder, at: nat -> nat, sent: seq<Request>, readings: nat)
    requires cred.user.Some? && cred.keys.Some?
    ensures var p := PublishTrack(cred, track, audio, filename, env, respond, at, sent, readings);
      var uuid := cred.user.value.uuid;
      && |sent| + 1 <= |p.sent| <= |sent| + 2
      && p.sent[|sent|] == CreateRequest(uuid, cred.keys.value.pubKey, at(readings), track, env)
      && (|p.sent| == |sent| + 2 ==> p.sent[|sent| + 1] == ArtifactRequest(uuid, at(readings + 1), track, audio, filename, env))
  {
  }

  /** A published track carries the product id Sanora assigned and the
      caller's title, artist and album. */
  lemma ResultCarriesProductId(
    cred: Credentials, track: TrackData, audio: seq<byte>, filename: string, env: Externals,
    respond: Responder, at: nat -> nat, sent: seq<Request>, readings: nat)
    requires PublishTrack(cred, track, audio, filename, env, respond, at, sent, readings).result.Ok?
    ensures var p := PublishTrack(cred, track, audio, filename, env, respond, at, sent, readings);
      var create := p.sent[|sent|];
      && respond(sent, create).Ok?
      && p.result.value.id == Prop(respond(sent, create).value, "productId")
      && p.result.value.title == track.title
      && p.result.value.artist == track.artist
      && p.result.value.album == track.album
  {
    CreateBeforeUpload(cred, track, audio, filename, env, respond, at, sent, readings);
  }

  /** The tags are the lower-cased "music,artist,album": same length, and
      each character is the lower-case form of the original. */
  lemma TagsAreLowerCase(track: TrackData)
    ensures var raw := "music," + ToJsString(track.artist) + "," + ToJsString(track.album);
      |Tags(track)| == |raw| && forall i :: 0 <= i < |raw| ==> Tags(track)[i] == LowerChar(raw[i])
  {
  }

  /** The tags ignore letter case: two tracks whose artist and album agree
      up to ASCII case get the same tags. */
  lemma TagsIgnoreCase(t1: TrackData, t2: TrackData)
    requires ToLowerCase(ToJsString(t1.artist)) == ToLowerCase(ToJsString(t2.artist))
    requires ToLowerCase(ToJsString(t1.album)) == ToLowerCase(ToJsString(t2.album))
    ensures Tags(t1) == Tags(t2)
  {
    var a1, b1 := ToJsString(t1.artist), ToJsString(t1.album);
    var a2, b2 := ToJsString(t2.artist), ToJsString(t2.album);
    var raw1, raw2 := "music," + a1 + "," + b1, "music," + a2 + "," + b2;
    assert |a1| == |ToLowerCase(a1)| == |ToLowerCase(a2)| == |a2|;
    assert |b1| == |ToLowerCase(b1)| == |ToLowerCase(b2)| == |b2|;
    forall i | 0 <= i < |raw1| ensures LowerChar(raw1[i]) == LowerChar(raw2[i]) {
      if 6 <= i < 6 + |a1| {
        assert raw1[i] == a1[i - 6] && raw2[i] == a2[i - 6];
        assert ToLowerCase(a1)[i - 6] == ToLowerCase(a2)[i - 6];
      } else if 7 + |a1| <= i {
        assert raw1[i] == b1[i - 7 - |a1|] && raw2[i] == b2[i - 7 - |a1|];
        assert ToLowerCase(b1)[i - 7 - |a1|] == ToLowerCase(b2)[i - 7 - |a1|];
      }
    }
  }

  /** Text already free of upper-case letters is kept as it is. */
  lemma TagsKeepLowerCase(track: TrackData)
    requires var raw := "music," + ToJsString(track.artist) + "," + ToJsString(track.album);
      forall i :: 0 <= i < |raw| ==> !('A' <= raw[i] <= 'Z')
    ensures Tags(track) == "music," + ToJsString(track.artist) + "," + ToJsString(track.album)
  {
  }
}
