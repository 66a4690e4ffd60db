/** The track record of the request server (server/app.py) and how it is
    filled from a track dictionary. */
module App {

  import opened Ids

  /** Python's truthiness of a JSON value. */
  predicate Truthy(v: Json)
  {
    match v
    case JNull => false
    case JBool(b) => b
    case JNum(n) => n != 0
    case JStr(s) => s != ""
    case JList(items) => items != []
    case JObject(fields) => fields != map[]
  }

  /** What `populate` makes of the 'albumArtRef' entry. */
  datatype Artwork = NoArtwork | ArtworkUrl(url: Json) | BadArtwork

  /** A missing or empty 'albumArtRef' is no artwork; a non-empty list whose
      first entry is a dictionary with a 'url' gives that url; anything else
      makes the lookup raise. */
  function ArtworkOf(data: map<string, Json>): (a: Artwork)
    ensures a.NoArtwork? <==> !Truthy(Get(data, "albumArtRef", JList([])))
    ensures a.ArtworkUrl? <==>
              && Get(data, "albumArtRef", JList([])).JList?
              && |Get(data, "albumArtRef", JList([])).items| > 0
              && Get(data, "albumArtRef", JList([])).items[0].JObject?
              && "url" in Get(data, "albumArtRef", JList([])).items[0].fields
    ensures a.ArtworkUrl? ==> a.url == data["albumArtRef"].items[0].fields["url"]
  {
    var artwork := Get(data, "albumArtRef", JList([]));
    if !Truthy(artwork) then NoArtwork
    else if artwork.JList? && artwork.items[0].JObject? && "url" in artwork.items[0].fields
    then ArtworkUrl(artwork.items[0].fields["url"])
    else BadArtwork
  }

  /** The fields of a track that `populate` sets. */
  class Track {
    var artist: Json
    var title: Json
    var albumArt: Json
    var googleId: Json

    constructor ()
      ensures artist == JNull && title == JNull && albumArt == JNull && googleId == JNull
    {
      artist := JNull;
      title := JNull;
      albumArt := JNull;
      googleId := JNull;
    }

    /** `populate`, without the database save that follows it. `ok` is false
        when the artwork lookup raises; the title, artist and id are set by
        then. */
    method Populate(data: map<string, Json>) returns (ok: bool)
      modifies this
      ensures title == Get(data, "title", JStr("Unknown Song"))
      ensures artist == Get(data, "artist", JStr("Unknown Artist"))
      ensures googleId == GetId(data)
      ensures ok == !ArtworkOf(data).BadArtwork?
      ensures albumArt == if ArtworkOf(data).ArtworkUrl? then ArtworkOf(data).url else old(albumArt)
    {
      title := Get(data, "title", JStr("Unknown Song"));
      artist := Get(data, "artist", JStr("Unknown Artist"));
      googleId := GetId(data);
      var artwork := Get(data, "albumArtRef", JList([]));
      if Truthy(artwork) {
        if artwork.JList? && artwork.items[0].JObject? && "url" in artwork.items[0].fields {
          albumArt := artwork.items[0].fields["url"];
        } else {
          return false;
        }
      }
      ok := true;
    }
  }

  /** The server's own test: a dictionary with an artist, a title, a store id
      and one piece of artwork fills the track with exactly those values. */
  method PopulateExample() returns (t: Track, ok: bool)
    ensures ok
    ensures t.artist == JStr("Test Artist") && t.title == JStr("Test Title")
    ensures t.albumArt == JStr("http://whatever.com/artwork.jpg")
    ensures t.googleId == JStr("asdf123")
  {
    var art := JObject(map["url" := JStr("http://whatever.com/artwork.jpg")]);
    var d := map[
      "artist" := JStr("Test Artist"),
      "title" := JStr("Test Title"),
      "storeId" := JStr("asdf123"),
      "albumArtRef" := JList([art])];
    t := new Track();
    ok := t.Populate(d);
    assert Get(d, "albumArtRef", JList([])).items[0] == art;
  }
}
