/**
 * albumMapper: the album row as the API returns it, with the stored cover file name
 * turned into a URL on the server that serves covers.
 */
module Mapper {
  import opened Relation
  import opened Schema

  /** `config.server`: host and port (the port as it is printed into the URL). */
  datatype ServerConfig = ServerConfig(host: string, port: string)

  /** The mapped album: exactly these four fields, whatever else the row held. */
  datatype AlbumView = AlbumView(id: string, name: string, year: int, coverUrl: Option<string>)

  function CoverUrlPrefix(server: ServerConfig): string {
    "http://" + server.host + ":" + server.port + "/albums/cover/"
  }

  /** JavaScript truthiness of the nullable cover column: null and "" are falsy. */
  predicate HasCover(album: Album) {
    album.cover.Some? && album.cover.value != ""
  }

  function AlbumMapper(album: Album, server: ServerConfig): (v: AlbumView)
    ensures v.id == album.id && v.name == album.name && v.year == album.year
    ensures v.coverUrl == None <==> !HasCover(album)
    ensures HasCover(album) ==> v.coverUrl == Some(CoverUrlPrefix(server) + album.cover.value)
  {
    AlbumView(album.id, album.name, album.year,
              if HasCover(album) then Some(CoverUrlPrefix(server) + album.cover.value) else None)
  }

  /** The file name a cover URL points at: what follows the server's cover prefix. */
  function CoverFileOf(url: string, server: ServerConfig): string
    requires |CoverUrlPrefix(server)| <= |url|
  {
    url[|CoverUrlPrefix(server)|..]
  }

  /** The cover file can be read back from the URL, so distinct covers give distinct URLs. */
  lemma CoverUrlRoundTrip(album: Album, server: ServerConfig)
    requires HasCover(album)
    ensures AlbumMapper(album, server).coverUrl.Some?
    ensures |CoverUrlPrefix(server)| < |AlbumMapper(album, server).coverUrl.value|
    ensures CoverFileOf(AlbumMapper(album, server).coverUrl.value, server) == album.cover.value
  {
    var prefix := CoverUrlPrefix(server);
    assert (prefix + album.cover.value)[|prefix|..] == album.cover.value;
  }

  lemma CoverUrlInjective(a: Album, b: Album, server: ServerConfig)
    requires HasCover(a) && HasCover(b)
    requires AlbumMapper(a, server).coverUrl == AlbumMapper(b, server).coverUrl
    ensures a.cover == b.cover
  {
    CoverUrlRoundTrip(a, server);
    CoverUrlRoundTrip(b, server);
  }
}
