/**
 * What github.com/grafov/m3u8's DecodeFrom hands back, as far as the core
 * reads it. The decoder itself is foreign code: the core receives its result
 * as an input (a function from the body text to a Decoded value).
 */
module M3u8 {
  import opened Wrappers
  import Http

  /** An EXT-X-MEDIA rendition; only its NAME attribute is read. */
  datatype Alternative = Alternative(name: string)

  /** One EXT-X-STREAM-INF entry of a master playlist. `frameRate` is Go's float64, only copied. */
  datatype Variant = Variant(uri: string, resolution: string, frameRate: real, alternatives: seq<Alternative>)

  /** The dynamic type behind the decoder's Playlist interface (nil, master or media). */
  datatype Playlist = NoPlaylist | Master(variants: seq<Variant>) | Media

  /** DecodeFrom's (playlist, listType, error) triple without the list type, which the core ignores. */
  datatype Decoded = Decoded(playlist: Playlist, err: Option<Http.Error>)

  /**
   * The playlist passes `playlist.(*m3u8.MasterPlaylist)` and every entry has
   * an `Alternatives[0]`: the reads the core performs without checking.
   */
  predicate NamedMaster(p: Playlist) {
    p.Master? && forall i :: 0 <= i < |p.variants| ==> |p.variants[i].alternatives| > 0
  }
}
