/**
 * ymt/js/myChannels.js: its own copy of the channel parser, with the `[^"]+` logo
 * pattern. Fetching the playlist and building its cards are not part of this model.
 */
module MyChannels {
  import opened M3uParser

  /** parseM3U: the shared scanner with the non-empty logo pattern. */
  method ParseM3U(content: string) returns (channels: seq<Channel>)
    ensures channels == Parse(content, NonEmptyLogo)
  {
    channels := M3uParser.ParseM3U(content, NonEmptyLogo);
  }
}
