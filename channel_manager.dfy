/**
 * ymt/js/channelManager.js: its own copy of the channel parser, with the `[^"]+` logo
 * pattern. Fetching the two playlists and filling the grids are not part of this model.
 */
module ChannelManager {
  import opened M3uParser

  /** parseM3U: the shared scanner with the non-empty logo pattern, so `tvg-logo=""`
      leaves the logo '' exactly as a missing attribute does. */
  method ParseM3U(content: string) returns (channels: seq<Channel>)
    ensures channels == Parse(content, NonEmptyLogo)
  {
    channels := M3uParser.ParseM3U(content, NonEmptyLogo);
  }
}
