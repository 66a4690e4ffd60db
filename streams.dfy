/** The audio stream a deck plays from (sound_lib's FileStream or URLStream),
    seen only through the operations the deck uses on it. Positions and
    lengths are the library's byte offsets. */
module Streams {

  datatype Stream = Stream(
    position: int,
    length: nat,
    volume: real,
    pan: real,
    frequency: real,
    playing: bool)

  /** A stream as the library hands it over after opening a file or URL of the
      given length: at the start and not playing. Its own volume, pan and
      frequency are the library's and are overwritten by the deck right away;
      they are written here as 1.0, 0.0 and 44100.0. */
  function Opened(length: nat): (s: Stream)
    ensures s.position == 0 && s.length == length && !s.playing
  {
    Stream(0, length, 1.0, 0.0, 44100.0, false)
  }
}
