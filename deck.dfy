/** The per-deck playback state machine of pyjay/deck.py: a deck holds an
    optional stream, a paused flag and the volume, pan and frequency it pushes
    into whatever stream is loaded. */
module Decks {

  import opened Optional
  import opened Normalize
  import opened Streams

  /** Everything a deck stores, as one value. */
  datatype DeckState = DeckState(
    filename: Option<string>,
    url: bool,
    stream: Option<Stream>,
    paused: bool,
    volume: real,
    pan: real,
    frequency: real)

  /** The three states of a deck as the commands see it. */
  datatype Phase = Empty | LoadedPaused | LoadedPlaying

  function PhaseOf(d: DeckState): Phase
  {
    if d.stream.None? then Empty else if d.paused then LoadedPaused else LoadedPlaying
  }

  /** What every deck operation keeps: the parameters are normalised, a loaded
      stream carries exactly the deck's volume, pan and frequency, and it plays
      exactly when the deck is not paused. */
  predicate ValidState(d: DeckState)
  {
    && 0.0 <= d.volume <= 1.0
    && -1.0 <= d.pan <= 1.0
    && FrequencyInRange(d.frequency)
    && (d.stream.Some? ==>
          && d.stream.value.volume == d.volume
          && d.stream.value.pan == d.pan
          && d.stream.value.frequency == d.frequency
          && d.stream.value.playing == !d.paused)
  }

  /** A deck just built: nothing loaded, paused, and the defaults of `reset`. */
  const Initial: DeckState := DeckState(None, false, None, true, 1.0, 0.0, 44100.0)

  /** `set_volume`: store the normalised volume and push it to the stream. */
  function AfterSetVolume(d: DeckState, value: real): (r: DeckState)
    ensures r.volume == Clamp(value, 0.0, 1.0)
    ensures r.stream.Some? <==> d.stream.Some?
    ensures r.stream.Some? ==> r.stream.value == d.stream.value.(volume := r.volume)
    ensures r.(volume := d.volume, stream := d.stream) == d
    ensures ValidState(d) ==> ValidState(r)
  {
    var v := Clamp(value, 0.0, 1.0);
    d.(volume := v, stream := if d.stream.Some? then Some(d.stream.value.(volume := v)) else None)
  }

  /** `set_pan`: store the normalised pan and push it to the stream. */
  function AfterSetPan(d: DeckState, value: real): (r: DeckState)
    ensures r.pan == Clamp(value, -1.0, 1.0)
    ensures r.stream.Some? <==> d.stream.Some?
    ensures r.stream.Some? ==> r.stream.value == d.stream.value.(pan := r.pan)
    ensures r.(pan := d.pan, stream := d.stream) == d
    ensures ValidState(d) ==> ValidState(r)
  {
    var v := Clamp(value, -1.0, 1.0);
    d.(pan := v, stream := if d.stream.Some? then Some(d.stream.value.(pan := v)) else None)
  }

  /** `set_frequency`: store the normalised frequency and push it to the stream. */
  function AfterSetFrequency(d: DeckState, value: real): (r: DeckState)
    ensures r.frequency == NormalizeFrequency(value)
    ensures r.stream.Some? <==> d.stream.Some?
    ensures r.stream.Some? ==> r.stream.value == d.stream.value.(frequency := r.frequency)
    ensures r.(frequency := d.frequency, stream := d.stream) == d
    ensures ValidState(d) ==> ValidState(r)
  {
    var v := NormalizeFrequency(value);
    d.(frequency := v, stream := if d.stream.Some? then Some(d.stream.value.(frequency := v)) else None)
  }

  /** `reset`: the three setters with the defaults. */
  function AfterReset(d: DeckState): (r: DeckState)
    ensures r.volume == 1.0 && r.pan == 0.0 && r.frequency == 44100.0
    ensures r.paused == d.paused && r.filename == d.filename && r.url == d.url
    ensures r.stream.Some? <==> d.stream.Some?
    ensures r.stream.Some? ==>
              r.stream.value == d.stream.value.(volume := 1.0, pan := 0.0, frequency := 44100.0)
    ensures PhaseOf(r) == PhaseOf(d)
    ensures ValidState(d) ==> ValidState(r)
  {
    AfterSetFrequency(AfterSetPan(AfterSetVolume(d, 1.0), 0.0), 44100.0)
  }

  /** `play`: unpause, and start the stream if there is one. */
  function AfterPlay(d: DeckState): (r: DeckState)
    ensures !r.paused
    ensures r.stream.Some? <==> d.stream.Some?
    ensures r.stream.Some? ==> r.stream.value == d.stream.value.(playing := true)
    ensures r.(paused := d.paused, stream := d.stream) == d
    ensures ValidState(d) ==> ValidState(r)
  {
    d.(paused := false, stream := if d.stream.Some? then Some(d.stream.value.(playing := true)) else None)
  }

  /** `pause`: pause, and stop the stream if there is one. */
  function AfterPause(d: DeckState): (r: DeckState)
    ensures r.paused
    ensures r.stream.Some? <==> d.stream.Some?
    ensures r.stream.Some? ==> r.stream.value == d.stream.value.(playing := false)
    ensures r.(paused := d.paused, stream := d.stream) == d
    ensures ValidState(d) ==> ValidState(r)
  {
    d.(paused := true, stream := if d.stream.Some? then Some(d.stream.value.(playing := false)) else None)
  }

  /** `play_pause`: play a paused deck, pause a playing one. */
  function AfterPlayPause(d: DeckState): (r: DeckState)
    ensures r.paused == !d.paused
    ensures r.stream.Some? <==> d.stream.Some?
    ensures r.stream.Some? ==> r.stream.value.playing == d.paused
    ensures r.(paused := d.paused, stream := d.stream) == d
    ensures PhaseOf(d) == Empty ==> PhaseOf(r) == Empty
    ensures PhaseOf(d) == LoadedPaused ==> PhaseOf(r) == LoadedPlaying
    ensures PhaseOf(d) == LoadedPlaying ==> PhaseOf(r) == LoadedPaused
    ensures ValidState(d) ==> ValidState(r)
  {
    if d.paused then AfterPlay(d) else AfterPause(d)
  }

  /** `set_stream`: record the url flag, then (if the library opened the
      source) install the new stream, record the filename, re-apply the
      deck's parameters to the stream and resume it if the deck was playing.
      `opening` is the length of the stream the library opened, or None when
      opening failed; a failed open still changes the url flag. */
  function AfterSetStream(d: DeckState, filename: string, isUrl: bool, opening: Option<nat>): (r: DeckState)
    ensures r.url == isUrl
    ensures opening.None? ==> r == d.(url := isUrl)
    ensures opening.Some? ==>
              && r.filename == Some(filename)
              && r.paused == d.paused
              && r.stream.Some?
              && r.stream.value.position == 0
              && r.stream.value.length == opening.value
              && r.stream.value.playing == !d.paused
              && r.stream.value.volume == r.volume
              && r.stream.value.pan == r.pan
              && r.stream.value.frequency == r.frequency
    ensures opening.Some? ==> PhaseOf(r) == if d.paused then LoadedPaused else LoadedPlaying
    ensures ValidState(d) ==> r.volume == d.volume && r.pan == d.pan && r.frequency == d.frequency
    ensures ValidState(d) ==> ValidState(r)
  {
    var marked := d.(url := isUrl);
    if opening.None? then marked
    else
      var loaded := marked.(stream := Some(Opened(opening.value)), filename := Some(filename));
      var applied := AfterSetFrequency(AfterSetPan(AfterSetVolume(loaded, loaded.volume), loaded.pan), loaded.frequency);
      if applied.paused then applied else AfterPlay(applied)
  }

  /** `get_position`: the stream's position, or 0 with nothing loaded. */
  function PositionOf(d: DeckState): (p: int)
    ensures d.stream.None? ==> p == 0
    ensures d.stream.Some? ==> p == d.stream.value.position
  {
    if d.stream.Some? then d.stream.value.position else 0
  }

  /** After any seek on a stream that is not empty, `get_position` lies in
      [0, length]. */
  lemma SeekStaysInStream(d: DeckState, amount: int, absolute: bool)
    requires d.stream.Some? && d.stream.value.length >= 1
    ensures 0 <= PositionOf(AfterSeek(d, amount, absolute)) <= d.stream.value.length
  {
  }

  /** The position `seek` asks for before any correction. */
  function Requested(position: int, amount: int, absolute: bool): int
  {
    if absolute then amount else position + amount
  }

  /** The position `seek` sets: a negative request becomes 0, and a request
      strictly beyond the length becomes length - 1; a request equal to the
      length is kept. */
  function SeekTarget(position: int, length: nat, amount: int, absolute: bool): (r: int)
    ensures Requested(position, amount, absolute) < 0 ==> r == 0
    ensures 0 <= Requested(position, amount, absolute) <= length ==> r == Requested(position, amount, absolute)
    ensures Requested(position, amount, absolute) > length ==> r == length - 1
    ensures length >= 1 ==> 0 <= r <= length
    ensures length >= 1 && r == length ==> Requested(position, amount, absolute) == length
  {
    var target := Requested(position, amount, absolute);
    var target := if target < 0 then 0 else target;
    if target > length then length - 1 else target
  }

  /** `seek`: move a loaded stream; with nothing loaded nothing changes. */
  function AfterSeek(d: DeckState, amount: int, absolute: bool): (r: DeckState)
    ensures d.stream.None? ==> r == d
    ensures r.stream.Some? <==> d.stream.Some?
    ensures r.(stream := d.stream) == d
    ensures d.stream.Some? ==>
              && r.stream.value.(position := d.stream.value.position) == d.stream.value
              && r.stream.value.position
                   == SeekTarget(d.stream.value.position, d.stream.value.length, amount, absolute)
    ensures ValidState(d) ==> ValidState(r)
  {
    if d.stream.None? then d
    else
      var s := d.stream.value;
      d.(stream := Some(s.(position := SeekTarget(s.position, s.length, amount, absolute))))
  }

  /** An absolute seek within the stream lands exactly where it was asked to,
      as `get_position` then reports. */
  lemma SeekThenPosition(d: DeckState, amount: int)
    requires d.stream.Some? && 0 <= amount <= d.stream.value.length
    ensures PositionOf(AfterSeek(d, amount, true)) == amount
  {
  }

  /** A relative seek that stays within the stream moves by exactly the amount. */
  lemma SeekRelativeMoves(d: DeckState, delta: int)
    requires d.stream.Some?
    requires 0 <= d.stream.value.position + delta <= d.stream.value.length
    ensures PositionOf(AfterSeek(d, delta, false)) == PositionOf(d) + delta
  {
  }

  /** Toggling play/pause twice gives back the deck it started from. */
  lemma PlayPauseTwice(d: DeckState)
    requires ValidState(d)
    ensures AfterPlayPause(AfterPlayPause(d)) == d
  {
    if d.stream.Some? {
      assert AfterPlayPause(AfterPlayPause(d)).stream.value == d.stream.value;
    }
  }

  /** Setting the volume twice: the second value wins. The same holds for pan
      and frequency. */
  lemma SettersLastWriteWins(d: DeckState, a: real, b: real)
    ensures AfterSetVolume(AfterSetVolume(d, a), b) == AfterSetVolume(d, b)
    ensures AfterSetPan(AfterSetPan(d, a), b) == AfterSetPan(d, b)
    ensures AfterSetFrequency(AfterSetFrequency(d, a), b) == AfterSetFrequency(d, b)
  {
  }

  /** The operations of a deck, for stating what any sequence of them keeps. */
  datatype DeckOp =
    | OpReset
    | OpPlay
    | OpPause
    | OpPlayPause
    | OpSetStream(filename: string, isUrl: bool, opening: Option<nat>)
    | OpSetVolume(volume: real)
    | OpSetPan(pan: real)
    | OpSetFrequency(frequency: real)
    | OpSeek(amount: int, absolute: bool)

  function Step(d: DeckState, op: DeckOp): DeckState
  {
    match op
    case OpReset => AfterReset(d)
    case OpPlay => AfterPlay(d)
    case OpPause => AfterPause(d)
    case OpPlayPause => AfterPlayPause(d)
    case OpSetStream(f, u, o) => AfterSetStream(d, f, u, o)
    case OpSetVolume(v) => AfterSetVolume(d, v)
    case OpSetPan(v) => AfterSetPan(d, v)
    case OpSetFrequency(v) => AfterSetFrequency(d, v)
    case OpSeek(a, abs) => AfterSeek(d, a, abs)
  }

  function Run(d: DeckState, ops: seq<DeckOp>): DeckState
    decreases |ops|
  {
    if ops == [] then d else Run(Step(d, ops[0]), ops[1..])
  }

  /** Whatever the deck is asked to do, its invariant survives. */
  lemma {:induction false} RunPreservesValid(d: DeckState, ops: seq<DeckOp>)
    requires ValidState(d)
    ensures ValidState(Run(d, ops))
    decreases |ops|
  {
    if ops != [] {
      var next := Step(d, ops[0]);
      assert ValidState(next) by {
        match ops[0]
        case OpReset =>
        case OpPlay =>
        case OpPause =>
        case OpPlayPause =>
        case OpSetStream(f, u, o) =>
        case OpSetVolume(v) =>
        case OpSetPan(v) =>
        case OpSetFrequency(v) =>
        case OpSeek(a, abs) =>
      }
      RunPreservesValid(next, ops[1..]);
    }
  }

  /** Every deck reachable from a fresh one satisfies the invariant. */
  lemma ReachableDecksValid(ops: seq<DeckOp>)
    ensures ValidState(Run(Initial, ops))
  {
    RunPreservesValid(Initial, ops);
  }

  /** No deck operation unloads a stream: once one is loaded, the deck never
      goes back to having none. */
  lemma {:induction false} RunKeepsStream(d: DeckState, ops: seq<DeckOp>)
    requires d.stream.Some?
    ensures Run(d, ops).stream.Some?
    decreases |ops|
  {
    if ops != [] {
      var next := Step(d, ops[0]);
      assert next.stream.Some? by {
        match ops[0]
        case OpReset =>
        case OpPlay =>
        case OpPause =>
        case OpPlayPause =>
        case OpSetStream(f, u, o) =>
        case OpSetVolume(v) =>
        case OpSetPan(v) =>
        case OpSetFrequency(v) =>
        case OpSeek(a, abs) =>
      }
      RunKeepsStream(next, ops[1..]);
    }
  }

  /** One deck of the console: the fields of pyjay/deck.py's Deck. */
  class Deck {
    const name: string
    var filename: Option<string>
    var url: bool
    var stream: Option<Stream>
    var paused: bool
    var volume: real
    var pan: real
    var frequency: real

    function State(): DeckState
      reads this
    {
      DeckState(filename, url, stream, paused, volume, pan, frequency)
    }

    predicate Valid()
      reads this
    {
      ValidState(State())
    }

    /** `get_position`. */
    function Position(): (p: int)
      reads this
      ensures p == PositionOf(State())
    {
      PositionOf(State())
    }

    constructor (name: string)
      ensures this.name == name
      ensures State() == Initial && Valid()
    {
      this.name := name;
      filename := None;
      url := false;
      stream := None;
      paused := true;
      new;
      Reset();
    }

    method Reset()
      modifies this
      ensures State() == AfterReset(old(State()))
    {
      SetVolume(1.0);
      SetPan(0.0);
      SetFrequency(44100.0);
    }

    method Play()
      modifies this
      ensures State() == AfterPlay(old(State()))
    {
      paused := false;
      if stream.Some? {
        stream := Some(stream.value.(playing := true));
      }
    }

    method Pause()
      modifies this
      ensures State() == AfterPause(old(State()))
    {
      paused := true;
      if stream.Some? {
        stream := Some(stream.value.(playing := false));
      }
    }

    method PlayPause()
      modifies this
      ensures State() == AfterPlayPause(old(State()))
    {
      if paused {
        Play();
      } else {
        Pause();
      }
    }

    /** `opening` is what the audio library gave back for `filename`: the
        length of the new stream, or None when it could not open it. */
    method SetStream(filename: string, isUrl: bool, opening: Option<nat>) returns (ok: bool)
      modifies this
      ensures ok == opening.Some?
      ensures State() == AfterSetStream(old(State()), filename, isUrl, opening)
    {
      url := isUrl;
      if opening.None? {
        return false;
      }
      stream := Some(Opened(opening.value));
      this.filename := Some(filename);
      SetVolume(volume);
      SetPan(pan);
      SetFrequency(frequency);
      if !paused {
        Play();
      }
      ok := true;
    }

    method SetVolume(value: real)
      modifies this
      ensures State() == AfterSetVolume(old(State()), value)
    {
      var v := value;
      if v > 1.0 {
        v := 1.0;
      } else if v < 0.0 {
        v := 0.0;
      }
      volume := v;
      if stream.Some? {
        stream := Some(stream.value.(volume := v));
      }
    }

    method SetPan(value: real)
      modifies this
      ensures State() == AfterSetPan(old(State()), value)
    {
      var v := value;
      if v > 1.0 {
        v := 1.0;
      } else if v < -1.0 {
        v := -1.0;
      }
      pan := v;
      if stream.Some? {
        stream := Some(stream.value.(pan := v));
      }
    }

    method SetFrequency(value: real)
      modifies this
      ensures State() == AfterSetFrequency(old(State()), value)
    {
      var v := value;
      if v > 200000.0 {
        v := 100000.0;
      } else if v < 100.0 {
        v := 10.0;
      }
      frequency := v;
      if stream.Some? {
        stream := Some(stream.value.(frequency := v));
      }
    }

    method Seek(amount: int, absolute: bool)
      modifies this
      ensures State() == AfterSeek(old(State()), amount, absolute)
    {
      if stream.Some? {
        var target := amount;
        if !absolute {
          target := stream.value.position + amount;
        }
        if target < 0 {
          target := 0;
        }
        if target > stream.value.length {
          target := stream.value.length - 1;
        }
        stream := Some(stream.value.(position := target));
      }
    }
  }
}
