/** What each hotkey command of pyjay/commands.py does to the console: the
    master volume, the crossfader, the microphone and the two decks. */
module Commands {

  import opened Optional
  import opened Normalize
  import opened Decks

  /** The audio section of the configuration (pyjay/config.py): the step
      sizes the commands use. */
  datatype AudioConfig = AudioConfig(
    changeMasterVolume: real,
    changePan: real,
    changeVolume: real,
    changeFrequency: real,
    seekAmount: int,
    crossfadeAmount: int)

  /** The ranges the configuration's validators admit. */
  predicate ValidConfig(c: AudioConfig)
  {
    && 0.0 <= c.changeMasterVolume <= 100.0
    && 0.0001 <= c.changePan <= 2.0
    && 0.00001 <= c.changeVolume <= 1.0
    && 0.0001 <= c.changeFrequency <= 199990.0
    && 0 <= c.seekAmount
    && 0 <= c.crossfadeAmount <= 100
  }

  /** The configuration's defaults. */
  const DefaultConfig: AudioConfig := AudioConfig(5.0, 0.1, 0.05, 100.0, 50000, 1)

  /** The defaults pass the validators. */
  lemma DefaultConfigValid()
    ensures ValidConfig(DefaultConfig)
  {
  }

  /** Which deck a key addresses. */
  datatype Side = LeftDeck | RightDeck

  function IntMin(a: int, b: int): int { if a <= b then a else b }

  function IntMax(a: int, b: int): int { if a >= b then a else b }

  // MasterVolume
  const MasterUp := "="
  const MasterDown := "-"
  const MasterFull := "SHIFT+="
  const MasterMute := "SHIFT+-"
  const MasterVolumeKeys := [MasterUp, MasterDown, MasterFull, MasterMute]

  // PlayPause
  const PlayLeft := "D"
  const PlayRight := "K"
  const PlayBoth := "SPACE"

  // SetPan
  const PanLeftLeft := "S"
  const PanLeftFullLeft := "SHIFT+S"
  const PanLeftRight := "F"
  const PanLeftFullRight := "SHIFT+F"
  const PanRightLeft := "J"
  const PanRightFullLeft := "SHIFT+J"
  const PanRightRight := "L"
  const PanRightFullRight := "SHIFT+L"
  const PanLeftDeckKeys := [PanLeftLeft, PanLeftFullLeft, PanLeftRight, PanLeftFullRight]

  // DeckReset
  const ResetLeft := "Q"
  const ResetRight := "P"

  // SetVolume
  const VolumeLeftUp := "E"
  const VolumeLeftDown := "X"
  const VolumeRightUp := "I"
  const VolumeRightDown := ","

  // FullVolume and MuteVolume
  const FullLeft := "SHIFT+E"
  const FullRight := "SHIFT+I"
  const MuteLeft := "SHIFT+X"
  const MuteRight := "SHIFT+,"

  // SetFrequency
  const FrequencyLeftUp := "C"
  const FrequencyLeftDown := "Z"
  const FrequencyRightUp := "."
  const FrequencyRightDown := "M"

  // DeckSeek
  const SeekLeftBack := "W"
  const SeekLeftStart := "SHIFT+W"
  const SeekLeftForward := "R"
  const SeekRightBack := "U"
  const SeekRightStart := "SHIFT+U"
  const SeekRightForward := "O"

  // CrossFade
  const CrossLeft := "G"
  const CrossRight := "H"
  const CrossCentre := "Y"
  const CrossCutLeft := "SHIFT+G"
  const CrossCutRight := "SHIFT+H"

  // DeckStop
  const StopLeft := "SHIFT+D"
  const StopRight := "SHIFT+K"

  // MicrophonePan
  const MicLeft := "["
  const MicFullLeft := "SHIFT+["
  const MicRight := "]"
  const MicFullRight := "SHIFT+]"

  // ResetFrequency and ResetPan
  const ResetFrequencyLeft := "SHIFT+Q"
  const ResetFrequencyRight := "SHIFT+P"
  const ResetPanLeft := "SHIFT+T"
  const ResetPanRight := "SHIFT+Y"

  /** The deck a single-key command addresses: its left key picks the left
      deck, any other key the right one. */
  function SideOf(key: string, leftKey: string): Side
  {
    if key == leftKey then LeftDeck else RightDeck
  }

  function PanSide(key: string): Side
  {
    if key in PanLeftDeckKeys then LeftDeck else RightDeck
  }

  function VolumeSide(key: string): Side
  {
    if key == VolumeLeftUp || key == VolumeLeftDown then LeftDeck else RightDeck
  }

  function FrequencySide(key: string): Side
  {
    if key == FrequencyLeftUp || key == FrequencyLeftDown then LeftDeck else RightDeck
  }

  function SeekSide(key: string): Side
  {
    if key == SeekLeftBack || key == SeekLeftStart || key == SeekLeftForward then LeftDeck else RightDeck
  }

  /** MasterVolume: the new master volume for a key. */
  function MasterVolumeAfter(mv: real, key: string, step: real): (r: real)
    requires key in MasterVolumeKeys
    ensures key == MasterUp ==> r == Min(100.0, mv + step)
    ensures key == MasterDown ==> r == Max(0.0, mv - step)
    ensures key == MasterFull ==> r == 100.0
    ensures key == MasterMute ==> r == 0.0
    ensures 0.0 <= mv <= 100.0 && 0.0 <= step ==> 0.0 <= r <= 100.0
  {
    if key == MasterUp then Min(100.0, mv + step)
    else if key == MasterDown then Max(0.0, mv - step)
    else if key == MasterFull then 100.0
    else 0.0
  }

  /** The master volume after a whole session of MasterVolume keys. */
  function MasterVolumeAfterKeys(mv: real, keys: seq<string>, step: real): real
    requires forall k :: 0 <= k < |keys| ==> keys[k] in MasterVolumeKeys
    decreases |keys|
  {
    if keys == [] then mv
    else MasterVolumeAfterKeys(MasterVolumeAfter(mv, keys[0], step), keys[1..], step)
  }

  /** However the master volume keys are pressed, it stays in [0, 100]. */
  lemma {:induction false} MasterVolumeStaysInRange(mv: real, keys: seq<string>, step: real)
    requires 0.0 <= mv <= 100.0 && 0.0 <= step
    requires forall k :: 0 <= k < |keys| ==> keys[k] in MasterVolumeKeys
    ensures 0.0 <= MasterVolumeAfterKeys(mv, keys, step) <= 100.0
    decreases |keys|
  {
    if keys != [] {
      MasterVolumeStaysInRange(MasterVolumeAfter(mv, keys[0], step), keys[1..], step);
    }
  }

  /** SetPan: the pan handed to the deck's setter. A full key asks for
      exactly -1 or 1, a left nudge for the pan minus the step and any other
      key for the pan plus the step. */
  function PanRequest(pan: real, key: string, change: real): (r: real)
    ensures key == PanLeftFullLeft || key == PanRightFullLeft ==> r == -1.0
    ensures key == PanLeftFullRight || key == PanRightFullRight ==> r == 1.0
    ensures key == PanLeftLeft || key == PanRightLeft ==> r == pan - change
    ensures key == PanLeftRight || key == PanRightRight ==> r == pan + change
  {
    var amount := if key == PanLeftLeft || key == PanRightLeft then -change else change;
    if key == PanLeftFullLeft || key == PanRightFullLeft then -1.0
    else if key == PanLeftFullRight || key == PanRightFullRight then 1.0
    else pan + amount
  }

  /** SetVolume: the volume handed to the deck's setter. */
  function VolumeRequest(volume: real, key: string, change: real): (r: real)
    ensures key == VolumeLeftDown || key == VolumeRightDown ==> r == volume - change
    ensures key != VolumeLeftDown && key != VolumeRightDown ==> r == volume + change
  {
    var amount := if key == VolumeLeftDown || key == VolumeRightDown then -change else change;
    amount + volume
  }

  /** SetFrequency: the frequency handed to the deck's setter. */
  function FrequencyRequest(frequency: real, key: string, change: real): (r: real)
    ensures key == FrequencyLeftDown || key == FrequencyRightDown ==> r == frequency - change
    ensures key != FrequencyLeftDown && key != FrequencyRightDown ==> r == frequency + change
  {
    var amount := if key == FrequencyLeftDown || key == FrequencyRightDown then -change else change;
    amount + frequency
  }

  /** A seek as DeckSeek asks for it. */
  datatype SeekMove = SeekMove(amount: int, absolute: bool)

  /** DeckSeek: a start key is an absolute seek to 0, a back key a relative
      seek by minus the step and any other key a relative seek by the step. */
  function SeekRequest(key: string, seekAmount: int): (m: SeekMove)
    ensures key == SeekLeftStart || key == SeekRightStart ==> m == SeekMove(0, true)
    ensures key == SeekLeftBack || key == SeekRightBack ==> m == SeekMove(-seekAmount, false)
    ensures key == SeekLeftForward || key == SeekRightForward ==> m == SeekMove(seekAmount, false)
  {
    if key == SeekLeftStart || key == SeekRightStart then SeekMove(0, true)
    else if key == SeekLeftBack || key == SeekRightBack then SeekMove(-seekAmount, false)
    else SeekMove(seekAmount, false)
  }

  /** CrossFade: the new crossfader position. Nudges move by the step without
      leaving [-100, 100], the cut keys jump to an end and any other key
      centres it. */
  function CrossfadeAfter(c: int, key: string, amount: int): (r: int)
    requires 0 <= amount <= 100
    ensures key == CrossLeft ==> r == IntMax(-100, c - amount)
    ensures key == CrossRight ==> r == IntMin(100, c + amount)
    ensures key == CrossCutLeft ==> r == -100
    ensures key == CrossCutRight ==> r == 100
    ensures key == CrossCentre ==> r == 0
    ensures -100 <= c <= 100 ==> -100 <= r <= 100
  {
    if key == CrossLeft then IntMax(-100, c - amount)
    else if key == CrossRight then IntMin(100, c + amount)
    else if key == CrossCutLeft then -100
    else if key == CrossCutRight then 100
    else 0
  }

  /** The crossfader after a whole session of CrossFade keys. */
  function CrossfadeAfterKeys(c: int, keys: seq<string>, amount: int): int
    requires 0 <= amount <= 100
    decreases |keys|
  {
    if keys == [] then c else CrossfadeAfterKeys(CrossfadeAfter(c, keys[0], amount), keys[1..], amount)
  }

  /** However the crossfade keys are pressed, the crossfader stays in
      [-100, 100]. */
  lemma {:induction false} CrossfaderStaysInRange(c: int, keys: seq<string>, amount: int)
    requires -100 <= c <= 100 && 0 <= amount <= 100
    ensures -100 <= CrossfadeAfterKeys(c, keys, amount) <= 100
    decreases |keys|
  {
    if keys != [] {
      CrossfaderStaysInRange(CrossfadeAfter(c, keys[0], amount), keys[1..], amount);
    }
  }

  /** The volumes CrossFade writes into the two decks. */
  datatype Gains = Gains(left: real, right: real)

  /** CrossFade's ratio: volumes are crossfader steps times 0.01. */
  const Ratio: real := 0.01

  /** The one-sided linear gain law: the side the crossfader leans towards
      keeps full volume and the other side fades linearly, reaching silence at
      the end stop; centred, both are at full volume. */
  function CrossfadeGains(c: int): (g: Gains)
    requires -100 <= c <= 100
    ensures 0.0 <= g.left <= 1.0 && 0.0 <= g.right <= 1.0
    ensures c <= 0 ==> g.left == 1.0
    ensures c >= 0 ==> g.right == 1.0
    ensures g.left == 1.0 - (IntMax(0, c) as real) / 100.0
    ensures g.right == 1.0 + (IntMin(0, c) as real) / 100.0
  {
    if c < 0 then Gains(1.0, (100 + c) as real * Ratio)
    else if c > 0 then Gains((100 - c) as real * Ratio, 1.0)
    else Gains(1.0, 1.0)
  }

  /** Moving the crossfader right never raises the left gain and never lowers
      the right gain. */
  lemma CrossfadeGainsMonotone(c1: int, c2: int)
    requires -100 <= c1 <= c2 <= 100
    ensures CrossfadeGains(c2).left <= CrossfadeGains(c1).left
    ensures CrossfadeGains(c1).right <= CrossfadeGains(c2).right
  {
  }

  /** The end stops cut one side completely; one side is always at full
      volume, so the law is not equal-power. */
  lemma CrossfadeGainsEnds(c: int)
    requires -100 <= c <= 100
    ensures CrossfadeGains(-100) == Gains(1.0, 0.0)
    ensures CrossfadeGains(100) == Gains(0.0, 1.0)
    ensures CrossfadeGains(0) == Gains(1.0, 1.0)
    ensures CrossfadeGains(c).left == 1.0 || CrossfadeGains(c).right == 1.0
  {
  }

  /** A worked example with a step of 40: from the centre a right nudge leaves
      the left deck at 0.6, and a cut to the left then silences the right
      deck. */
  lemma CrossfadeScenario()
    ensures CrossfadeAfter(0, CrossRight, 40) == 40
    ensures CrossfadeGains(40) == Gains(0.6, 1.0)
    ensures CrossfadeAfter(40, CrossCutLeft, 40) == -100
    ensures CrossfadeGains(-100) == Gains(1.0, 0.0)
  {
  }

  /** Microphone: mute a microphone that has any volume, else unmute it. */
  function MicToggle(v: real): (r: real)
    ensures r == 0.0 || r == 1.0
    ensures v == 0.0 || v == 1.0 ==> r == 1.0 - v
    ensures v != 0.0 ==> r == 0.0
  {
    if v != 0.0 then 0.0 else 1.0
  }

  /** Toggling twice gives back a volume of 0 or 1; any other volume comes
      back as 1. */
  lemma MicToggleTwice(v: real)
    ensures v == 0.0 || v == 1.0 ==> MicToggle(MicToggle(v)) == v
    ensures v != 0.0 ==> MicToggle(MicToggle(v)) == 1.0
  {
  }

  /** MicrophonePan: the new microphone pan. */
  function MicPanAfter(pan: real, key: string, change: real): (r: real)
    ensures -1.0 <= r <= 1.0
    ensures key == MicFullLeft ==> r == -1.0
    ensures key == MicFullRight ==> r == 1.0
  {
    var amount := if key == MicLeft then -change else change;
    var amount := pan + amount;
    var amount := if key == MicFullLeft then -1.0 else if key == MicFullRight then 1.0 else amount;
    if amount < -1.0 then -1.0 else if amount > 1.0 then 1.0 else amount
  }

  /** The microphone's pan keys agree with a deck's: its own clamp is the
      deck's pan normaliser, and each of its keys acts like the corresponding
      deck key. */
  lemma MicPanMatchesDeckPan(pan: real, change: real)
    ensures MicPanAfter(pan, MicLeft, change) == Clamp(PanRequest(pan, PanLeftLeft, change), -1.0, 1.0)
    ensures MicPanAfter(pan, MicRight, change) == Clamp(PanRequest(pan, PanLeftRight, change), -1.0, 1.0)
    ensures MicPanAfter(pan, MicFullLeft, change) == Clamp(PanRequest(pan, PanLeftFullLeft, change), -1.0, 1.0)
    ensures MicPanAfter(pan, MicFullRight, change) == Clamp(PanRequest(pan, PanLeftFullRight, change), -1.0, 1.0)
  {
  }

  /** Nudging a deck's volume up never lowers it and nudging it down never
      raises it; the result stays in [0, 1]. */
  lemma VolumeNudgeDirection(volume: real, change: real)
    requires 0.0 <= volume <= 1.0 && 0.0 <= change
    ensures volume <= Clamp(VolumeRequest(volume, VolumeLeftUp, change), 0.0, 1.0)
    ensures Clamp(VolumeRequest(volume, VolumeLeftDown, change), 0.0, 1.0) <= volume
  {
  }

  /** Because of the frequency normaliser, one step up from just below 200000
      drops the deck to 100000, and one step down from just above 100 drops it
      to 10. */
  lemma FrequencyNudgeFallsBack()
    ensures NormalizeFrequency(FrequencyRequest(199950.0, FrequencyLeftUp, 100.0)) == 100000.0
    ensures NormalizeFrequency(FrequencyRequest(150.0, FrequencyLeftDown, 100.0)) == 10.0
  {
  }

  /** A volume nudge up followed by a nudge down gives back the deck, as long
      as the raised volume stays inside [0, 1]. */
  lemma VolumeUpThenDown(d: DeckState, up: string, down: string, change: real)
    requires ValidState(d) && 0.0 <= change && d.volume + change <= 1.0
    requires up == VolumeLeftUp || up == VolumeRightUp
    requires down == VolumeLeftDown || down == VolumeRightDown
    ensures var raised := AfterSetVolume(d, VolumeRequest(d.volume, up, change));
            AfterSetVolume(raised, VolumeRequest(raised.volume, down, change)) == d
  {
  }

  /** A pan nudge right followed by a nudge left gives back the deck, as long
      as the pan stays inside [-1, 1]. */
  lemma PanRightThenLeft(d: DeckState, right: string, left: string, change: real)
    requires ValidState(d) && 0.0 <= change && d.pan + change <= 1.0
    requires right == PanLeftRight || right == PanRightRight
    requires left == PanLeftLeft || left == PanRightLeft
    ensures var moved := AfterSetPan(d, PanRequest(d.pan, right, change));
            AfterSetPan(moved, PanRequest(moved.pan, left, change)) == d
  {
  }

  /** A full pan key asks for the same pan whatever the deck's pan was. */
  lemma PanFullIgnoresPan(key: string, pan: real, other: real, change: real)
    requires key == PanLeftFullLeft || key == PanRightFullLeft
             || key == PanLeftFullRight || key == PanRightFullRight
    ensures PanRequest(pan, key, change) == PanRequest(other, key, change)
    ensures -1.0 <= PanRequest(pan, key, change) <= 1.0
  {
  }

  /** A frequency nudge up followed by a nudge down gives back the deck, as
      long as the frequency starts at 100 or more and the raised one is at most
      200000. */
  lemma FrequencyUpThenDown(d: DeckState, up: string, down: string, change: real)
    requires ValidState(d) && 0.0 <= change
    requires 100.0 <= d.frequency && d.frequency + change <= 200000.0
    requires up == FrequencyLeftUp || up == FrequencyRightUp
    requires down == FrequencyLeftDown || down == FrequencyRightDown
    ensures var raised := AfterSetFrequency(d, FrequencyRequest(d.frequency, up, change));
            AfterSetFrequency(raised, FrequencyRequest(raised.frequency, down, change)) == d
  {
  }

  /** A forward seek followed by a back seek gives back the deck, as long as
      the forward seek does not pass the end of the stream. */
  lemma SeekForwardThenBack(d: DeckState, forward: string, back: string, step: int)
    requires d.stream.Some? && 0 <= step
    requires 0 <= PositionOf(d) && PositionOf(d) + step <= d.stream.value.length
    requires forward == SeekLeftForward || forward == SeekRightForward
    requires back == SeekLeftBack || back == SeekRightBack
    ensures var f := SeekRequest(forward, step);
            var b := SeekRequest(back, step);
            AfterSeek(AfterSeek(d, f.amount, f.absolute), b.amount, b.absolute) == d
  {
  }

  /** DeckStop leaves a deck paused at position 0. */
  lemma StopParksAtStart(d: DeckState)
    ensures AfterSeek(AfterPause(d), 0, true).paused
    ensures PositionOf(AfterSeek(AfterPause(d), 0, true)) == 0
  {
  }

  /** The console: two decks, the master volume, the crossfader and the
      microphone stream's volume and pan (the fields of the main frame in
      pyjay/ui.py that the commands change). */
  class Console {
    const left: Deck
    const right: Deck
    var masterVolume: real
    /** The volume last given to the output device; None until the master
        volume first changes. */
    var outputVolume: Option<real>
    var crossfader: int
    var micVolume: real
    var micPan: real

    predicate Valid()
      reads this, left, right
    {
      && left != right
      && left.Valid()
      && right.Valid()
      && 0.0 <= masterVolume <= 100.0
      && -100 <= crossfader <= 100
      && (micVolume == 0.0 || micVolume == 1.0)
      && -1.0 <= micPan <= 1.0
    }

    constructor ()
      ensures Valid()
      ensures fresh(left) && fresh(right)
      ensures left.State() == Initial && right.State() == Initial
      ensures masterVolume == 100.0 && outputVolume == None && crossfader == 0
      ensures micVolume == 0.0 && micPan == 0.0
    {
      left := new Deck("Left Deck");
      right := new Deck("Right Deck");
      masterVolume := 100.0;
      outputVolume := None;
      crossfader := 0;
      micVolume := 0.0;
      micPan := 0.0;
    }

    /** Keys '=', '-', 'SHIFT+=' and 'SHIFT+-'. */
    method MasterVolume(key: string, cfg: AudioConfig)
      requires Valid() && ValidConfig(cfg) && key in MasterVolumeKeys
      modifies this
      ensures Valid()
      ensures masterVolume == MasterVolumeAfter(old(masterVolume), key, cfg.changeMasterVolume)
      ensures outputVolume == if masterVolume != old(masterVolume) then Some(masterVolume) else old(outputVolume)
      ensures crossfader == old(crossfader) && micVolume == old(micVolume) && micPan == old(micPan)
    {
      var volume: real;
      if key == MasterUp {
        volume := Min(100.0, masterVolume + cfg.changeMasterVolume);
      } else if key == MasterDown {
        volume := Max(0.0, masterVolume - cfg.changeMasterVolume);
      } else if key == MasterFull {
        volume := 100.0;
      } else {
        volume := 0.0;
      }
      if volume != masterVolume {
        masterVolume := volume;
        outputVolume := Some(masterVolume);
      }
    }

    /** Keys 'D' (left deck), 'K' (right deck) and 'SPACE' (both). */
    method PlayPause(key: string)
      requires Valid()
      modifies left, right
      ensures Valid()
      ensures left.State() == if key != PlayRight then AfterPlayPause(old(left.State())) else old(left.State())
      ensures right.State() == if key != PlayLeft then AfterPlayPause(old(right.State())) else old(right.State())
    {
      var decks := if key == PlayLeft then [left] else if key == PlayRight then [right] else [left, right];
      for i := 0 to |decks|
        modifies left, right
        invariant left != right
        invariant forall j :: 0 <= j < i ==> decks[j].State() == AfterPlayPause(old(decks[j].State()))
        invariant forall j :: i <= j < |decks| ==> decks[j].State() == old(decks[j].State())
        invariant left !in decks ==> left.State() == old(left.State())
        invariant right !in decks ==> right.State() == old(right.State())
      {
        decks[i].PlayPause();
      }
      assert key != PlayLeft ==> right == decks[|decks| - 1];
      assert key != PlayRight ==> left == decks[0];
    }

    /** Keys 'S', 'F', 'SHIFT+S', 'SHIFT+F' (left deck) and 'J', 'L',
        'SHIFT+J', 'SHIFT+L' (right deck). */
    method SetPan(key: string, cfg: AudioConfig)
      requires Valid() && ValidConfig(cfg)
      modifies left, right
      ensures Valid()
      ensures left.State() ==
                if PanSide(key) == LeftDeck
                then AfterSetPan(old(left.State()), PanRequest(old(left.pan), key, cfg.changePan))
                else old(left.State())
      ensures right.State() ==
                if PanSide(key) == RightDeck
                then AfterSetPan(old(right.State()), PanRequest(old(right.pan), key, cfg.changePan))
                else old(right.State())
    {
      var deck := if key in PanLeftDeckKeys then left else right;
      var amount := cfg.changePan;
      if key == PanLeftLeft || key == PanRightLeft {
        amount := -amount;
      }
      if key == PanLeftFullLeft || key == PanRightFullLeft {
        amount := -1.0;
      } else if key == PanLeftFullRight || key == PanRightFullRight {
        amount := 1.0;
      } else {
        amount := deck.pan + amount;
      }
      deck.SetPan(amount);
    }

    /** Keys 'Q' (left deck) and 'P' (right deck). */
    method DeckReset(key: string)
      requires Valid()
      modifies left, right
      ensures Valid()
      ensures left.State() == if SideOf(key, ResetLeft) == LeftDeck then AfterReset(old(left.State())) else old(left.State())
      ensures right.State() == if SideOf(key, ResetLeft) == RightDeck then AfterReset(old(right.State())) else old(right.State())
    {
      var deck := if key == ResetLeft then left else right;
      deck.Reset();
    }

    /** Keys 'E', 'X' (left deck) and 'I', ',' (right deck). */
    method SetVolume(key: string, cfg: AudioConfig)
      requires Valid() && ValidConfig(cfg)
      modifies left, right
      ensures Valid()
      ensures left.State() ==
                if VolumeSide(key) == LeftDeck
                then AfterSetVolume(old(left.State()), VolumeRequest(old(left.volume), key, cfg.changeVolume))
                else old(left.State())
      ensures right.State() ==
                if VolumeSide(key) == RightDeck
                then AfterSetVolume(old(right.State()), VolumeRequest(old(right.volume), key, cfg.changeVolume))
                else old(right.State())
    {
      var deck := if key == VolumeLeftUp || key == VolumeLeftDown then left else right;
      var amount := cfg.changeVolume;
      if key == VolumeLeftDown || key == VolumeRightDown {
        amount := -amount;
      }
      amount := amount + deck.volume;
      deck.SetVolume(amount);
    }

    /** Keys 'SHIFT+E' (left deck) and 'SHIFT+I' (right deck). */
    method FullVolume(key: string)
      requires Valid()
      modifies left, right
      ensures Valid()
      ensures left.State() == if SideOf(key, FullLeft) == LeftDeck then AfterSetVolume(old(left.State()), 1.0) else old(left.State())
      ensures right.State() == if SideOf(key, FullLeft) == RightDeck then AfterSetVolume(old(right.State()), 1.0) else old(right.State())
    {
      var deck := if key == FullLeft then left else right;
      deck.SetVolume(1.0);
    }

    /** Keys 'SHIFT+X' (left deck) and 'SHIFT+,' (right deck). */
    method MuteVolume(key: string)
      requires Valid()
      modifies left, right
      ensures Valid()
      ensures left.State() == if SideOf(key, MuteLeft) == LeftDeck then AfterSetVolume(old(left.State()), 0.0) else old(left.State())
      ensures right.State() == if SideOf(key, MuteLeft) == RightDeck then AfterSetVolume(old(right.State()), 0.0) else old(right.State())
    {
      var deck := if key == MuteLeft then left else right;
      deck.SetVolume(0.0);
    }

    /** Keys 'C', 'Z' (left deck) and '.', 'M' (right deck). */
    method SetFrequency(key: string, cfg: AudioConfig)
      requires Valid() && ValidConfig(cfg)
      modifies left, right
      ensures Valid()
      ensures left.State() ==
                if FrequencySide(key) == LeftDeck
                then AfterSetFrequency(old(left.State()), FrequencyRequest(old(left.frequency), key, cfg.changeFrequency))
                else old(left.State())
      ensures right.State() ==
                if FrequencySide(key) == RightDeck
                then AfterSetFrequency(old(right.State()), FrequencyRequest(old(right.frequency), key, cfg.changeFrequency))
                else old(right.State())
    {
      var deck := if key == FrequencyLeftUp || key == FrequencyLeftDown then left else right;
      var amount := cfg.changeFrequency;
      if key == FrequencyLeftDown || key == FrequencyRightDown {
        amount := -amount;
      }
      amount := amount + deck.frequency;
      deck.SetFrequency(amount);
    }

    /** Keys 'W', 'SHIFT+W', 'R' (left deck) and 'U', 'SHIFT+U', 'O' (right
        deck). */
    method DeckSeek(key: string, cfg: AudioConfig)
      requires Valid() && ValidConfig(cfg)
      modifies left, right
      ensures Valid()
      ensures left.State() ==
                if SeekSide(key) == LeftDeck
                then AfterSeek(old(left.State()), SeekRequest(key, cfg.seekAmount).amount, SeekRequest(key, cfg.seekAmount).absolute)
                else old(left.State())
      ensures right.State() ==
                if SeekSide(key) == RightDeck
                then AfterSeek(old(right.State()), SeekRequest(key, cfg.seekAmount).amount, SeekRequest(key, cfg.seekAmount).absolute)
                else old(right.State())
    {
      var deck := if key == SeekLeftBack || key == SeekLeftStart || key == SeekLeftForward then left else right;
      var absolute := false;
      var amount: int;
      if key == SeekLeftStart || key == SeekRightStart {
        amount := 0;
        absolute := true;
      } else if key == SeekLeftBack || key == SeekRightBack {
        amount := -cfg.seekAmount;
      } else {
        amount := cfg.seekAmount;
      }
      deck.Seek(amount, absolute);
    }

    /** Keys 'G', 'H' (nudge), 'SHIFT+G', 'SHIFT+H' (cut) and 'Y' (centre).
        The gain law is written into the decks' own volumes. */
    method CrossFade(key: string, cfg: AudioConfig)
      requires Valid() && ValidConfig(cfg)
      modifies this, left, right
      ensures Valid()
      ensures crossfader == CrossfadeAfter(old(crossfader), key, cfg.crossfadeAmount)
      ensures left.State() == AfterSetVolume(old(left.State()), CrossfadeGains(crossfader).left)
      ensures right.State() == AfterSetVolume(old(right.State()), CrossfadeGains(crossfader).right)
      ensures left.volume == CrossfadeGains(crossfader).left && right.volume == CrossfadeGains(crossfader).right
      ensures masterVolume == old(masterVolume) && outputVolume == old(outputVolume)
      ensures micVolume == old(micVolume) && micPan == old(micPan)
    {
      var amount := cfg.crossfadeAmount;
      var result := crossfader;
      if key == CrossLeft {
        result := IntMax(-100, result - amount);
      } else if key == CrossRight {
        result := IntMin(100, result + amount);
      } else if key == CrossCutLeft {
        result := -100;
      } else if key == CrossCutRight {
        result := 100;
      } else {
        result := 0;
      }
      crossfader := result;
      if result < 0 {
        left.SetVolume(1.0);
        result := 100 + result;
        right.SetVolume(result as real * Ratio);
      } else if result > 0 {
        right.SetVolume(1.0);
        result := 100 - result;
        left.SetVolume(result as real * Ratio);
      } else {
        var decks := [left, right];
        for i := 0 to |decks|
          modifies left, right
          invariant left != right
          invariant forall j :: 0 <= j < i ==> decks[j].State() == AfterSetVolume(old(decks[j].State()), 1.0)
          invariant forall j :: i <= j < |decks| ==> decks[j].State() == old(decks[j].State())
        {
          decks[i].SetVolume(1.0);
        }
        assert left == decks[0] && right == decks[1];
      }
    }

    /** Keys 'SHIFT+D' (left deck) and 'SHIFT+K' (right deck): pause, then
        seek to the start. */
    method DeckStop(key: string)
      requires Valid()
      modifies left, right
      ensures Valid()
      ensures left.State() == if SideOf(key, StopLeft) == LeftDeck then AfterSeek(AfterPause(old(left.State())), 0, true) else old(left.State())
      ensures right.State() == if SideOf(key, StopLeft) == RightDeck then AfterSeek(AfterPause(old(right.State())), 0, true) else old(right.State())
    {
      var deck := if key == StopLeft then left else right;
      deck.Pause();
      deck.Seek(0, true);
    }

    /** Key '/'. */
    method Microphone()
      requires Valid()
      modifies this
      ensures Valid()
      ensures micVolume == MicToggle(old(micVolume))
      ensures micPan == old(micPan) && masterVolume == old(masterVolume)
      ensures outputVolume == old(outputVolume) && crossfader == old(crossfader)
    {
      if micVolume != 0.0 {
        micVolume := 0.0;
      } else {
        micVolume := 1.0;
      }
    }

    /** Keys '[', 'SHIFT+[', ']' and 'SHIFT+]'. */
    method MicrophonePan(key: string, cfg: AudioConfig)
      requires Valid() && ValidConfig(cfg)
      modifies this
      ensures Valid()
      ensures micPan == MicPanAfter(old(micPan), key, cfg.changePan)
      ensures micVolume == old(micVolume) && masterVolume == old(masterVolume)
      ensures outputVolume == old(outputVolume) && crossfader == old(crossfader)
    {
      var amount := cfg.changePan;
      if key == MicLeft {
        amount := -amount;
      }
      amount := micPan + amount;
      if key == MicFullLeft {
        amount := -1.0;
      } else if key == MicFullRight {
        amount := 1.0;
      }
      if amount < -1.0 {
        amount := -1.0;
      } else if amount > 1.0 {
        amount := 1.0;
      }
      micPan := amount;
    }

    /** Key 'RETURN': centre the microphone, leaving its volume alone. */
    method ResetMicrophone()
      requires Valid()
      modifies this
      ensures Valid()
      ensures micPan == 0.0
      ensures micVolume == old(micVolume) && masterVolume == old(masterVolume)
      ensures outputVolume == old(outputVolume) && crossfader == old(crossfader)
    {
      micPan := 0.0;
    }

    /** Keys 'SHIFT+Q' (left deck) and 'SHIFT+P' (right deck). */
    method ResetFrequency(key: string)
      requires Valid()
      modifies left, right
      ensures Valid()
      ensures left.State() == if SideOf(key, ResetFrequencyLeft) == LeftDeck then AfterSetFrequency(old(left.State()), 44100.0) else old(left.State())
      ensures right.State() == if SideOf(key, ResetFrequencyLeft) == RightDeck then AfterSetFrequency(old(right.State()), 44100.0) else old(right.State())
    {
      var deck := if key == ResetFrequencyLeft then left else right;
      deck.SetFrequency(44100.0);
    }

    /** Keys 'SHIFT+T' (left deck) and 'SHIFT+Y' (right deck). */
    method ResetPan(key: string)
      requires Valid()
      modifies left, right
      ensures Valid()
      ensures left.State() == if SideOf(key, ResetPanLeft) == LeftDeck then AfterSetPan(old(left.State()), 0.0) else old(left.State())
      ensures right.State() == if SideOf(key, ResetPanLeft) == RightDeck then AfterSetPan(old(right.State()), 0.0) else old(right.State())
    {
      var deck := if key == ResetPanLeft then left else right;
      deck.SetPan(0.0);
    }
  }
}
