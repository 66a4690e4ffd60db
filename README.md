# pyjay deck and mixer engine in Dafny

pyjay is a two-deck DJ console. This project models its control engine:

- The per-deck state machine (`Deck` in pyjay/deck.py). It covers load, play, pause, reset and seek, and the normalisation of volume, pan and frequency.
- The per-key effect of the hotkey commands in pyjay/commands.py. They act on the two decks, the master volume, the crossfader and the microphone stream.
- The track lookup of the request server (server/app.py): `get_id` and the field mapping of `Track.populate`.

Modules, one per source component:

- `Optional`: the `Option` type used for Python's `None`.
- `Normalize`: the normalisers behind the deck's `set_volume`, `set_pan` and `set_frequency`.
- `Streams`: the audio stream, as an abstract record. It holds a position, a length, a volume, a pan, a frequency and a playing flag.
- `Decks`: `DeckState`, the value of all of a deck's fields. Each deck operation has a pure transition function (`AfterSetVolume`, `AfterSeek`, ...). The imperative `Deck` class has one method per source method, and each method's `ensures` ties its new `State()` to that function. `ValidState` is the invariant every operation keeps: parameters in range, a loaded stream that carries the deck's parameters, and a stream that plays exactly when the deck is not paused. `RunPreservesValid` proves it holds across any sequence of operations.
- `Commands`: `AudioConfig` holds the step sizes, with the ranges pyjay/config.py:13-59 allows. Each command's key arithmetic is a pure function. The `Console` class has one method per command's `run`. The crossfade gain law is the function `CrossfadeGains`.
- `Ids`: JSON-like values, Python's `dict.get`, and `get_id`. `get_id` is defined identically in server/app.py:12-25 and pyjay/commands.py:39-41, so it is modelled once.
- `App`: the `Track` record and `Populate`.

Volumes, pans and frequencies are reals. Stream positions and lengths are integers (the library's byte offsets). Keys are the source's key strings.

The audio library is a parameter:

- Opening a file or URL is the `opening` argument of `SetStream`. It is the length of the opened stream, or `None` when the open fails.
- The output device's volume is the `Console` field `outputVolume`.
- The microphone stream's volume and pan are the `Console` fields `micVolume` and `micPan`.

Behaviour of the code worth knowing:

- CrossFade writes the gain law straight into the decks' stored volumes (pyjay/commands.py:378-388). It does not apply a separate sink gain. So a crossfade overwrites whatever volume trim a deck had.
- `seek` moves a request to `length - 1` only when the request is strictly greater than the length (pyjay/deck.py:131-132). A request equal to the length is kept. On a stream of length 0, any positive request becomes -1.
- `set_stream` assigns the url flag before opening the stream (pyjay/deck.py:55). A failed open therefore still changes `url`. The failure reaches the caller as an exception, modelled as `ok == false`.
- The frequency normaliser is not a clamp. A value above 200000 becomes 100000, and a value below 100 becomes 10. The stored frequency is therefore 10 or lies in [100, 200000].
- The hotkey table keeps the last command registered for a key (pyjay/ui.py:50-51). It does not refuse a duplicate.
- `populate` uses `dict.get` with defaults (server/app.py:71-72). A title or artist that is present is kept even when it is null or empty.

## Model

| member | source | states |
|---|---|---|
| Normalize.Clamp | pyjay/deck.py:72-92 | the volume/pan normaliser returns a value in [lo, hi], leaves in-range values alone, and equals max(lo, min(hi, v)) |
| Normalize.ClampIdempotent | pyjay/deck.py:74-77 | normalising an already normalised volume or pan changes nothing |
| Normalize.NormalizeFrequency | pyjay/deck.py:94-99 | above 200000 gives 100000, below 100 gives 10, [100, 200000] is stored unchanged; every result is 10 or in [100, 200000] |
| Normalize.NormalizeFrequencyIdempotent | pyjay/deck.py:96-99 | the frequency normaliser fixes its own results |
| Normalize.NormalizeFrequencyNotMonotone | pyjay/deck.py:96-99 | the frequency normaliser is not a clamp: a larger request can store a smaller frequency |
| Decks.AfterSetVolume | pyjay/deck.py:72-81 | set_volume stores clamp(v, 0, 1), pushes that value to a loaded stream, changes nothing else and keeps the deck invariant |
| Decks.AfterSetPan | pyjay/deck.py:83-92 | set_pan stores clamp(v, -1, 1), mirrors it to a loaded stream, changes nothing else and keeps the invariant |
| Decks.AfterSetFrequency | pyjay/deck.py:94-103 | set_frequency stores the normalised frequency, mirrors it to a loaded stream, changes nothing else and keeps the invariant |
| Decks.AfterReset | pyjay/deck.py:23-27 | reset gives volume 1.0, pan 0.0 and frequency 44100.0 and leaves paused, filename, url and the deck's phase untouched |
| Decks.AfterPlay | pyjay/deck.py:29-36 | play clears paused and starts a loaded stream; with no stream only the flag changes |
| Decks.AfterPause | pyjay/deck.py:38-43 | pause sets paused and stops a loaded stream; nothing else changes |
| Decks.AfterPlayPause | pyjay/deck.py:45-50 | play_pause flips paused; an empty deck stays empty and a loaded deck goes between paused and playing |
| Decks.AfterSetStream | pyjay/deck.py:52-70 | set_stream always records the url flag; on a successful open it records the filename, installs a stream at position 0 carrying the deck's volume, pan and frequency, keeps paused, and plays exactly when the deck was not paused; on a failed open only the url flag changes |
| Decks.PositionOf | pyjay/deck.py:117-122 | get_position is 0 with no stream and the stream's position otherwise; SeekStaysInStream bounds it after a seek |
| Decks.SeekStaysInStream | pyjay/deck.py:117-133 | after any seek on a stream of length at least 1, get_position lies in [0, length] |
| Decks.SeekTarget | pyjay/deck.py:124-133 | a negative request becomes 0, a request strictly beyond the length becomes length-1, anything in [0, length] is kept, so for length >= 1 the target is in [0, length] |
| Decks.AfterSeek | pyjay/deck.py:124-133 | seek changes only the stream's position, to the seek target of the absolute or relative request; with no stream nothing changes |
| Decks.SeekThenPosition | pyjay/deck.py:117-133 | an absolute seek within [0, length] is what get_position reports afterwards |
| Decks.SeekRelativeMoves | pyjay/deck.py:127-128 | a relative seek that stays inside the stream moves the position by exactly the amount |
| Decks.PlayPauseTwice | pyjay/deck.py:45-50 | toggling play/pause twice restores the deck |
| Decks.SettersLastWriteWins | pyjay/deck.py:72-103 | two successive volume, pan or frequency settings leave the deck as the second one alone would |
| Decks.RunPreservesValid | pyjay/deck.py:23-133 | any sequence of deck operations keeps the parameters in range, the stream in step with them, and the stream playing exactly when the deck is not paused |
| Decks.ReachableDecksValid | pyjay/deck.py:10-27 | every deck reachable from a freshly built one satisfies the invariant |
| Decks.RunKeepsStream | pyjay/deck.py:52-70 | no deck operation unloads a stream |
| Decks.Deck.constructor | pyjay/deck.py:10-21 | a new deck has no file, no stream, url false, paused, and the reset defaults |
| Decks.Deck.Reset | pyjay/deck.py:23-27 | the deck's new state is AfterReset of the old one |
| Decks.Deck.Play | pyjay/deck.py:29-36 | the deck's new state is AfterPlay of the old one |
| Decks.Deck.Pause | pyjay/deck.py:38-43 | the deck's new state is AfterPause of the old one |
| Decks.Deck.PlayPause | pyjay/deck.py:45-50 | the deck's new state is AfterPlayPause of the old one |
| Decks.Deck.SetStream | pyjay/deck.py:52-70 | the deck's new state is AfterSetStream of the old one, and ok says whether the open succeeded |
| Decks.Deck.SetVolume | pyjay/deck.py:72-81 | the deck's new state is AfterSetVolume of the old one |
| Decks.Deck.SetPan | pyjay/deck.py:83-92 | the deck's new state is AfterSetPan of the old one |
| Decks.Deck.SetFrequency | pyjay/deck.py:94-103 | the deck's new state is AfterSetFrequency of the old one |
| Decks.Deck.Position | pyjay/deck.py:117-122 | the class's get_position reports PositionOf of the deck's current state |
| Decks.Deck.Seek | pyjay/deck.py:124-133 | the deck's new state is AfterSeek of the old one |
| Commands.DefaultConfigValid | pyjay/config.py:13-59 | the configuration's default steps (5.0, 0.1, 0.05, 100.0, 50000, 1) pass their own validators |
| Commands.MasterVolumeAfter | pyjay/commands.py:88-103 | '=' gives min(100, mv + step), '-' gives max(0, mv - step), full gives 100, mute gives 0, and the result stays in [0, 100] |
| Commands.MasterVolumeStaysInRange | pyjay/commands.py:88-112 | any sequence of master volume keys keeps the master volume in [0, 100] |
| Commands.PanRequest | pyjay/commands.py:185-202 | full-left keys ask for exactly -1, full-right keys for exactly 1, left nudges for pan - step, right nudges for pan + step; PanRightThenLeft and PanFullIgnoresPan are its partners |
| Commands.PanRightThenLeft | pyjay/commands.py:185-202 | on a valid deck, a right pan nudge then a left one gives back the deck while the pan stays inside [-1, 1] |
| Commands.PanFullIgnoresPan | pyjay/commands.py:185-202 | a full pan key asks for the same pan whatever the deck's pan was, and that pan lies in [-1, 1] |
| Commands.VolumeRequest | pyjay/commands.py:238-247 | down keys ask for volume - step, the other keys for volume + step; VolumeUpThenDown is its inverse |
| Commands.VolumeUpThenDown | pyjay/commands.py:238-247 | on a valid deck, a volume nudge up then down gives back the deck while the raised volume stays at most 1 |
| Commands.FrequencyRequest | pyjay/commands.py:300-308 | down keys ask for frequency - step, the other keys for frequency + step; FrequencyUpThenDown is its inverse |
| Commands.FrequencyUpThenDown | pyjay/commands.py:300-308 | on a valid deck at 100 or more, a frequency nudge up then down gives back the deck while the raised frequency stays at most 200000 |
| Commands.SeekRequest | pyjay/commands.py:328-341 | a start key is an absolute seek to 0, a back key a relative seek by -seek_amount, a forward key a relative seek by +seek_amount; SeekForwardThenBack is its inverse |
| Commands.SeekForwardThenBack | pyjay/commands.py:328-341 | a forward seek then a back seek gives back the deck when the forward seek does not pass the end of the stream |
| Commands.CrossfadeAfter | pyjay/commands.py:359-372 | left gives max(-100, c - amount), right gives min(100, c + amount), the cuts give -100 and 100, centre gives 0, and the result stays in [-100, 100] |
| Commands.CrossfaderStaysInRange | pyjay/commands.py:359-376 | any sequence of crossfade keys keeps the crossfader in [-100, 100] |
| Commands.CrossfadeGains | pyjay/commands.py:373-388 | c < 0 gives left 1.0 and right (100 + c)/100, c > 0 gives right 1.0 and left (100 - c)/100, c = 0 gives both 1.0; both gains lie in [0, 1] |
| Commands.CrossfadeGainsMonotone | pyjay/commands.py:378-388 | moving the crossfader right never raises the left gain and never lowers the right gain |
| Commands.CrossfadeGainsEnds | pyjay/commands.py:378-388 | the end stops cut the far deck to 0, the centre gives both 1.0, and one deck is always at 1.0 |
| Commands.CrossfadeScenario | pyjay/commands.py:359-388 | from the centre, a right nudge of 40 gives left 0.6 and right 1.0; a cut to the left then gives left 1.0 and right 0.0 |
| Commands.MicToggle | pyjay/commands.py:598-606 | the new microphone volume is always 0.0 or 1.0; on those two values the toggle is 1 - v, and any nonzero volume is muted |
| Commands.MicToggleTwice | pyjay/commands.py:598-606 | toggling twice restores a volume of 0 or 1 |
| Commands.MicPanAfter | pyjay/commands.py:619-631 | the microphone pan stays in [-1, 1] and the full keys give exactly -1 and 1 |
| Commands.MicPanMatchesDeckPan | pyjay/commands.py:619-631 | each microphone pan key has the same effect as the corresponding deck pan key passed through the deck's pan normaliser |
| Commands.VolumeNudgeDirection | pyjay/commands.py:238-248 | a volume up key never lowers the volume and a down key never raises it |
| Commands.FrequencyNudgeFallsBack | pyjay/commands.py:300-309 | a frequency step up from just below 200000 lands on 100000, and a step down from just above 100 lands on 10 |
| Commands.Console.constructor | pyjay/ui.py:57-77 | two fresh decks, master volume 100, crossfader 0, microphone muted and centred, output volume not yet set |
| Commands.Console.MasterVolume | pyjay/commands.py:88-112 | the master volume becomes MasterVolumeAfter; the output is set only when the value actually changes; nothing else changes |
| Commands.Console.PlayPause | pyjay/commands.py:149-160 | 'D' toggles only the left deck, 'K' only the right, any other key (SPACE) both |
| Commands.Console.SetPan | pyjay/commands.py:185-203 | the addressed deck gets set_pan(PanRequest(...)); the other deck is unchanged |
| Commands.Console.DeckReset | pyjay/commands.py:215-222 | 'Q' resets the left deck, any other key the right; the other deck is unchanged |
| Commands.Console.SetVolume | pyjay/commands.py:238-248 | the addressed deck gets set_volume(VolumeRequest(...)); the other deck is unchanged |
| Commands.Console.FullVolume | pyjay/commands.py:260-266 | the addressed deck gets set_volume(1.0) |
| Commands.Console.MuteVolume | pyjay/commands.py:278-284 | the addressed deck gets set_volume(0.0) |
| Commands.Console.SetFrequency | pyjay/commands.py:300-309 | the addressed deck gets set_frequency(FrequencyRequest(...)); the other deck is unchanged |
| Commands.Console.DeckSeek | pyjay/commands.py:328-342 | the addressed deck seeks as SeekRequest says; the other deck is unchanged |
| Commands.Console.CrossFade | pyjay/commands.py:359-388 | the crossfader becomes CrossfadeAfter and each deck's stored volume becomes its CrossfadeGains value; master volume and microphone are unchanged |
| Commands.Console.DeckStop | pyjay/commands.py:399-410 | the addressed deck is paused and then seeked to absolute position 0; StopParksAtStart shows it ends paused at position 0 |
| Commands.StopParksAtStart | pyjay/commands.py:399-410 | a deck that is paused and then seeked to absolute 0 is paused and reports position 0 |
| Commands.Console.Microphone | pyjay/commands.py:598-606 | the microphone volume becomes MicToggle of the old one; nothing else changes |
| Commands.Console.MicrophonePan | pyjay/commands.py:619-633 | the microphone pan becomes MicPanAfter of the old one; nothing else changes |
| Commands.Console.ResetMicrophone | pyjay/commands.py:643-646 | the microphone pan becomes 0.0 and its volume is unchanged |
| Commands.Console.ResetFrequency | pyjay/commands.py:709-714 | the addressed deck gets set_frequency(44100.0) |
| Commands.Console.ResetPan | pyjay/commands.py:726-731 | the addressed deck gets set_pan(0.0) |
| Ids.GetId | server/app.py:12-25 | get_id returns null or one of the dictionary's values; by GetIdIsFirstPresent it equals FirstPresent(d, IdKeys) |
| Ids.FirstPresentAt | server/app.py:12-25 | a priority lookup returns the value of the earliest key present |
| Ids.FirstPresentNone | server/app.py:12-25 | a priority lookup with none of its keys present returns null |
| Ids.GetIdIsFirstPresent | server/app.py:12-25 | get_id is the priority lookup over 'storeId', 'nid', 'trackId', 'id' |
| Ids.GetIdFirstKey | pyjay/commands.py:39-41 | get_id returns the value of the highest-priority key present, whatever that value is |
| Ids.GetIdNone | server/app.py:12-25 | get_id returns null when none of the four keys is present |
| App.ArtworkOf | server/app.py:74-76 | no artwork when 'albumArtRef' is missing or falsy; the first entry's 'url' when the list's first entry is a dictionary with one; otherwise the lookup raises |
| App.Track.constructor | server/app.py:57-67 | a new track has all four modelled columns null |
| App.Track.Populate | server/app.py:69-76 | title is data.get('title', 'Unknown Song'), artist is data.get('artist', 'Unknown Artist'), google_id is get_id(data), album_art is the first artwork url when there is one and unchanged otherwise, and the call fails exactly when the artwork lookup raises |
| App.PopulateExample | server/tests/api_test.py:7-22 | a dictionary with artist, title, storeId and one artwork url gives a track with exactly those artist, title, album_art and google_id |

## Left out

- The wx window, the dialogs and the reflection-based discovery of commands (pyjay/ui.py) are not modelled. The hotkey table (last registration wins) is not modelled either: each `Console` method is called with a key of its own command.
- The microphone capture path is not modelled: the `Recording` callback that pushes frames into the microphone stream (pyjay/ui.py:79-83) is a concurrent producer.
- Commands that only run dialogs, I/O or foreign services are not modelled: DeckLoad, LoadRequest (HTTP), GoogleSearch and RegisteredDevices (Google Play API), SetOutput (device release and re-creation), Config, Help (template rendering, file write, browser), OpenFile, SpeakPlayState and SpeakProgress (speech).
- Speech output, logging, the `error()` message boxes and the deck's `name`/`__str__` are left out. They do not affect state.
- sound_lib's decoding, devices and errors are abstract. Stream presence is the deck's `if self.stream:` test; the stream object's own truthiness is not modelled. A stream that stops by reaching its end is not modelled, so the model never has a deck that is not paused and a stream that is not playing. The `BassError` that DeckStop catches around `pause` cannot arise in this model.
- Streams.Opened: the library's initial volume, pan and frequency of a new stream are placeholders, because `set_stream` overwrites them before anything reads them.
- The output device's and the microphone stream's own behaviour is not modelled. The model records only the last values the console gave them.
- The database `save`/`delete` of `Track`, the interactive configuration prompts in server/app.py, and the Flask pages, forms and API are not modelled.
- Configuration persistence (pyjay/config.py) and application start-up (pyjay/application.py, main.py) are not modelled. The audio step sizes are an `AudioConfig` parameter, constrained by the validators' ranges.
- Floating-point rounding is not modelled: volumes, pans, frequencies and the crossfade's `result * 0.01` are exact reals.
