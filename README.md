# Audio editor playback session — a Dafny model

This project models the playback-session core of a small React audio editor
built on `wavesurfer.js`:

- the `useAudioEditor` hook (`hooks/useAudioEditor.ts`): seven state fields
  (`audioFile`, `isPlaying`, `volume`, `playbackRate`, `wavesurfer`,
  `currentTime`, `duration`), the five transport-event callbacks it
  subscribes (`play`, `pause`, `ready`, `audioprocess`, `seeking`), the user
  intents (upload, volume, rate, reset), `formatTime` and `downloadAudio`;
- the `WaveformVisualizer` component's effects
  (`components/WaveformVisualizer.tsx`): create the transport when none
  exists and publish it, pause and rewind on `finish`, destroy on teardown,
  and load the current URL whenever both a transport and a URL are present.

Files:

- `Transport.dfy` — the transport (`WaveSurfer` class). The library is not
  part of this model; its methods carry the minimal behaviour the editor relies
  on (`pause` clears `playing`, `seekTo(f)` sets `position = f * duration`,
  `load(u)` makes `u` the loaded source and rewinds, `setVolume`/`setPlaybackRate`
  store their argument). Each method is proved against a function on `Deck`,
  the value snapshot of a transport, and appends itself to a ghost call log
  `calls`, so that which calls a handler made, and in what order, is part of
  every contract.
- `UseAudioEditor.dfy` — the hook as class `AudioEditor`; `ResetDeck`,
  `DownloadAudio` and the `Session` value.
- `TimeFormat.dfy` — `formatTime` as pure functions: the three floors
  (`ClockOf`), `Number#toString` (`DecimalString`), `padStart` (`PadStart`),
  the rendering (`Show`) and a parser (`ParseClock`) that splits at `:` and `.`.
- `WaveformVisualizer.dfy` — the component as class `Visualizer`, plus two
  compositions: an upload followed by the loading effect, and a `finish`
  followed by the events its calls produce.
- `Wrappers.dfy` — `Option`.

Modelling choices:

- Object URLs are opaque strings. `URL.createObjectURL` is outside the model;
  `HandleFileUpload` receives the URL it would return (or None when the
  picker yields no file).
- Transport events are separate method calls on the controller. Each takes the
  emitting transport and requires it to be one the subscribing effect attached
  callbacks to (ghost `subscribed`); the effect never detaches them. The
  property `Valid` says the currently attached transport is among them; the
  constructor, `SetWavesurfer`, `CreateEffect` and `Teardown` establish it.
- `setWavesurfer` and the subscribing effect it triggers are one step
  (`SetWavesurfer`).
- Time is an exact `real`. JavaScript's `%` truncates toward zero and is
  written out as `JsRemainder`, and related to the floored remainder
  `FlooredRemainder`.

Where the code does less than one might expect, the model follows the code:

- volume and rate are stored and forwarded unclamped (the slider ranges are
  HTML attributes, not code);
- `ready` sets `duration` only and leaves `currentTime` as it was;
- `finish` pauses and rewinds the transport; the session's `isPlaying` and
  `currentTime` follow only through the `pause` and `seeking` events
  (`FinishSettles`);
- `handleReset` rewinds the transport but does not itself set `currentTime`;
- `formatTime` always prints milliseconds;
- there is no stale-load guard, and a new upload with a live transport loads
  the same URL twice (`UploadThenLoadEffect`).

## Model

| member | source | states |
|---|---|---|
| UseAudioEditor.AudioEditor.constructor | hooks/useAudioEditor.ts:5-11 | initial state: no file, not playing, volume 1, rate 1, no transport, currentTime 0, duration 0 |
| UseAudioEditor.AudioEditor.SetWavesurfer | hooks/useAudioEditor.ts:13-29 | the transport reference becomes `ws`; a non-null `ws` gets the event callbacks, so the attached transport is always a subscribed one (`Valid`); no session field changes |
| UseAudioEditor.AudioEditor.OnPlay | hooks/useAudioEditor.ts:14-16 | `play` sets `isPlaying` to true and changes nothing else |
| UseAudioEditor.AudioEditor.OnPause | hooks/useAudioEditor.ts:17-19 | `pause` sets `isPlaying` to false and changes nothing else |
| UseAudioEditor.AudioEditor.OnReady | hooks/useAudioEditor.ts:20-22 | `ready` sets `duration` to the emitting transport's duration; `currentTime` and all else unchanged |
| UseAudioEditor.AudioEditor.OnAudioProcess | hooks/useAudioEditor.ts:23-25 | `audioprocess` sets `currentTime` to the transport's position and changes nothing else |
| UseAudioEditor.AudioEditor.OnSeeking | hooks/useAudioEditor.ts:26-28 | `seeking` sets `currentTime` to the transport's position and changes nothing else |
| UseAudioEditor.AudioEditor.HandleFileUpload | hooks/useAudioEditor.ts:31-41 | no file: nothing changes, transport untouched; a file: `audioFile` is its URL, `isPlaying` false, volume, rate, currentTime, duration untouched; exactly one `load(url)` on the transport iff one exists; a truthy URL is then what the download offers |
| UseAudioEditor.AudioEditor.HandleVolumeChange | hooks/useAudioEditor.ts:43-48 | stores the argument unclamped; forwards exactly one `setVolume(v)` iff a transport exists; nothing else changes |
| UseAudioEditor.AudioEditor.HandlePlaybackRateChange | hooks/useAudioEditor.ts:50-55 | stores the argument unclamped; forwards exactly one `setPlaybackRate(r)` iff a transport exists; nothing else changes |
| UseAudioEditor.AudioEditor.HandleReset | hooks/useAudioEditor.ts:57-69 | no transport: no-op; otherwise calls seekTo(0), setVolume(1), setPlaybackRate(1) and `pause` only if the session was playing; afterwards position 0, volume and rate 1 on both sides, `isPlaying` false; a reset of a settled session changes nothing (idempotence) |
| UseAudioEditor.ResetDeck | hooks/useAudioEditor.ts:57-69 | transport after reset: position 0, volume 1, rate 1, playing only if it was playing and the session was not; duration and loaded source kept |
| UseAudioEditor.AudioEditor.TogglePlayback | components/AudioEditor.tsx:49 | `wavesurfer?.playPause()`: a playing transport ends as `pause` leaves it, a paused one as `play` leaves it (so `playing` flips and nothing else on it changes), with exactly one `pause` or `play` call; no session field changes |
| UseAudioEditor.DownloadAudio | hooks/useAudioEditor.ts:78-87 | nothing without a truthy file; otherwise the uploaded URL itself under the name `edited-audio.mp3` |
| TimeFormat.JsRemainder | hooks/useAudioEditor.ts:73-74 | JavaScript's `%` for a positive divisor: the floored remainder x - m·floor(x/m) when x >= 0, and minus the floored remainder of -x when x < 0 (the result takes the dividend's sign) |
| TimeFormat.ClockOf | hooks/useAudioEditor.ts:72-74 | for t >= 0: minutes = floor(t/60), seconds in [0,59], milliseconds in [0,999], and 60000·m + 1000·s + ms = floor(1000·t) |
| TimeFormat.ClockArithmetic | hooks/useAudioEditor.ts:72-74 | the three floors, with JavaScript's truncating `%`, are non-negative, bounded, and add up to floor(1000·t) milliseconds |
| TimeFormat.DecimalString | hooks/useAudioEditor.ts:75 | `toString` of a non-negative integer: non-empty, digits only, a leading '0' exactly for 0 |
| TimeFormat.ParseDecimalString | hooks/useAudioEditor.ts:75 | reading a numeral back gives the number |
| TimeFormat.DecimalStringFits | hooks/useAudioEditor.ts:75 | a number below 10^k has at most k digits, so padding to 2 or 3 never truncates |
| TimeFormat.PadStart | hooks/useAudioEditor.ts:75 | `padStart`: length is max(len, width), the input is the suffix, the prefix is all filler |
| TimeFormat.ParseLeadingZeros | hooks/useAudioEditor.ts:75 | zero-filling a digit string keeps its value |
| TimeFormat.ParsePadded | hooks/useAudioEditor.ts:75 | a zero-padded numeral is a non-empty digit string with the number's value |
| TimeFormat.IndexOf | hooks/useAudioEditor.ts:75 | the first position of a separator, or None when absent |
| TimeFormat.SplitJoined | hooks/useAudioEditor.ts:75 | three digit strings joined with ':' and '.' split back into themselves |
| TimeFormat.Show | hooks/useAudioEditor.ts:75 | the template literal `${m}:${ss}.${mmm}`: every rendering of a clock splits at ':' and '.' back into that clock |
| TimeFormat.ShowShape | hooks/useAudioEditor.ts:75 | with bounded seconds and milliseconds the rendering is minutes, ':', exactly 2 digits, '.', exactly 3 digits |
| TimeFormat.FormatTime | hooks/useAudioEditor.ts:71-76 | for t >= 0 the output is the minutes numeral, ':', exactly 2 digits of seconds, '.', exactly 3 digits of milliseconds ("M:SS.mmm") |
| TimeFormat.FormatTimeRoundTrip | hooks/useAudioEditor.ts:71-76 | splitting the output at ':' and '.' recovers the clock of t: m = floor(t/60), s < 60, ms < 1000 and 60000·m + 1000·s + ms = floor(1000·t) |
| TimeFormat.FormatTimeOfZero | hooks/useAudioEditor.ts:71-76 | formatTime(0) = "0:00.000" |
| TimeFormat.FormatTimeOfSample | hooks/useAudioEditor.ts:71-76 | formatTime(75.25) = "1:15.250" |
| Transport.WaveSurfer.Create | components/WaveformVisualizer.tsx:22-32 | a new transport: not playing, position 0, volume 1, rate 1, nothing loaded, no calls |
| Transport.WaveSurfer.Load | hooks/useAudioEditor.ts:38 | `load(u)` makes `u` the loaded source, stops and rewinds; logs one call |
| Transport.WaveSurfer.Pause | components/WaveformVisualizer.tsx:35 | `pause` clears `playing` and changes nothing else; logs one call |
| Transport.WaveSurfer.SeekTo | components/WaveformVisualizer.tsx:36 | `seekTo(f)` takes a fraction: position becomes f·duration; logs one call |
| Transport.WaveSurfer.SetVolume | hooks/useAudioEditor.ts:46 | stores the volume as given; logs one call |
| Transport.WaveSurfer.SetPlaybackRate | hooks/useAudioEditor.ts:53 | stores the rate as given; logs one call |
| Transport.WaveSurfer.Destroy | components/WaveformVisualizer.tsx:43 | marks the transport destroyed and stopped; logs one call |
| Transport.WaveSurfer.PlayPause | components/AudioEditor.tsx:49 | `playPause` pauses a playing transport and plays a paused one |
| Transport.WaveSurfer.Play | components/AudioEditor.tsx:49 | `play` sets `playing`; logs one call |
| Transport.WaveSurfer.Decode | hooks/useAudioEditor.ts:20-22 | the library's decode completing sets the duration that `ready` then reads |
| Transport.LoadTwice | components/WaveformVisualizer.tsx:51-52 | loading the same URL twice leaves the same transport state, and the same `loadedUrl`, as one load |
| WaveformVisualizer.Visualizer.constructor | components/WaveformVisualizer.tsx:13-18 | a component bound to its editor, with no transport created yet |
| WaveformVisualizer.Visualizer.CreateEffect | components/WaveformVisualizer.tsx:20-40 | creates a transport only when the container exists and the editor holds none, publishes it (the editor's `wavesurfer` becomes the new transport, subscribed, so the editor stays `Valid`); an existing transport is never replaced, and then nothing changes |
| WaveformVisualizer.Visualizer.HandleFinish | components/WaveformVisualizer.tsx:34-37 | on `finish` the transport ends paused at position 0, by one `pause` then one `seekTo(0)`; playback is not restarted |
| WaveformVisualizer.Visualizer.Teardown | components/WaveformVisualizer.tsx:41-46 | destroys the transport this effect created and sets the editor's `wavesurfer` to null; session fields unchanged |
| WaveformVisualizer.Visualizer.LoadEffect | components/WaveformVisualizer.tsx:50-54 | exactly one `load(audioUrl)` when both a transport and a non-empty URL are present, none otherwise |
| WaveformVisualizer.UploadThenLoadEffect | hooks/useAudioEditor.ts:37-39 | an upload with a live transport plus the loading effect issues `load(url)` twice and leaves the transport exactly as one load would, with `loadedUrl` the new URL |
| WaveformVisualizer.FinishSettles | components/WaveformVisualizer.tsx:34-37 | `finish` followed by the `pause` and `seeking` events: the transport ends paused at position 0 by one `pause` and one `seekTo(0)`, the session is paused with `currentTime` 0, and no other session field, the attached transport or the subscriptions change |

## Left out

- Waveform sampling, drawing, and pixel-to-time mapping: the repository has no such code; `wavesurfer.js` does all of it, configured at `components/WaveformVisualizer.tsx:22-32`, and the timeline plugin with it.
- The library's internals: audio decoding, actual playback, when `audioprocess` fires, and which events its calls emit. The transport methods state minimal assumed behaviour instead.
- Transport.WaveSurfer.SeekTo: requires a fraction in [0, 1]; what the library does outside that range is unknown (the editor only passes 0).
- Asynchrony: loads and decodes complete later inside the library, and the code has no stale-result guard; the model takes each load as immediate and does not model in-flight loads being superseded.
- React machinery: state-update batching, effect scheduling and re-renders. A state setter and the effect it triggers are one step, and events are separate method calls.
- `URL.createObjectURL`, and the fact that the previous object URL is never revoked: URLs are opaque tokens passed in.
- The anchor element that `downloadAudio` creates, clicks and removes (`hooks/useAudioEditor.ts:80-85`): DOM plumbing. `DownloadAudio` returns what the link would offer.
- TimeFormat.FormatTimeRoundTrip: computed with exact real arithmetic; on doubles, `(time % 1) * 1000` can floor one millisecond low, and huge minute counts print in exponent form. Negative and NaN inputs are outside its contract.
- The markup and styling of `components/AudioEditor.tsx` and `app/page.tsx`; the slider ranges there are HTML attributes, not clamping.
