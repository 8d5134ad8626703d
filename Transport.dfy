/**
 * The playback transport: the `WaveSurfer` instance that the editor drives.
 * The library itself is not part of this model, so each method below is the
 * minimal behaviour the editor relies on, written as a body the verifier can
 * check: `pause` clears `playing`, `seekTo(f)` moves to `f * duration`,
 * `load(u)` makes `u` the loaded source, and so on.
 */
module Transport {
  import opened Wrappers

  /** An object URL, treated as an opaque token. */
  type Url = string

  /** One call made on the transport, in the order it was made. */
  datatype Call =
    | Load(url: Url)
    | Play
    | Pause
    | SeekTo(progress: real)
    | SetVolume(volume: real)
    | SetPlaybackRate(rate: real)
    | Destroy

  /** The observable state of a transport at one moment. */
  datatype Deck = Deck(
    playing: bool,
    position: real,
    duration: real,
    volume: real,
    rate: real,
    loadedUrl: Option<Url>,
    destroyed: bool)
  {
    function Played(): Deck { this.(playing := true) }

    function Paused(): Deck { this.(playing := false) }

    /** `seekTo` takes a fraction of the duration, not seconds. */
    function SeekedTo(progress: real): Deck
      requires 0.0 <= progress <= 1.0
    {
      this.(position := progress * duration)
    }

    function WithVolume(v: real): Deck { this.(volume := v) }

    function WithRate(r: real): Deck { this.(rate := r) }

    /** A new source stops playback and rewinds; its duration is known only once decoded. */
    function Loaded(url: Url): Deck
    {
      this.(loadedUrl := Some(url), playing := false, position := 0.0)
    }

    function Decoded(d: real): Deck { this.(duration := d) }

    function Destroyed(): Deck { this.(destroyed := true, playing := false) }
  }

  /** The state of a transport just returned by `WaveSurfer.create`. */
  const Created := Deck(false, 0.0, 0.0, 1.0, 1.0, None, false)

  /** Loading the same URL twice leaves the transport as one load does. */
  lemma LoadTwice(d: Deck, url: Url)
    ensures d.Loaded(url).Loaded(url) == d.Loaded(url)
    ensures d.Loaded(url).loadedUrl == Some(url)
  {
  }

  class WaveSurfer {
    var playing: bool
    var position: real
    var duration: real
    var volume: real
    var rate: real
    var loadedUrl: Option<Url>
    var destroyed: bool
    /** Every call made on this transport so far. */
    ghost var calls: seq<Call>

    function Snapshot(): Deck
      reads this
    {
      Deck(playing, position, duration, volume, rate, loadedUrl, destroyed)
    }

    constructor Create()
      ensures Snapshot() == Created && calls == []
    {
      playing, position, duration := false, 0.0, 0.0;
      volume, rate := 1.0, 1.0;
      loadedUrl, destroyed := None, false;
      calls := [];
    }

    method Load(url: Url)
      modifies this
      ensures Snapshot() == old(Snapshot()).Loaded(url)
      ensures calls == old(calls) + [Call.Load(url)]
    {
      loadedUrl, playing, position := Some(url), false, 0.0;
      calls := calls + [Call.Load(url)];
    }

    /** The library finishing the decode of the loaded source (before it emits `ready`). */
    method Decode(d: real)
      requires d >= 0.0
      modifies this
      ensures Snapshot() == old(Snapshot()).Decoded(d)
      ensures calls == old(calls)
    {
      duration := d;
    }

    method Play()
      modifies this
      ensures Snapshot() == old(Snapshot()).Played()
      ensures calls == old(calls) + [Call.Play]
    {
      playing := true;
      calls := calls + [Call.Play];
    }

    method Pause()
      modifies this
      ensures Snapshot() == old(Snapshot()).Paused()
      ensures calls == old(calls) + [Call.Pause]
    {
      playing := false;
      calls := calls + [Call.Pause];
    }

    /** `playPause` pauses a playing transport and starts a paused one. */
    method PlayPause()
      modifies this
      ensures Snapshot() == if old(playing) then old(Snapshot()).Paused() else old(Snapshot()).Played()
      ensures playing == !old(playing)
      ensures calls == old(calls) + [if old(playing) then Call.Pause else Call.Play]
    {
      if playing {
        Pause();
      } else {
        Play();
      }
    }

    method SeekTo(progress: real)
      requires 0.0 <= progress <= 1.0
      modifies this
      ensures Snapshot() == old(Snapshot()).SeekedTo(progress)
      ensures calls == old(calls) + [Call.SeekTo(progress)]
    {
      position := progress * duration;
      calls := calls + [Call.SeekTo(progress)];
    }

    method SetVolume(v: real)
      modifies this
      ensures Snapshot() == old(Snapshot()).WithVolume(v)
      ensures calls == old(calls) + [Call.SetVolume(v)]
    {
      volume := v;
      calls := calls + [Call.SetVolume(v)];
    }

    method SetPlaybackRate(r: real)
      modifies this
      ensures Snapshot() == old(Snapshot()).WithRate(r)
      ensures calls == old(calls) + [Call.SetPlaybackRate(r)]
    {
      rate := r;
      calls := calls + [Call.SetPlaybackRate(r)];
    }

    method Destroy()
      modifies this
      ensures Snapshot() == old(Snapshot()).Destroyed()
      ensures calls == old(calls) + [Call.Destroy]
    {
      destroyed, playing := true, false;
      calls := calls + [Call.Destroy];
    }
  }
}
