/**
 * The playback-session controller: the `useAudioEditor` hook's seven state
 * fields, the transport-event callbacks it subscribes, and its user intents.
 * Each intent changes a fixed set of fields and forwards the change to the
 * transport only when one is attached.
 */
module UseAudioEditor {
  import opened Wrappers
  import opened Transport

  /** The hook's state apart from the transport reference. */
  datatype Session = Session(
    audioFile: Option<Url>,
    isPlaying: bool,
    volume: real,
    playbackRate: real,
    currentTime: real,
    duration: real)

  /** The state of a freshly mounted hook (no file, paused, unit volume and rate, zero clock). */
  const Initial := Session(None, false, 1.0, 1.0, 0.0, 0.0)

  /** JavaScript truthiness of a `string | null`. */
  predicate Truthy(u: Option<Url>) { u.Some? && u.value != "" }

  // ---------------------------------------------------------------------
  // Reset

  /** The transport after `handleReset`: rewound, unit volume and rate, paused if the session was playing. */
  function ResetDeck(d: Deck, wasPlaying: bool): (r: Deck)
    ensures r.position == 0.0 && r.volume == 1.0 && r.rate == 1.0
    ensures r.playing == (d.playing && !wasPlaying)
    ensures r.duration == d.duration && r.loadedUrl == d.loadedUrl && r.destroyed == d.destroyed
  {
    var rewound := d.SeekedTo(0.0).WithVolume(1.0).WithRate(1.0);
    if wasPlaying then rewound.Paused() else rewound
  }

  /** The calls `handleReset` makes on an attached transport, in order. */
  function ResetCalls(wasPlaying: bool): seq<Call>
  {
    [Call.SeekTo(0.0), Call.SetVolume(1.0), Call.SetPlaybackRate(1.0)]
      + if wasPlaying then [Call.Pause] else []
  }

  /** A session and transport that a reset leaves as they are. */
  predicate ResetSettled(s: Session, d: Deck)
  {
    && !s.isPlaying && s.volume == 1.0 && s.playbackRate == 1.0
    && d.position == 0.0 && d.volume == 1.0 && d.rate == 1.0
  }

  // ---------------------------------------------------------------------
  // Download

  datatype Download = Download(href: Url, filename: string)

  const ExportName := "edited-audio.mp3"

  /**
   * `downloadAudio`: offers the uploaded object URL itself under a fixed name,
   * or nothing when no (truthy) file is held.
   */
  function DownloadAudio(audioFile: Option<Url>): (r: Option<Download>)
    ensures r.Some? <==> Truthy(audioFile)
    ensures r.Some? ==> r.value.href == audioFile.value && r.value.filename == ExportName
  {
    if Truthy(audioFile) then Some(Download(audioFile.value, ExportName)) else None
  }

  // ---------------------------------------------------------------------
  // The hook

  class AudioEditor {
    var audioFile: Option<Url>
    var isPlaying: bool
    var volume: real
    var playbackRate: real
    var wavesurfer: WaveSurfer?
    var currentTime: real
    var duration: real
    /** The transports whose events the subscribing effect has attached callbacks to; it never detaches any. */
    ghost var subscribed: set<WaveSurfer>

    /** The attached transport, if any, is one whose events reach this hook. */
    ghost predicate Valid()
      reads this
    {
      wavesurfer != null ==> wavesurfer in subscribed
    }

    function Fields(): Session
      reads this
    {
      Session(audioFile, isPlaying, volume, playbackRate, currentTime, duration)
    }

    constructor ()
      ensures Fields() == Initial
      ensures wavesurfer == null && subscribed == {}
      ensures Valid()
    {
      audioFile, isPlaying := None, false;
      volume, playbackRate := 1.0, 1.0;
      wavesurfer := null;
      currentTime, duration := 0.0, 0.0;
      subscribed := {};
    }

    /**
     * `setWavesurfer(ws)` together with the effect it triggers: a non-null
     * transport gets the five event callbacks attached.
     */
    method SetWavesurfer(ws: WaveSurfer?)
      modifies this
      ensures wavesurfer == ws && Fields() == old(Fields())
      ensures subscribed == old(subscribed) + if ws == null then {} else {ws}
      ensures Valid()
    {
      wavesurfer := ws;
      if ws != null {
        subscribed := subscribed + {ws};
      }
    }

    // Transport events. Each changes exactly one field.

    method OnPlay(ws: WaveSurfer)
      requires ws in subscribed
      modifies this
      ensures Fields() == old(Fields()).(isPlaying := true)
      ensures wavesurfer == old(wavesurfer) && subscribed == old(subscribed)
    {
      isPlaying := true;
    }

    method OnPause(ws: WaveSurfer)
      requires ws in subscribed
      modifies this
      ensures Fields() == old(Fields()).(isPlaying := false)
      ensures wavesurfer == old(wavesurfer) && subscribed == old(subscribed)
    {
      isPlaying := false;
    }

    /** `ready` takes the duration from the emitting transport; it leaves `currentTime` alone. */
    method OnReady(ws: WaveSurfer)
      requires ws in subscribed
      modifies this
      ensures Fields() == old(Fields()).(duration := ws.duration)
      ensures wavesurfer == old(wavesurfer) && subscribed == old(subscribed)
    {
      duration := ws.duration;
    }

    method OnAudioProcess(ws: WaveSurfer)
      requires ws in subscribed
      modifies this
      ensures Fields() == old(Fields()).(currentTime := ws.position)
      ensures wavesurfer == old(wavesurfer) && subscribed == old(subscribed)
    {
      currentTime := ws.position;
    }

    method OnSeeking(ws: WaveSurfer)
      requires ws in subscribed
      modifies this
      ensures Fields() == old(Fields()).(currentTime := ws.position)
      ensures wavesurfer == old(wavesurfer) && subscribed == old(subscribed)
    {
      currentTime := ws.position;
    }

    // User intents.

    /**
     * `handleFileUpload`: `selected` is the object URL made for the chosen
     * file, or None when the picker returned no file.
     */
    method HandleFileUpload(selected: Option<Url>)
      modifies this, wavesurfer
      ensures wavesurfer == old(wavesurfer) && subscribed == old(subscribed)
      ensures selected.None? ==> Fields() == old(Fields())
      ensures selected.None? && wavesurfer != null ==> unchanged(wavesurfer)
      ensures selected.Some? ==> Fields() == old(Fields()).(audioFile := selected, isPlaying := false)
      ensures selected.Some? && wavesurfer != null ==>
        && wavesurfer.Snapshot() == old(wavesurfer.Snapshot()).Loaded(selected.value)
        && wavesurfer.calls == old(wavesurfer.calls) + [Call.Load(selected.value)]
      ensures Truthy(selected) ==> DownloadAudio(audioFile) == Some(Download(selected.value, ExportName))
    {
      if selected.Some? {
        var url := selected.value;
        audioFile := Some(url);
        isPlaying := false;
        if wavesurfer != null {
          wavesurfer.Load(url);
        }
      }
    }

    /** `handleVolumeChange`: stored as given, no clamping. */
    method HandleVolumeChange(v: real)
      modifies this, wavesurfer
      ensures wavesurfer == old(wavesurfer) && subscribed == old(subscribed)
      ensures Fields() == old(Fields()).(volume := v)
      ensures wavesurfer != null ==>
        && wavesurfer.Snapshot() == old(wavesurfer.Snapshot()).WithVolume(v)
        && wavesurfer.calls == old(wavesurfer.calls) + [Call.SetVolume(v)]
    {
      volume := v;
      if wavesurfer != null {
        wavesurfer.SetVolume(v);
      }
    }

    /** `handlePlaybackRateChange`: stored as given, no clamping. */
    method HandlePlaybackRateChange(r: real)
      modifies this, wavesurfer
      ensures wavesurfer == old(wavesurfer) && subscribed == old(subscribed)
      ensures Fields() == old(Fields()).(playbackRate := r)
      ensures wavesurfer != null ==>
        && wavesurfer.Snapshot() == old(wavesurfer.Snapshot()).WithRate(r)
        && wavesurfer.calls == old(wavesurfer.calls) + [Call.SetPlaybackRate(r)]
    {
      playbackRate := r;
      if wavesurfer != null {
        wavesurfer.SetPlaybackRate(r);
      }
    }

    /**
     * `handleReset`: a no-op without a transport; otherwise rewinds, restores
     * unit volume and rate on both sides, and pauses only if the session
     * was playing. A reset of a settled session changes nothing.
     */
    method HandleReset()
      modifies this, wavesurfer
      ensures wavesurfer == old(wavesurfer) && subscribed == old(subscribed)
      ensures wavesurfer == null ==> Fields() == old(Fields())
      ensures wavesurfer != null ==>
        && Fields() == old(Fields()).(volume := 1.0, playbackRate := 1.0, isPlaying := false)
        && wavesurfer.Snapshot() == ResetDeck(old(wavesurfer.Snapshot()), old(isPlaying))
        && wavesurfer.calls == old(wavesurfer.calls) + ResetCalls(old(isPlaying))
        && ResetSettled(Fields(), wavesurfer.Snapshot())
      ensures wavesurfer != null && old(ResetSettled(Fields(), wavesurfer.Snapshot())) ==>
        Fields() == old(Fields()) && wavesurfer.Snapshot() == old(wavesurfer.Snapshot())
    {
      if wavesurfer != null {
        wavesurfer.SeekTo(0.0);
        wavesurfer.SetVolume(1.0);
        wavesurfer.SetPlaybackRate(1.0);
        volume := 1.0;
        playbackRate := 1.0;
        if isPlaying {
          wavesurfer.Pause();
          isPlaying := false;
        }
      }
    }

    /** The play/pause button: `wavesurfer?.playPause()`; the session follows through the events. */
    method TogglePlayback()
      modifies wavesurfer
      ensures wavesurfer != null ==> wavesurfer.playing == !old(wavesurfer.playing)
      ensures wavesurfer != null ==>
        wavesurfer.Snapshot() == if old(wavesurfer.playing) then old(wavesurfer.Snapshot()).Paused() else old(wavesurfer.Snapshot()).Played()
      ensures wavesurfer != null ==>
        wavesurfer.calls == old(wavesurfer.calls) + [if old(wavesurfer.playing) then Call.Pause else Call.Play]
    {
      if wavesurfer != null {
        wavesurfer.PlayPause();
      }
    }
  }
}
