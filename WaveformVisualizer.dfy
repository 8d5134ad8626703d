/**
 * The `WaveformVisualizer` component's effects: it creates the transport when
 * none exists and publishes it to the editor, rewinds it on `finish`,
 * destroys it on teardown, and loads the current URL into it.
 */
module WaveformVisualizer {
  import opened Wrappers
  import opened Transport
  import opened UseAudioEditor

  class Visualizer {
    /** The hook whose `wavesurfer` / `setWavesurfer` props this component receives. */
    const editor: AudioEditor
    /** Whether the container element (`waveformRef.current`) is attached. */
    var mounted: bool
    /** The transport the creating effect made; its cleanup destroys it. */
    var cleanup: WaveSurfer?
    /** The transports the creating effect attached a `finish` callback to. */
    ghost var hooked: set<WaveSurfer>

    constructor (editor: AudioEditor, mounted: bool)
      ensures this.editor == editor && this.mounted == mounted
      ensures cleanup == null && hooked == {}
    {
      this.editor := editor;
      this.mounted := mounted;
      cleanup := null;
      hooked := {};
    }

    /**
     * The creating effect. React runs the previous cleanup before running it
     * again, hence the precondition. A transport already held by the editor
     * is never replaced.
     */
    method CreateEffect()
      requires cleanup == null
      modifies this, editor
      ensures mounted == old(mounted)
      ensures old(mounted && editor.wavesurfer == null) ==>
        && cleanup != null && fresh(cleanup)
        && cleanup.Snapshot() == Created && cleanup.calls == []
        && editor.wavesurfer == cleanup
        && editor.subscribed == old(editor.subscribed) + {cleanup}
        && editor.Valid()
        && editor.Fields() == old(editor.Fields())
        && hooked == old(hooked) + {cleanup}
      ensures !old(mounted && editor.wavesurfer == null) ==>
        cleanup == null && unchanged(editor) && hooked == old(hooked)
    {
      if mounted && editor.wavesurfer == null {
        var ws := new WaveSurfer.Create();
        hooked := hooked + {ws};
        editor.SetWavesurfer(ws);
        cleanup := ws;
      }
    }

    /** The `finish` callback: pause, then rewind; playback is not restarted. */
    method HandleFinish(ws: WaveSurfer)
      requires ws in hooked
      modifies ws
      ensures ws.Snapshot() == old(ws.Snapshot()).Paused().SeekedTo(0.0)
      ensures !ws.playing && ws.position == 0.0
      ensures ws.calls == old(ws.calls) + [Call.Pause, Call.SeekTo(0.0)]
    {
      ws.Pause();
      ws.SeekTo(0.0);
    }

    /** The cleanup the creating effect returned: destroy its transport, clear the editor's reference. */
    method Teardown()
      modifies this, editor, cleanup
      ensures cleanup == null && mounted == old(mounted) && hooked == old(hooked)
      ensures old(cleanup) != null ==>
        && old(cleanup).Snapshot() == old(cleanup.Snapshot()).Destroyed()
        && old(cleanup).calls == old(cleanup.calls) + [Call.Destroy]
        && editor.wavesurfer == null && editor.Valid()
        && editor.Fields() == old(editor.Fields())
        && editor.subscribed == old(editor.subscribed)
      ensures old(cleanup) == null ==> unchanged(editor)
    {
      if cleanup != null {
        cleanup.Destroy();
        editor.SetWavesurfer(null);
        cleanup := null;
      }
    }

    /** The loading effect: loads `audioUrl` exactly when a transport and a (truthy) URL are both present. */
    method LoadEffect(audioUrl: Url)
      modifies editor.wavesurfer
      ensures editor.wavesurfer == old(editor.wavesurfer)
      ensures editor.wavesurfer != null && audioUrl != "" ==>
        && editor.wavesurfer.Snapshot() == old(editor.wavesurfer.Snapshot()).Loaded(audioUrl)
        && editor.wavesurfer.calls == old(editor.wavesurfer.calls) + [Call.Load(audioUrl)]
      ensures editor.wavesurfer != null && audioUrl == "" ==> unchanged(editor.wavesurfer)
    {
      if editor.wavesurfer != null && audioUrl != "" {
        editor.wavesurfer.Load(audioUrl);
      }
    }
  }

  /**
   * An upload while a transport is live, followed by the loading effect that
   * the new URL triggers: the transport is loaded twice with the same URL
   * and ends as after a single load.
   */
  method UploadThenLoadEffect(v: Visualizer, url: Url)
    requires url != "" && v.editor.wavesurfer != null
    modifies v.editor, v.editor.wavesurfer
    ensures v.editor.wavesurfer == old(v.editor.wavesurfer)
    ensures v.editor.audioFile == Some(url)
    ensures v.editor.wavesurfer.Snapshot() == old(v.editor.wavesurfer.Snapshot()).Loaded(url)
    ensures v.editor.wavesurfer.loadedUrl == Some(url)
    ensures v.editor.wavesurfer.calls == old(v.editor.wavesurfer.calls) + [Call.Load(url), Call.Load(url)]
  {
    var ws := v.editor.wavesurfer;
    v.editor.HandleFileUpload(Some(url));
    v.LoadEffect(v.editor.audioFile.value);
    LoadTwice(old(ws.Snapshot()), url);
  }

  /**
   * A `finish` handled by the visualizer, followed by the `pause` and
   * `seeking` events its two calls produce: the session ends paused at 0.
   */
  method FinishSettles(v: Visualizer, ws: WaveSurfer)
    requires ws in v.hooked && ws in v.editor.subscribed
    modifies v.editor, ws
    ensures !ws.playing && ws.position == 0.0
    ensures ws.Snapshot() == old(ws.Snapshot()).Paused().SeekedTo(0.0)
    ensures ws.calls == old(ws.calls) + [Call.Pause, Call.SeekTo(0.0)]
    ensures !v.editor.isPlaying && v.editor.currentTime == 0.0
    ensures v.editor.Fields() == old(v.editor.Fields()).(isPlaying := false, currentTime := 0.0)
    ensures v.editor.wavesurfer == old(v.editor.wavesurfer) && v.editor.subscribed == old(v.editor.subscribed)
  {
    v.HandleFinish(ws);
    v.editor.OnPause(ws);
    v.editor.OnSeeking(ws);
  }
}
