/**
 * The push-to-talk state machine of `Dictation` (dictate.py) as functions
 * on a state value. Each function is one method of the class taken as an
 * atomic step; `Dictate.Dictation` is proved to follow them. External
 * actions (overlay, timers, the transcription thread, clipboard, paste)
 * are recorded in order in an effect log.
 */
module Machine {
  import opened Wrappers
  import opened Audio
  import opened Transcript
  import opened Hotkeys

  datatype Color = Red | Yellow | Green

  datatype Effect =
    | Show(text: string, color: Color)    // overlay.show(text, color)
    | Hide                                // overlay.hide()
    | HideLater                           // threading.Timer(delay, overlay.hide).start()
    | SpawnWorker(snapshot: seq<Chunk>)   // threading.Thread(target=transcribe, args=(snapshot,)).start()
    | CopyToClipboard(text: string)       // pyperclip.copy(text)
    | PasteKeystroke                      // pyautogui.hotkey('ctrl', 'v')

  /** What the speech model's `transcribe` produced: its segment texts, or an exception. */
  datatype Inference = Segments(texts: seq<string>) | Raised

  /** The fields of a `Dictation` the state machine reads and writes;
      `modelLoaded` is `self.model` being set. */
  datatype State = State(
    recording: bool,
    processing: bool,
    keyPressed: bool,
    modelLoaded: bool,
    audio: seq<Chunk>,
    effects: seq<Effect>)

  datatype Phase = Idle | Recording | Processing

  function PhaseOf(s: State): Phase {
    if s.recording then Recording else if s.processing then Processing else Idle
  }

  /** The state right after `Dictation.__init__`. */
  const Initial: State := State(false, false, false, false, [], [])

  /** Never recording and processing at once; the buffer holds nothing
      outside a recording; recording only with a model loaded. */
  predicate Invariant(s: State) {
    && !(s.recording && s.processing)
    && (!s.recording ==> s.audio == [])
    && (s.recording ==> s.modelLoaded)
  }

  /** The snapshots handed to transcription threads, in order. */
  function Workers(effects: seq<Effect>): seq<seq<Chunk>> {
    if effects == [] then []
    else (if effects[0].SpawnWorker? then [effects[0].snapshot] else []) + Workers(effects[1..])
  }

  lemma {:induction false} WorkersAppend(a: seq<Effect>, b: seq<Effect>)
    ensures Workers(a + b) == Workers(a) + Workers(b)
  {
    if a == [] {
      assert a + b == b;
    } else {
      assert (a + b)[1..] == a[1..] + b;
      WorkersAppend(a[1..], b);
    }
  }

  // ---- the steps -------------------------------------------------------

  /** `load_model` once the model is constructed (on either device). */
  function LoadModel(s: State): State {
    s.(modelLoaded := true,
       effects := s.effects + [Show("Loading model...", Yellow), Show("Ready", Green), HideLater])
  }

  /** `audio_callback(indata, ...)`. */
  function AudioCallback(s: State, chunk: Chunk): State {
    if s.recording then s.(audio := s.audio + [chunk]) else s
  }

  /** `start_recording()`. */
  function StartRecording(s: State): State {
    if s.recording || s.processing || !s.modelLoaded then s
    else s.(recording := true, audio := [], effects := s.effects + [Show("REC", Red)])
  }

  /** `stop_recording()`: the buffer is detached as the snapshot. */
  function StopRecording(s: State): State {
    if !s.recording then s
    else
      var snapshot := s.audio;
      if TotalSamples(snapshot) < MinSamples then
        s.(recording := false, audio := [], effects := s.effects + [Hide])
      else
        s.(recording := false, audio := [], processing := true,
           effects := s.effects + [SpawnWorker(snapshot)])
  }

  /** The language passed to the model: 'auto' asks it to detect one. */
  function LanguageHint(language: string): Option<string> {
    if language == "auto" then None else Some(language)
  }

  /** The external actions of `transcribe(snapshot)`; `infer` is the speech model. */
  function TranscribeEffects(snapshot: seq<Chunk>, language: string,
                             infer: (seq<Sample>, Option<string>) -> Inference): seq<Effect>
  {
    [Show("...", Yellow)] +
    match Concatenate(snapshot)
    case None => [Hide]
    case Some(samples) =>
      match infer(samples, LanguageHint(language))
      case Raised => [Hide]
      case Segments(texts) =>
        var text := Normalise(texts);
        if ShouldPaste(texts) then [CopyToClipboard(text), PasteKeystroke, Show(Preview(text), Green), HideLater]
        else [Hide]
  }

  /** `transcribe(snapshot)` run to completion on the worker thread. */
  function Transcribe(s: State, snapshot: seq<Chunk>, language: string,
                      infer: (seq<Sample>, Option<string>) -> Inference): State
  {
    s.(processing := false, effects := s.effects + TranscribeEffects(snapshot, language, infer))
  }

  /** `on_press(key)` with the configured hotkey name. */
  function OnPress(s: State, hotkey: string, key: Key): State {
    if key in HotkeyKeys(hotkey) && !s.keyPressed then StartRecording(s.(keyPressed := true)) else s
  }

  /** `on_release(key)` with the configured hotkey name. */
  function OnRelease(s: State, hotkey: string, key: Key): State {
    if key in HotkeyKeys(hotkey) && s.keyPressed then StopRecording(s.(keyPressed := false)) else s
  }

  /** The audio callback delivering `chunks` one after another. */
  function Feed(s: State, chunks: seq<Chunk>): State
    decreases chunks
  {
    if chunks == [] then s else Feed(AudioCallback(s, chunks[0]), chunks[1..])
  }

  /** The listener reporting a press of each of `keys` in turn, with no release. */
  function Presses(s: State, hotkey: string, keys: seq<Key>): State
    decreases keys
  {
    if keys == [] then s else Presses(OnPress(s, hotkey, keys[0]), hotkey, keys[1..])
  }

  // ---- one step at a time ----------------------------------------------

  /** Every step keeps the invariant. */
  lemma StepsKeepInvariant(s: State, chunk: Chunk, snapshot: seq<Chunk>, language: string,
                           infer: (seq<Sample>, Option<string>) -> Inference, hotkey: string, key: Key)
    requires Invariant(s)
    ensures Invariant(Initial)
    ensures Invariant(LoadModel(s))
    ensures Invariant(AudioCallback(s, chunk))
    ensures Invariant(StartRecording(s))
    ensures Invariant(StopRecording(s))
    ensures Invariant(Transcribe(s, snapshot, language, infer))
    ensures Invariant(OnPress(s, hotkey, key))
    ensures Invariant(OnRelease(s, hotkey, key))
  {
  }

  /** `start_recording` does nothing while recording, while processing or
      before the model is loaded; otherwise it begins an empty recording. */
  lemma StartRecordingGuard(s: State)
    requires Invariant(s)
    ensures var r := StartRecording(s);
      && (r == s <==> s.recording || s.processing || !s.modelLoaded)
      && (r != s ==> PhaseOf(s) == Idle && PhaseOf(r) == Recording && r.audio == []
                     && r.keyPressed == s.keyPressed && Workers(r.effects) == Workers(s.effects))
  {
    var r := StartRecording(s);
    if r != s {
      WorkersAppend(s.effects, [Show("REC", Red)]);
    }
  }

  /** The audio callback appends exactly the incoming chunk while recording
      and changes nothing otherwise; the recorded samples grow by exactly
      the chunk's samples. */
  lemma AudioCallbackAppends(s: State, chunk: Chunk)
    ensures var r := AudioCallback(s, chunk);
      && r.(audio := s.audio) == s
      && r.audio == (if s.recording then s.audio + [chunk] else s.audio)
      && Flatten(r.audio) == (if s.recording then Flatten(s.audio) + chunk else Flatten(s.audio))
  {
    if s.recording {
      FlattenAppend(s.audio, [chunk]);
      assert Flatten([chunk]) == chunk + Flatten([]);
    }
  }

  /** The discard rule: stopping a recording always ends it with an empty
      buffer; the snapshot goes to exactly one new transcription thread when
      it holds at least 100 ms of audio, and to none otherwise. */
  lemma StopRecordingDiscardRule(s: State)
    requires Invariant(s)
    ensures var r := StopRecording(s);
      && (!s.recording ==> r == s)
      && (s.recording ==>
            && !r.recording && r.audio == [] && r.keyPressed == s.keyPressed
            && (r.processing <==> TotalSamples(s.audio) >= MinSamples)
            && Workers(r.effects) == Workers(s.effects)
                 + (if TotalSamples(s.audio) >= MinSamples then [s.audio] else []))
  {
    if s.recording {
      WorkersAppend(s.effects, [Hide]);
      WorkersAppend(s.effects, [SpawnWorker(s.audio)]);
    }
  }

  /** A press while a transcription is running starts nothing: no recording,
      no buffer change, no effect. */
  lemma NoRecordingWhileProcessing(s: State, hotkey: string, key: Key)
    requires Invariant(s) && s.processing
    ensures var r := OnPress(s, hotkey, key);
      !r.recording && r.processing && r.audio == s.audio && r.effects == s.effects
  {
  }

  /** `transcribe` always ends with `processing` cleared, whichever path it
      takes, and touches nothing else of the state machine. */
  lemma TranscribeEndsIdle(s: State, snapshot: seq<Chunk>, language: string,
                           infer: (seq<Sample>, Option<string>) -> Inference)
    ensures var r := Transcribe(s, snapshot, language, infer);
      && !r.processing && r.recording == s.recording && r.audio == s.audio
      && r.keyPressed == s.keyPressed && r.modelLoaded == s.modelLoaded
      && Workers(r.effects) == Workers(s.effects)
  {
    var effs := TranscribeEffects(snapshot, language, infer);
    WorkersAppend(s.effects, effs);
    TranscribeEffectsShape(snapshot, language, infer);
  }

  /** The overlay first shows the busy cue and is always hidden at the end
      (at once or by a timer); no thread is started. */
  lemma TranscribeEffectsShape(snapshot: seq<Chunk>, language: string,
                               infer: (seq<Sample>, Option<string>) -> Inference)
    ensures var effs := TranscribeEffects(snapshot, language, infer);
      && effs[0] == Show("...", Yellow)
      && effs[|effs| - 1] in {Hide, HideLater}
      && Workers(effs) == []
  {
    var effs := TranscribeEffects(snapshot, language, infer);
    var busy := Show("...", Yellow);
    if |effs| == 2 {
      assert effs == [busy, Hide];
      assert Workers([Hide]) == [];
    } else {
      var text := Normalise(infer(Flatten(snapshot), LanguageHint(language)).texts);
      var done := Show(Preview(text), Green);
      assert effs == [busy, CopyToClipboard(text), PasteKeystroke, done, HideLater];
      assert Workers([HideLater]) == [];
      assert Workers([done, HideLater]) == [];
      assert Workers([PasteKeystroke, done, HideLater]) == [];
      assert Workers([CopyToClipboard(text), PasteKeystroke, done, HideLater]) == [];
    }
  }

  /** The clipboard is written and a paste issued exactly when the model
      returned segments with a visible character; the clipboard then holds
      the joined, stripped text. Empty, blank, failed or unconcatenable
      results paste nothing. */
  lemma TranscribePastesIff(snapshot: seq<Chunk>, language: string,
                            infer: (seq<Sample>, Option<string>) -> Inference, x: string)
    ensures var effs := TranscribeEffects(snapshot, language, infer);
            var result := infer(Flatten(snapshot), LanguageHint(language));
      && (PasteKeystroke in effs <==>
            snapshot != [] && result.Segments?
            && exists i | 0 <= i < |result.texts| :: !AllSpace(result.texts[i]))
      && (CopyToClipboard(x) in effs <==>
            PasteKeystroke in effs && x == Normalise(result.texts))
  {
    var result := infer(Flatten(snapshot), LanguageHint(language));
    if result.Segments? {
      PasteIffVisibleSegment(result.texts);
    }
  }

  /** A paste never runs ahead of the clipboard write: when there is one, it
      is the only paste and comes right after the clipboard receives the
      transcript. */
  lemma TranscribePasteOrder(snapshot: seq<Chunk>, language: string,
                             infer: (seq<Sample>, Option<string>) -> Inference)
    ensures var effs := TranscribeEffects(snapshot, language, infer);
            var result := infer(Flatten(snapshot), LanguageHint(language));
            PasteKeystroke in effs ==>
              && result.Segments?
              && |effs| == 5
              && effs[1] == CopyToClipboard(Normalise(result.texts))
              && effs[2] == PasteKeystroke
              && multiset(effs)[PasteKeystroke] == 1
  {
    var effs := TranscribeEffects(snapshot, language, infer);
    var result := infer(Flatten(snapshot), LanguageHint(language));
    var busy := Show("...", Yellow);
    if snapshot != [] && result.Segments? && ShouldPaste(result.texts) {
      var text := Normalise(result.texts);
      assert effs == [busy, CopyToClipboard(text), PasteKeystroke, Show(Preview(text), Green), HideLater];
      assert multiset(effs)[PasteKeystroke] == 1;
    } else {
      assert effs == [busy, Hide];
    }
  }

  // ---- sequences of steps ----------------------------------------------

  /** While recording, feeding chunks appends them all, in order, and
      changes nothing else; while not recording it changes nothing. */
  lemma {:induction false} FeedAppends(s: State, chunks: seq<Chunk>)
    ensures s.recording ==> Feed(s, chunks) == s.(audio := s.audio + chunks)
    ensures !s.recording ==> Feed(s, chunks) == s
    decreases chunks
  {
    if chunks != [] {
      var t := AudioCallback(s, chunks[0]);
      FeedAppends(t, chunks[1..]);
      if s.recording {
        assert s.audio + [chunks[0]] + chunks[1..] == s.audio + chunks;
      }
    }
  }

  /** Holding the hotkey from idle while the audio callback delivers
      `chunks`, then releasing it: the recording starts and stops once, and
      the transcription thread receives exactly the delivered chunks when
      they hold at least 100 ms of audio and is not started otherwise. */
  lemma PressFeedRelease(s: State, hotkey: string, key: Key, chunks: seq<Chunk>)
    requires Invariant(s) && PhaseOf(s) == Idle && !s.keyPressed && s.modelLoaded
    requires key in HotkeyKeys(hotkey)
    ensures var t := OnRelease(Feed(OnPress(s, hotkey, key), chunks), hotkey, key);
      && Invariant(t) && !t.recording && !t.keyPressed && t.audio == [] && t.modelLoaded
      && (PhaseOf(t) == Processing <==> TotalSamples(chunks) >= MinSamples)
      && Workers(t.effects) == Workers(s.effects)
           + (if TotalSamples(chunks) >= MinSamples then [chunks] else [])
  {
    var p := OnPress(s, hotkey, key);
    assert p == s.(keyPressed := true, recording := true, audio := [],
                   effects := s.effects + [Show("REC", Red)]);
    WorkersAppend(s.effects, [Show("REC", Red)]);
    FeedAppends(p, chunks);
    var f := Feed(p, chunks);
    assert f.audio == chunks;
    StopRecordingDiscardRule(f.(keyPressed := false));
  }

  /** After the first press of the hotkey, further presses without a
      release change nothing: one physical hold starts at most one recording. */
  lemma {:induction false} RepeatedPressesStartOnce(s: State, hotkey: string, keys: seq<Key>)
    requires keys != [] && keys[0] in HotkeyKeys(hotkey)
    ensures Presses(s, hotkey, keys) == OnPress(s, hotkey, keys[0])
  {
    var p := OnPress(s, hotkey, keys[0]);
    assert p.keyPressed;
    PressedIgnoresPresses(p, hotkey, keys[1..]);
  }

  lemma {:induction false} PressedIgnoresPresses(s: State, hotkey: string, keys: seq<Key>)
    requires s.keyPressed
    ensures Presses(s, hotkey, keys) == s
    decreases keys
  {
    if keys != [] {
      assert OnPress(s, hotkey, keys[0]) == s;
      PressedIgnoresPresses(s, hotkey, keys[1..]);
    }
  }

  /** Ready for the next push-to-talk cycle: idle, the hotkey up, the model loaded. */
  predicate Ready(s: State) {
    Invariant(s) && PhaseOf(s) == Idle && !s.keyPressed && s.modelLoaded
  }

  /** One push-to-talk cycle from idle: press, audio, release, and the
      transcription when the recording was kept. */
  function Cycle(s: State, hotkey: string, key: Key, chunks: seq<Chunk>, language: string,
                 infer: (seq<Sample>, Option<string>) -> Inference): State
  {
    var t := OnRelease(Feed(OnPress(s, hotkey, key), chunks), hotkey, key);
    if t.processing then Transcribe(t, chunks, language, infer) else t
  }

  /** One cycle returns to idle; the recording reaches one transcription
      thread when it is kept and none otherwise. */
  lemma CycleReturnsToIdle(s: State, hotkey: string, key: Key, chunks: seq<Chunk>, language: string,
                           infer: (seq<Sample>, Option<string>) -> Inference)
    requires Ready(s)
    requires key in HotkeyKeys(hotkey)
    ensures var c := Cycle(s, hotkey, key, chunks, language, infer);
      && Ready(c)
      && Workers(c.effects) == Workers(s.effects)
           + (if TotalSamples(chunks) >= MinSamples then [chunks] else [])
  {
    PressFeedRelease(s, hotkey, key, chunks);
    var t := OnRelease(Feed(OnPress(s, hotkey, key), chunks), hotkey, key);
    if t.processing {
      TranscribeEndsIdle(t, chunks, language, infer);
    }
  }

  /** The recordings of `recs` long enough to be kept. */
  function Kept(recs: seq<seq<Chunk>>): seq<seq<Chunk>> {
    if recs == [] then []
    else (if TotalSamples(recs[0]) >= MinSamples then [recs[0]] else []) + Kept(recs[1..])
  }

  /** Consecutive non-overlapping cycles with the hotkey. */
  function Cycles(s: State, hotkey: string, key: Key, recs: seq<seq<Chunk>>, language: string,
                  infer: (seq<Sample>, Option<string>) -> Inference): State
    decreases recs
  {
    if recs == [] then s
    else Cycles(Cycle(s, hotkey, key, recs[0], language, infer), hotkey, key, recs[1..], language, infer)
  }

  /** Each cycle returns to idle, so the next one can start; exactly the
      kept recordings reach a transcription thread, once each and in order. */
  lemma {:induction false} CyclesReturnToIdle(s: State, hotkey: string, key: Key, recs: seq<seq<Chunk>>,
                                              language: string, infer: (seq<Sample>, Option<string>) -> Inference)
    requires Ready(s)
    requires key in HotkeyKeys(hotkey)
    ensures var u := Cycles(s, hotkey, key, recs, language, infer);
      && Ready(u)
      && Workers(u.effects) == Workers(s.effects) + Kept(recs)
    decreases recs
  {
    if recs != [] {
      var chunks := recs[0];
      var head := if TotalSamples(chunks) >= MinSamples then [chunks] else [];
      var c := Cycle(s, hotkey, key, chunks, language, infer);
      CycleReturnsToIdle(s, hotkey, key, chunks, language, infer);
      var ws := Workers(s.effects);
      var wc := Workers(c.effects);
      assert wc == ws + head;
      CyclesReturnToIdle(c, hotkey, key, recs[1..], language, infer);
      var u := Cycles(c, hotkey, key, recs[1..], language, infer);
      assert Cycles(s, hotkey, key, recs, language, infer) == u;
      var kr := Kept(recs[1..]);
      assert Workers(u.effects) == wc + kr;
      assert Kept(recs) == head + kr;
      assert wc + kr == ws + (head + kr);
    }
  }
}
