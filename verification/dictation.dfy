/**
 * The `Dictation` object of dictate.py: its flags and audio buffer are
 * fields its methods update in place. Each method is proved to perform
 * the matching step of `Machine`, so the lemmas proved there hold of it.
 */
module Dictate {
  import opened Wrappers
  import opened Audio
  import opened Transcript
  import opened Hotkeys
  import Machine

  class Dictation {
    /** `config['hotkey']` and `config['language']`. */
    const hotkey: string
    const language: string

    var recording: bool
    var processing: bool
    var keyPressed: bool
    /** `self.model is not None`. */
    var modelLoaded: bool
    var audioData: seq<Chunk>
    /** The external actions performed so far, in order. */
    ghost var effects: seq<Machine.Effect>

    ghost function State(): Machine.State
      reads this
    {
      Machine.State(recording, processing, keyPressed, modelLoaded, audioData, effects)
    }

    ghost predicate Valid()
      reads this
    {
      Machine.Invariant(State())
    }

    /** `Dictation(config)`. */
    constructor (hotkey: string, language: string)
      ensures Valid() && State() == Machine.Initial
      ensures this.hotkey == hotkey && this.language == language
    {
      this.hotkey := hotkey;
      this.language := language;
      recording := false;
      processing := false;
      keyPressed := false;
      modelLoaded := false;
      audioData := [];
      effects := [];
    }

    /** `load_model()` once the model is constructed, on the GPU or after falling back to the CPU. */
    method LoadModel()
      requires Valid()
      modifies this
      ensures Valid() && State() == Machine.LoadModel(old(State()))
      ensures modelLoaded
    {
      effects := effects + [Machine.Show("Loading model...", Machine.Yellow)];
      modelLoaded := true;
      effects := effects + [Machine.Show("Ready", Machine.Green), Machine.HideLater];
    }

    /** `audio_callback(indata, ...)`: keeps a copy of the frame while recording. */
    method AudioCallback(indata: Chunk)
      requires Valid()
      modifies this
      ensures Valid() && State() == Machine.AudioCallback(old(State()), indata)
      ensures audioData == if old(recording) then old(audioData) + [indata] else old(audioData)
      ensures recording == old(recording) && processing == old(processing)
    {
      if recording {
        audioData := audioData + [indata];
      }
    }

    /** `start_recording()`. */
    method StartRecording()
      requires Valid()
      modifies this
      ensures Valid() && State() == Machine.StartRecording(old(State()))
      ensures old(recording || processing || !modelLoaded) ==> State() == old(State())
      ensures !old(recording || processing || !modelLoaded) ==>
                recording && !processing && audioData == []
    {
      if recording || processing || !modelLoaded {
        return;
      }
      recording := true;
      audioData := [];
      effects := effects + [Machine.Show("REC", Machine.Red)];
    }

    /** `stop_recording()`: detaches the buffer and hands it to a
        transcription thread unless it is shorter than 100 ms. */
    method StopRecording()
      requires Valid()
      modifies this
      ensures Valid() && State() == Machine.StopRecording(old(State()))
      ensures !old(recording) ==> State() == old(State())
      ensures old(recording) ==>
        && !recording && audioData == []
        && (processing <==> TotalSamples(old(audioData)) >= MinSamples)
        && Machine.Workers(effects) == Machine.Workers(old(effects))
             + (if TotalSamples(old(audioData)) >= MinSamples then [old(audioData)] else [])
    {
      Machine.StopRecordingDiscardRule(State());
      if !recording {
        return;
      }
      recording := false;
      var snapshot := audioData;
      audioData := [];
      var totalSamples := TotalSamples(snapshot);
      if totalSamples < MinSamples {
        effects := effects + [Machine.Hide];
        return;
      }
      processing := true;
      effects := effects + [Machine.SpawnWorker(snapshot)];
    }

    /** `transcribe(snapshot)` on the worker thread; `infer` stands for the
        speech model given the audio and the language hint. */
    method Transcribe(snapshot: seq<Chunk>, infer: (seq<Sample>, Option<string>) -> Machine.Inference)
      requires Valid()
      modifies this
      ensures Valid() && State() == Machine.Transcribe(old(State()), snapshot, language, infer)
      ensures !processing
    {
      ghost var before := effects;
      ghost var done := Machine.TranscribeEffects(snapshot, language, infer);
      var busy := Machine.Show("...", Machine.Yellow);
      effects := effects + [busy];
      var audio := Concatenate(snapshot);
      if audio.None? {
        effects := effects + [Machine.Hide];
        assert done == [busy, Machine.Hide] && effects == before + done;
        processing := false;
        return;
      }
      var lang := Machine.LanguageHint(language);
      var result := infer(audio.value, lang);
      if result.Raised? {
        effects := effects + [Machine.Hide];
        assert done == [busy, Machine.Hide] && effects == before + done;
      } else {
        var text := Normalise(result.texts);
        if ShouldPaste(result.texts) {
          effects := effects + [Machine.CopyToClipboard(text), Machine.PasteKeystroke];
          effects := effects + [Machine.Show(Preview(text), Machine.Green), Machine.HideLater];
          assert done == [busy, Machine.CopyToClipboard(text), Machine.PasteKeystroke,
                          Machine.Show(Preview(text), Machine.Green), Machine.HideLater];
          assert effects == before + done;
        } else {
          effects := effects + [Machine.Hide];
          assert done == [busy, Machine.Hide] && effects == before + done;
        }
      }
      processing := false;
    }

    /** `on_press(key)`: only the first press of the hotkey starts a recording. */
    method OnPress(key: Key)
      requires Valid()
      modifies this
      ensures Valid() && State() == Machine.OnPress(old(State()), hotkey, key)
      ensures key in HotkeyKeys(hotkey) ==> keyPressed
      ensures old(keyPressed) || key !in HotkeyKeys(hotkey) ==> State() == old(State())
    {
      var validKeys := HotkeyKeys(hotkey);
      if key in validKeys {
        if !keyPressed {
          keyPressed := true;
          StartRecording();
        }
      }
    }

    /** `on_release(key)`: only the release matching a counted press stops the recording. */
    method OnRelease(key: Key)
      requires Valid()
      modifies this
      ensures Valid() && State() == Machine.OnRelease(old(State()), hotkey, key)
      ensures key in HotkeyKeys(hotkey) ==> !keyPressed
      ensures key in HotkeyKeys(hotkey) && old(keyPressed) ==> !recording
      ensures !old(keyPressed) || key !in HotkeyKeys(hotkey) ==> State() == old(State())
    {
      var validKeys := HotkeyKeys(hotkey);
      if key in validKeys {
        if keyPressed {
          keyPressed := false;
          StopRecording();
        }
      }
    }
  }
}
