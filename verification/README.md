# Push-to-talk dictation: a verified model

This project models the core of win-voice's `dictate.py`: the `Dictation`
object that records while a hotkey is held and transcribes when it is
released. Around it sit three small pure helpers:

- turning the speech model's segments into pasted text;
- merging the config file over the defaults;
- mapping between hotkey names and their display names.

The modules follow the program's parts:

- `Transcript` (`transcript.dfy`): `" ".join(segments).strip()`, Python's
  whitespace set, the paste decision and the 40-character overlay preview.
- `Audio` (`audio.dfy`): the chunk buffer, its sample count
  (`sum(len(a) ...)`), `np.concatenate` (fails on an empty list) and the
  100 ms threshold `int(16000 * 0.1)` = 1600 samples.
- `Hotkeys` (`hotkeys.dfy`): `get_hotkey_name`, the settings window's
  `hotkey_map` and its 16 choices, and the `get_pynput_key` table with its
  `(alt_l, alt_r)` fallback.
- `Config` (`config.dfy`): `DEFAULT_CONFIG` and `load_config`'s merge. The
  file is given as Missing, Unreadable or Parsed(json).
- `Machine` (`machine.dfy`): the state machine as functions on a state
  value. The state is `recording`, `processing`, `key_pressed`, whether a
  model is loaded, the audio buffer, and an ordered log of external
  effects: overlay show/hide, hide timers, worker thread start with its
  snapshot, clipboard write and paste keystroke. It holds the trace
  lemmas: the discard rule, debouncing, no recording while processing,
  and "every kept recording reaches exactly one worker" over any number
  of push-to-talk cycles.
- `Dictate` (`dictation.dfy`): the `Dictation` class. Its fields are
  updated in place by methods whose contracts tie each new state to the
  matching `Machine` step. Each method also keeps the class invariant:
  never recording and processing at once, an empty buffer outside a
  recording, and recording only with a model loaded.

The speech model is a parameter `infer` from audio and language hint to
segment texts or an exception. `key.title()` is a parameter `title`.

## Model

| member | source | states |
|---|---|---|
| `Transcript.Preview` | dictate.py:296 | the overlay text is the transcript's first 40 characters, or all of it when shorter |
| `Transcript.StripLeftSuffix` | dictate.py:289 | stripping the left keeps the suffix after a run of whitespace, which is empty or starts with a visible character |
| `Transcript.StripRightPrefix` | dictate.py:289 | stripping the right keeps the prefix before a run of whitespace, which is empty or ends with a visible character |
| `Transcript.StripBlankIff` | dictate.py:289 | `strip()` gives the empty string exactly when the input is all whitespace; otherwise the result starts and ends with a visible character |
| `Transcript.StripIsSlice` | dictate.py:289 | `strip()` returns a contiguous slice of its input, and everything cut off on either side is whitespace |
| `Transcript.JoinBlankIff` | dictate.py:289 | the space-joined segments are blank exactly when every segment is blank |
| `Transcript.PasteIffVisibleSegment` | dictate.py:289-299 | the transcript is pasted exactly when some segment has a visible character, so empty or whitespace-only results never paste |
| `Transcript.NormaliseIdempotent` | dictate.py:289 | the pasted text has no surrounding whitespace: stripping it again changes nothing |
| `Audio.Concatenate` | dictate.py:273-278 | concatenation fails exactly on an empty chunk list; otherwise its length is the recording's sample count |
| `Audio.FlattenLength` | dictate.py:262 | the summed chunk lengths equal the number of samples in the concatenated audio |
| `Audio.FlattenAppend` | dictate.py:274 | concatenation is transparent to chunking: the samples of two chunk lists appended are the samples of each, in order |
| `Audio.TotalSamplesAppend` | dictate.py:262 | sample counts add up over appended chunk lists |
| `Audio.KeptRecordingConcatenates` | dictate.py:262-278 | a recording of at least 1600 samples always concatenates, so the ValueError path is never taken for a kept recording |
| `Hotkeys.ComboRoundTrip` | dictate.py:135-142 | every hotkey choice the settings window offers is saved as a key whose display name is that choice |
| `Hotkeys.KeyForDisplayDomain` | dictate.py:98-99 | the save table covers exactly the offered choices; any other display name is saved as 'alt' |
| `Hotkeys.DisplayRoundTrip` | dictate.py:71-84 | a key name with a display name comes back unchanged from display-then-save exactly when the listener recognises it ('f9' to 'f12' come back as 'alt') |
| `Hotkeys.SavedHotkeyRecognised` | dictate.py:213-227 | a hotkey saved from the settings window is always one `get_pynput_key` recognises |
| `Hotkeys.HotkeyKeysFallback` | dictate.py:227 | an unrecognised hotkey name answers to left and right Alt; every hotkey answers to at least one key |
| `Config.LoadConfig` | dictate.py:46-54 | the result has every default key; a JSON object's values override the defaults and the other defaults stay; a missing, unreadable or non-object file gives exactly the defaults |
| `Config.SaveLoadRoundTrip` | dictate.py:51-58 | saving a loaded configuration and loading it again gives the same configuration |
| `Machine.WorkersAppend` | dictate.py:268 | the worker snapshots of two effect logs appended are those of each, in order |
| `Machine.StepsKeepInvariant` | dictate.py:201-322 | the initial state and every step keep the invariant: not recording and processing at once, an empty buffer outside a recording, recording only with a model |
| `Machine.StartRecordingGuard` | dictate.py:247-253 | `start_recording` changes nothing exactly when recording, processing or without a model; otherwise it moves from idle to recording with an empty buffer and starts no worker |
| `Machine.AudioCallbackAppends` | dictate.py:243-245 | the callback appends exactly one copy of the frame at the end while recording and changes nothing otherwise; the recorded samples grow by exactly the frame |
| `Machine.StopRecordingDiscardRule` | dictate.py:255-268 | `stop_recording` does nothing unless recording; otherwise it ends the recording with an empty buffer, and the snapshot reaches exactly one new worker (and `processing` is set) when it holds at least 1600 samples, none otherwise |
| `Machine.NoRecordingWhileProcessing` | dictate.py:247-249 | a press while processing starts no recording, leaves the buffer alone and causes no effect |
| `Machine.TranscribeEndsIdle` | dictate.py:270-308 | `transcribe` always clears `processing`, on every path, and starts no worker |
| `Machine.TranscribeEffectsShape` | dictate.py:270-308 | `transcribe` first shows the busy cue and always ends by hiding the overlay, at once or by a timer |
| `Machine.TranscribePastesIff` | dictate.py:284-299 | the clipboard write and the paste happen exactly when concatenation succeeded and the model returned segments with a visible character; the clipboard then holds the joined, stripped text |
| `Machine.TranscribePasteOrder` | dictate.py:293-297 | when a paste is issued, the log is busy cue, clipboard write of the transcript, the single paste, preview, hide timer: the paste always follows the clipboard write and happens once |
| `Machine.FeedAppends` | dictate.py:243-245 | a run of audio callbacks while recording appends all frames in order and changes nothing else; while not recording it changes nothing |
| `Machine.PressFeedRelease` | dictate.py:310-322 | press from idle, audio, release: the recording starts and stops once, and a worker receives exactly the delivered frames when they hold at least 1600 samples, none otherwise |
| `Machine.RepeatedPressesStartOnce` | dictate.py:310-315 | any number of presses without a release acts as the first press alone |
| `Machine.PressedIgnoresPresses` | dictate.py:313 | while the hotkey counts as held, presses change nothing |
| `Machine.CycleReturnsToIdle` | dictate.py:255-308 | one push-to-talk cycle from idle returns to idle with the key released, and starts a worker exactly for a kept recording |
| `Machine.CyclesReturnToIdle` | dictate.py:247-322 | after any sequence of non-overlapping cycles the machine is idle and exactly the kept recordings reached workers, once each and in order |
| `Dictate.Dictation.constructor` | dictate.py:201-209 | a new object is idle, has no model, no key held, an empty buffer and no effects |
| `Dictate.Dictation.LoadModel` | dictate.py:229-241 | loading sets the model and shows the loading and ready cues, then hides the overlay later |
| `Dictate.Dictation.AudioCallback` | dictate.py:243-245 | the buffer gains the frame at the end exactly while recording; the flags are unchanged |
| `Dictate.Dictation.StartRecording` | dictate.py:247-253 | performs `Machine.StartRecording`: nothing when busy or without a model, otherwise recording with an empty buffer |
| `Dictate.Dictation.StopRecording` | dictate.py:255-268 | performs `Machine.StopRecording`: the buffer is emptied and the old buffer reaches a worker exactly when it holds at least 1600 samples |
| `Dictate.Dictation.Transcribe` | dictate.py:270-308 | performs `Machine.Transcribe` and always ends with `processing` false |
| `Dictate.Dictation.OnPress` | dictate.py:310-315 | performs `Machine.OnPress`: a hotkey press marks the key held, and only a press while not held can start a recording |
| `Dictate.Dictation.OnRelease` | dictate.py:317-322 | performs `Machine.OnRelease`: a hotkey release marks the key released, and only a release while held stops the recording |

## Left out

- Threads and timing. The `threading.Thread` worker, the `threading.Timer`
  hides and the `time.sleep(0.05)` before pasting are not modelled as
  concurrency. The worker start and the delayed hide are entries in the
  effect log, and the sleep is dropped.
- Concurrency between methods. Each method is one atomic step. The code
  has no lock between `audio_callback` appending and `start_recording` or
  `stop_recording` replacing the buffer, so a frame delivered during the
  detach may be lost. The model does not capture that interleaving.
- In the model, a transcription runs to completion right after the
  release (`Machine.Cycle`). Events that arrive while it runs are
  covered only by the single-step lemmas.
- Whisper model loading and the GPU-to-CPU fallback. `LoadModel` only
  records that a model is present. Inference is the parameter `infer`.
  Its beam size and voice-activity filter are not modelled.
- Temporary WAV file. Writing and deleting it are not modelled. The
  write happens before the `try` block, so an exception there would end
  the worker with `processing` still set. That path is not part of this
  model.
- Clipboard and paste failures. An exception from `pyperclip.copy` or
  `pyautogui.hotkey` would be caught, but the model treats both as
  succeeding.
- Printing to the console, sounddevice's input stream, `get_microphones`,
  `run` and `main` are not modelled.
- Configuration I/O. JSON parsing and `save_config`'s file write are not
  modelled; only the merge is. JSON numbers are integers here.
- The settings window, apart from its hotkey table. Its widgets and its
  model, language and microphone fields are not modelled, and neither is
  the overlay's drawing and colours.
- CUDA DLL path setup is not modelled.
- `Dictate.Dictation.constructor` takes the configured hotkey and language
  as strings, not the whole config dictionary. A non-string JSON value
  for either key is not modelled.
- `key.title()` in `get_hotkey_name` is the uninterpreted parameter `title`.
- Samples are `real`. The 32-bit float format and `indata.copy()`'s
  array shape are not modelled.
- generate_sounds.py (tone synthesis and WAV writing) is not part of
  this model.
