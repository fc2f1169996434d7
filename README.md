# Sotto dictation core in Dafny

A model of the backend core of Sotto, a voice-dictation app. It has two parts.

- **Dictation lifecycle** (`dictation.dfy`, from `src-tauri/src/dictate.rs`). `AppState` holds one `DictationState`: `None`, `Recording(sender)` or `Transcribing`.
  - `dictate` moves `None` to `Recording` and hands the channel's receiver to a worker.
  - `end_recording` takes the sender out, leaves `Transcribing` and fires the sender once.
  - The worker writes `None` back when recording, model fetch and transcription all succeed.
  - The class `AppState` updates this state in place. A pure `Session` value and step functions mirror it. Lemmas over arbitrary interleavings of the three critical sections prove exclusivity (at most one live session, sessions alternating with resets) and single consumption (no sender fires twice).
- **Model store** (`models.dfy`, from `src-tauri/src/model.rs`). This covers the fixed key of each Whisper model, the path `~/.sotto/{key}.bin`, and `get`, `download` and `get_or_download` over a `FileSystem` object. `download` looks the model up in the index, checks both HTTP statuses and streams the body chunk by chunk into the file.

`errors.dfy` holds the error variants of `src-tauri/src/errors.rs`. `wrappers.dfy` holds `Option` and `Result`.

The results of foreign calls are parameters:
- the temp-file creation in `dictate`;
- how the worker's run ends;
- whether joining the worker panicked;
- the home directory;
- whether `~/.sotto` could be created;
- the HTTP replies;
- whether creating the model file fails, and which chunk writes fail.

A oneshot channel is a number taken from a counter. A ghost multiset counts how often each sender has fired. A ghost set holds the receivers of the workers still running: each successful `dictate` adds one, and each worker's last step removes its own.

A failed dictation session should not lock out later dictation, so the worker should reset the state to `None` on every exit. The code resets it only after full success. The model follows the code and records the difference under Findings.

## Model

| member | source | states |
|---|---|---|
| Dictation.AppState.constructor | src-tauri/src/dictate.rs:9-15 | The default app state is `None`, with no sender created or fired and no worker running; the invariant holds. |
| Dictation.AppState.Dictate | src-tauri/src/dictate.rs:22-68 | From `None` with the temp file created: returns `Ok`, stores a fresh, unfired sender in `Recording`, and the one worker now running (none ran before) holds its receiver. From `Recording` or `Transcribing`: `Err(AlreadyDictating)` with nothing changed. Temp-file failure: `Err(TmpFileCreationFailed)` and the state stays `None`. |
| Dictation.AppState.EndRecording | src-tauri/src/dictate.rs:72-90 | From `Recording(s)`: `Ok`, state `Transcribing`, and `s` (not fired before) fired exactly once; the `unreachable!` branch is proved dead. Otherwise: `Err(NotDictating)` with nothing changed. |
| Dictation.AppState.WorkerFinish | src-tauri/src/dictate.rs:36-53 | The named worker stops running. With a transcript: `Ok(text)`, and the state goes from `Transcribing` to `None`. After a failed step: that step's error, and the state is left as it was. |
| Dictation.InitInv | src-tauri/src/dictate.rs:98-102 | The startup state satisfies the invariant and has no live session. |
| Dictation.DictateKeepsInv | src-tauri/src/dictate.rs:25-31 | `dictate` keeps the invariant. |
| Dictation.EndRecordingKeepsInv | src-tauri/src/dictate.rs:75-81 | `end_recording` keeps the invariant: the fired sender had not fired before, so it has now fired exactly once. |
| Dictation.WorkerFinishKeepsInv | src-tauri/src/dictate.rs:38-50 | The worker's final step keeps the invariant. |
| Dictation.AtMostOneActive | src-tauri/src/dictate.rs:93-97 | Under the invariant at most one session is live (a running worker, or a sender still held in `Recording`), and at most one worker runs. |
| Dictation.DictateOnlyWhenIdle | src-tauri/src/dictate.rs:25-36 | `dictate` succeeds only when nothing is live, and afterwards exactly the new session is live. |
| Dictation.SecondEndRecordingFails | src-tauri/src/dictate.rs:74-88 | After a successful `end_recording`, the next one returns `Err(NotDictating)` and changes nothing. |
| Dictation.ResetOnlyFromTranscribing | src-tauri/src/dictate.rs:38-50 | A worker reset to `None` always starts from `Transcribing`, never directly from `Recording`. |
| Dictation.RunKeepsInv | src-tauri/src/dictate.rs:22-90 | Every feasible interleaving of `dictate`, `end_recording` and worker finishes keeps the invariant. |
| Dictation.Exclusivity | src-tauri/src/dictate.rs:22-90 | After any interleaving from startup, at most one session is live and at most one worker runs, however many workers the trace spawned. |
| Dictation.DictateOnlyWhenIdleAlongTrace | src-tauri/src/dictate.rs:25-36 | In any interleaving from startup, every successful `dictate` meets the state `None` with no session live and no worker running. |
| Dictation.SingleConsumption | src-tauri/src/dictate.rs:77-81 | After any interleaving from startup, no sender has fired more than once, and only senders already created have fired. |
| Dictation.SessionsAlternate | src-tauri/src/dictate.rs:25-50 | Along any trace, successful `dictate` calls minus resets equals the change in busy-ness of the state. |
| Dictation.StartedSessionsFromInit | src-tauri/src/dictate.rs:25-50 | From startup, started sessions are the resets or the resets plus one, and the state is `None` exactly when they are equal. |
| Dictation.AwaitTranscript | src-tauri/src/dictate.rs:57-62 | A join failure becomes `DictationTaskPanicked`; otherwise the worker's own `Ok` or `Err` is returned unchanged. |
| Dictation.StuckAfterWorkerError | src-tauri/src/dictate.rs:38-52 | Once a worker has ended without resetting, the state never returns to `None`, and every later `dictate` returns `AlreadyDictating`. |
| Dictation.NoMicrophoneLocksOutDictation | src-tauri/src/dictate.rs:25-52 | Concrete trace: start, then the recording fails with `NoInputDevice`, then start again. The replies are `Ok`, `Err(NoInputDevice)` and `Err(AlreadyDictating)`. |
| Dictation.CorrectedWorkerFinishRecovers | src-tauri/src/dictate.rs:38-52 | The always-reset worker step gives the same result as the code, is identical on success and keeps the invariant. After it, `dictate` can start a new session. |
| Dictation.HelloWorld | src-tauri/src/dictate.rs:22-90 | Start, a refused second start, stop, then a transcript: the future yields `Ok("hello world")`. |
| Dictation.EndWithoutSession | src-tauri/src/dictate.rs:87-88 | `end_recording` on a fresh state returns `NotDictating`. |
| Dictation.FailedRecordingThenDictate | src-tauri/src/dictate.rs:38-66 | A failed recording reaches the caller through the future, and the next `dictate` is refused. |
| Models.ToIdentifier | src-tauri/src/model.rs:115-123 | Every model maps to one of the five listed keys. |
| Models.ToIdentifierInjective | src-tauri/src/model.rs:115-123 | Two models have the same key exactly when they are the same model. |
| Models.IdentifiersAreKeys | src-tauri/src/model.rs:115-123 | Each of the five keys is the key of some model. |
| Models.Join | src-tauri/src/model.rs:41 | The result is `base + component` with or without a `/` in between, as `PathBuf::push` decides in the body. |
| Models.SottoDir | src-tauri/src/model.rs:41 | `~/.sotto` is the home path followed by `.sotto`, and it never ends in `/`. |
| Models.ModelPath | src-tauri/src/model.rs:45-46 | The model path is always `<sotto dir>/<key>.bin`. |
| Models.ModelPathInjective | src-tauri/src/model.rs:46 | Under one home directory, two models share a path exactly when they are the same model. |
| Models.ModelPathIsNotSottoDir | src-tauri/src/model.rs:42-48 | Creating `~/.sotto` cannot make the model path exist. |
| Models.ModelUrl | src-tauri/src/model.rs:59-83 | URL lookup `Ok` exactly when the index replies with a success status and parses to a map holding the model's key; the URL is that entry. A bad status gives `GetModelIndexBadStatus(status)`, an unreachable index or an unreadable body `GetModelIndexFailed`, a body that is not JSON `IndexError(ParseFailed)`, and a missing key `Incomplete` whose `missing_key` is `to_identifier()`. |
| Models.DownloadPlan | src-tauri/src/model.rs:56-99 | Index errors come first, then `NoHomeDir`, then `DownloadModelFailed`, then `DownloadModelBadStatus(status)`. A plan exists exactly when all checks pass; it targets the path `get` checks and streams the model reply's body. |
| Models.FirstFaultFrom | src-tauri/src/model.rs:106-111 | Returns the first chunk at or after `i` that is bad or whose write fails (or the end); every chunk before it is good and written. |
| Models.FirstFault | src-tauri/src/model.rs:106-111 | Returns the first chunk of the stream that aborts the loop (or the end); every chunk before it is good and written. |
| Models.PayloadAppend | src-tauri/src/model.rs:106-111 | The file contents of two consecutive stretches of a stream concatenate. |
| Models.StreamResult | src-tauri/src/model.rs:106-113 | The loop ends `Ok` exactly when every chunk is good and every write succeeds. It ends `BadChunk` exactly when a bad chunk comes before any failed write; any other failure is `WriteChunkFailed`. |
| Models.WriteStream | src-tauri/src/model.rs:105-111 | The loop appends chunks in order: the file holds its old contents followed by every chunk before the first fault. It then stops with that fault's error. |
| Models.DownloadSuccess | src-tauri/src/model.rs:87-113 | A successful download returns `~/.sotto/{key}.bin`, and the file holds the concatenation of all chunks, in order. |
| Models.DownloadFailureLeavesPartialFile | src-tauri/src/model.rs:102-111 | A download that fails in the chunk loop leaves a file at the model path, holding exactly the chunks before the fault. |
| Models.Download | src-tauri/src/model.rs:56-114 | Returns the outcome above. Directories are untouched. The files change only by the written model file, with no file before the file-creation step. |
| Models.Get | src-tauri/src/model.rs:38-53 | No home: `Err(NoHomeDir)`, nothing changed. `.sotto` creation fails: `Err(CreateSottoDirFailed)`. Otherwise `~/.sotto` is added and `get` returns `Ok(Some(path))` exactly when the model path exists, else `Ok(None)`. |
| Models.GetOrDownload | src-tauri/src/model.rs:30-36 | An error from `get` is returned. An existing model path is returned without any file changing. A missing model is downloaded, with `download`'s result and effect. |
| Models.DownloadThenGet | src-tauri/src/model.rs:38-113 | After a successful download, `get` returns `Ok(Some(p))` for the very path `p` the download returned when `~/.sotto` can be created, and `Err(CreateSottoDirFailed)` when it cannot. |

## Left out

- Threads, `spawn_blocking`, `block_on`, and the real `Mutex` and `oneshot` semantics: each critical section is one atomic method call, and the channel is a number plus a ghost firing count.
- Lock poisoning and the `unwrap` panics are not modelled. A panicking worker appears only as the `Panicked` join outcome.
- The temp file is a success/failure input. Its deletion when the worker drops it is not modelled.
- Audio capture (`src-tauri/src/record.rs`) and Whisper inference (`src-tauri/src/transcribe.rs`, `transcribe.py`) are foreign library calls. The worker's run is reduced to how it ends: which step failed with which error, or the transcript.
- The code as written does not type-check at two points: `start_recording` returns a `String` error into an `Error` context, and `transcribe` is called with two arguments. The model treats each step as returning an arbitrary `Error`.
- The worker's model step is `get_or_download` of `WhisperBase`. In the dictation model its outcome is an input; it is not connected to `Models`.
- `WorkerFinish`: a successful recording is assumed to come only after the worker's sender was fired. `blocking_recv` also returns when the sender is dropped, which happens only at teardown, and teardown is not modelled.
- HTTP (`reqwest`), JSON parsing (`serde_json`), `dirs::home_dir` and the filesystem calls are inputs, not models. `INDEX_URL` is not modelled, because the index reply itself is the input.
- `Get` and `GetOrDownload` take one home-directory value. The code calls `dirs::home_dir` separately in `get` and in `download`, and the model assumes both calls give the same answer.
- `create_dir_all`: its success is an input, and on success only `~/.sotto` itself is added, not its missing ancestors.
- `File::create` failure is an input, independent of whether `~/.sotto` exists.
- `write_all` failing after writing part of a chunk is not modelled: on a failed write the file holds exactly the chunks before it.
- `PathBuf::join` is modelled only for relative components and `/`. Absolute components and platform separators are not modelled.
- The Tauri command wrappers in `src-tauri/src/main.rs` (`Debug` formatting, the call to a non-existent `AppState::new`) and the whole frontend (`src/`, `tailwind.config.js`) are UI and glue with no logic.
- The error messages of `src-tauri/src/errors.rs` and the foreign `source` errors inside its variants are not carried.

## Findings

| source | as written | input that shows it | evidently intended | confidence | as-written member | corrected member |
|---|---|---|---|---|---|---|
| src-tauri/src/dictate.rs:38-52 | The worker writes `None` only after recording, model fetch and transcription all succeed; each `?` at lines 38, 46 and 47 returns early and skips it. | `dictate` succeeds, then recording fails at once with `NoInputDevice`, then `dictate` again. The second `dictate` returns `AlreadyDictating`, and so does every later one. | The state goes back to `None` on every exit of the worker, so a failed session does not lock out dictation. | not executed; high | Dictation.StuckAfterWorkerError | Dictation.CorrectedWorkerFinishRecovers |

`AppState.WorkerFinish` keeps the code's behaviour, because it models the code. `WorkerFinishStepCorrected` is the intended step, and the lemma in the corrected column is proved about it.
