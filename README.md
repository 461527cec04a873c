# Double translator: a Dafny model of the push-to-talk controller

`double_translator.py` drives a two-way English/Spanish speech translator
on a small single-board computer:

- A direction switch selects English-to-Spanish or Spanish-to-English.
- A record button is held while the operator speaks.
- A green LED offers the finished translation for playback.
- A red LED shows that the device is busy.
- An exit button ends the session and powers the host off.

One iteration of the main loop goes like this:

1. Wait, idle, for a press or a switch change.
2. Record until the button is released.
3. Drain the captured audio blocks.
4. Transcribe, punctuate and translate.
5. Wait for a second press to speak the translation.

At any wait, a switch change reloads the models of the new direction and announces it. The exit request ends the loop.

The model is written in these terms:

- **Inputs.** The hardware is a finite trace of observations (`Polling.Input`):
  - a poll of the record button and the switch;
  - a block of samples delivered by the audio callback;
  - a press of the exit button, whose callback runs to completion.
- **Waits.** Every polling loop of the controller consumes that trace. All
  three waiting phases are specified by one function, `Polling.Await`:
  - the idle wait;
  - the recording wait;
  - the playback decision.

  Each wait method is proved to end exactly as `Await` says.
- **State.** The script's globals are the fields of one object
  (`Translator.DoubleTranslator`): the current direction, the six model
  slots, the two LEDs, the capture queue, the `recording` gate and the exit
  flag.
- **Effects.** Everything the controller does to the outside world is
  appended to an effect log, in order: releasing and loading models,
  playing an announcement, running the recogniser or the translator,
  stopping the input stream, speaking, shutting down.
- **Engines.** The recogniser, the punctuation restorer and the translator
  are opaque function values fixed at construction. Speaking is recorded
  with the voice and configuration resident at that moment.
- **Iterations.** Each iteration of the main loop (`Cycle`) is described
  by an `Outcome`. Its exact log is the function `After`, and the inputs it
  consumed are characterised by `Traced`. Lemmas about `After` state what
  every iteration guarantees:
  - the log only grows;
  - models are released before every load;
  - a translation is spoken exactly when the operator asked for it.

The code handles `text.strip()` with Python's own notion of white space
(`Speech.IsSpace`).

`load_models` first calls `unload_models`, which drops only the recogniser,
the translator and the two tokenizers (double_translator.py:167-173). The
voice and its configuration are path strings that the next load
overwrites. The model follows the code (`UnloadModels`).

The recording gate is closed before the input stream is stopped
(double_translator.py:288-289). Blocks the trace delivers right after the
recording wait ends are the ones still in flight in that window: they reach
the audio callback with the gate closed and are dropped (`LateBlocks`), and
the stream stop is logged after them (`StreamStopped`).

## Model

| member | source | states |
|---|---|---|
| Modes.DirectionOf | double_translator.py:175-176 | a switch reading of 1 selects Spanish-to-English and every other reading English-to-Spanish, both directions of each equivalence |
| Modes.ModeFile | double_translator.py:184-186 | the mode announcement is the es-en file exactly for Spanish-to-English and the en-es file exactly for English-to-Spanish; it is never the exit or a no-audio file |
| Modes.NoAudioFile | double_translator.py:188-192 | the no-audio announcement is the English file exactly for English-to-Spanish and the Spanish file exactly for Spanish-to-English (the speaker's language), distinct from the mode and exit files |
| Polling.Await | double_translator.py:221-239 | a wait never consumes past the trace; it only runs out at the end of the trace; a reported switch is to a different direction; without the exit flag it consumes at least one input before deciding; a press wait never reports a release and a release wait never reports a press |
| Polling.AwaitExit | double_translator.py:221-239 | a wait reports exit exactly when the flag was already set (then it consumes nothing) or the last input it consumed was an exit press: a set exit flag takes precedence over the button and the switch |
| Polling.AwaitDecidedByLastPoll | double_translator.py:221-239 | press, release and switch are decided on the last poll consumed with the flag clear; a switch is reported only while the button is still away from the awaited level (during recording: still held), and the new direction is the one that poll read |
| Polling.AwaitQuietBefore | double_translator.py:221-239 | every input consumed before the deciding one left the wait running; a wait runs out exactly when every remaining input is quiet |
| Polling.ChunksIn | double_translator.py:264-268 | every block queued from a stretch of inputs is the samples of one delivery in that stretch |
| Polling.LateEnd | double_translator.py:286-290 | the blocks in flight after a wait are exactly the maximal run of deliveries that follows it, ending at the trace's end or at the first input that is not a delivery |
| Polling.AwaitSkipsLate | double_translator.py:286-290 | the blocks in flight do not change how the following wait ends |
| Polling.ChunksInSplit | double_translator.py:264-268 | the blocks of two adjacent stretches are those of the first followed by those of the second: the queue keeps arrival order |
| Polling.ChunksInEmpty | double_translator.py:301-304 | a stretch yields no block exactly when it holds no delivery |
| Capture.FlattenLength | double_translator.py:303 | the joined recording has as many samples as all the blocks together |
| Capture.FlattenAppend | double_translator.py:303 | joining two runs of blocks is joining their recordings |
| Capture.FlattenAt | double_translator.py:301-303 | sample j of block k sits at the offset of all earlier blocks' samples plus j: the blocks are joined in queue order |
| Capture.FlattenEmpty | double_translator.py:303-304 | the recording is empty exactly when every block is empty (including no blocks at all) |
| Speech.StripLeftResult | double_translator.py:315 | removing leading white space leaves nothing exactly for a blank text, otherwise a text starting with a non-space character |
| Speech.StripRightKeepsFirst | double_translator.py:315 | removing trailing white space keeps a non-space first character |
| Speech.StripEmptyIffBlank | double_translator.py:315 | `strip()` yields the empty string exactly when the text is empty or all white space |
| Speech.StripsToNothing | double_translator.py:315 | the blank-transcript test answers true exactly for blank texts |
| Translator.ReleasedBeforeLoadAppend | double_translator.py:143-145 | appending a log in which every load follows a release keeps that property |
| Translator.DoubleTranslator.ReloadReleasesFirst | double_translator.py:143-145 | a direction change releases the resident models immediately before loading the new ones |
| Translator.DoubleTranslator.EndingOrdered | double_translator.py:252-258 | the effects that follow an interrupted wait (exit sound or reload) keep every load preceded by a release |
| Translator.DoubleTranslator.AfterExtends | double_translator.py:246-353 | an iteration only appends to the effect log and keeps every model load immediately preceded by a release |
| Translator.DoubleTranslator.ConcludedExtends | double_translator.py:301-353 | what follows a released recording only appends to the log and keeps every load preceded by a release |
| Translator.DoubleTranslator.AfterSpeaks | double_translator.py:246-353 | an iteration speaks exactly when a translation was offered and the operator pressed the button |
| Translator.DoubleTranslator.AfterUntranscribed | double_translator.py:251-307 | an iteration that ends in the idle wait, during recording or with an empty recording runs no recogniser |
| Translator.DoubleTranslator.constructor | double_translator.py:241-244 | start-up reads the switch once, loads that direction's models (release first) and announces it; LEDs off, queue empty, no exit request |
| Translator.DoubleTranslator.PlayAudioFile | double_translator.py:178-182 | a present file is played once, a missing one is skipped |
| Translator.DoubleTranslator.PlayModeAnnouncement | double_translator.py:184-186 | plays the direction's mode announcement (`ModeFile`) and nothing else |
| Translator.DoubleTranslator.PlayNoAudio | double_translator.py:188-192 | plays the direction's no-audio announcement (`NoAudioFile`) and nothing else |
| Translator.DoubleTranslator.ExitProgram | double_translator.py:132-138 | the exit sound is played and then the exit flag is set |
| Translator.DoubleTranslator.UnloadModels | double_translator.py:167-173 | recogniser, translator and both tokenizers become empty; the voice and its configuration are left unchanged |
| Translator.DoubleTranslator.LoadModels | double_translator.py:143-166 | afterwards every slot holds the resources of the requested direction, and the log shows the release immediately before the load |
| Translator.DoubleTranslator.AudioCallback | double_translator.py:264-268 | a block is appended to the queue while the gate is open and dropped otherwise |
| Translator.DoubleTranslator.WaitForButtonOrSwitchChange | double_translator.py:221-229 | the idle wait ends as `Await` decides for a press; it returns exit exactly when the exit flag is set; the exit sound is logged exactly when an exit press was consumed |
| Translator.DoubleTranslator.WaitForButtonReleaseOrSwitchChange | double_translator.py:231-239 | the recording wait ends as `Await` decides for a release; exit takes precedence once the flag is set; the queue gains exactly the blocks delivered during the wait, in order |
| Translator.DoubleTranslator.LateBlocks | double_translator.py:264-268 | with the gate closed, every block still in flight reaches the callback and the queue is left unchanged |
| Translator.DoubleTranslator.Record | double_translator.py:260-291 | a fresh queue holds exactly the blocks delivered before the recording wait ended, not those in flight after the gate closed; the stream stop is logged after the wait's effects; afterwards the gate is closed and the red LED is off |
| Translator.DoubleTranslator.DrainQueue | double_translator.py:301-302 | the drained frames are the queued blocks in queue order and the queue is left empty |
| Translator.DoubleTranslator.Transcribe | double_translator.py:194-198 | the transcript is the recogniser's answer for the resident recogniser, the recording and the 16000 Hz rate |
| Translator.DoubleTranslator.Translate | double_translator.py:200-204 | the translation is the translator's answer for the resident translation model and tokenizers |
| Translator.DoubleTranslator.Speak | double_translator.py:206-219 | the translation is spoken with the resident voice and configuration |
| Translator.DoubleTranslator.SwitchDirection | double_translator.py:254-258 | the new direction becomes current, its models are loaded (release first) and it is announced |
| Translator.DoubleTranslator.AwaitPlaybackDecision | double_translator.py:332-345 | the playback wait ends as `Await` decides for a press; the play flag is set exactly on a press; the green LED stays on unless a switch turned it off and reloaded the new direction |
| Translator.DoubleTranslator.OfferTranslation | double_translator.py:330-353 | the green LED is off afterwards; a press speaks the translation with the voice of the direction in force; a switch reloads and announces without speaking; exit speaks nothing |
| Translator.DoubleTranslator.Respond | double_translator.py:309-318 | a blank transcript plays the no-audio announcement of the current direction and consumes no input; any other transcript goes on to delivery; the red LED is off afterwards |
| Translator.DoubleTranslator.Deliver | double_translator.py:320-353 | the punctuated transcript is translated with the current direction's models and offered, with the log and direction as `Closing` says |
| Translator.DoubleTranslator.Conclude | double_translator.py:301-318 | an empty recording plays the no-audio announcement of the current direction; otherwise the recording is the queued blocks joined in order, and is responded to |
| Translator.DoubleTranslator.Capture | double_translator.py:260-353 | a switch during recording drops the recording and reloads; exit during recording ends without a transcription; after a release the recording is exactly the blocks delivered between press and release, and the blocks in flight afterwards are dropped; the stream is stopped before any reload or announcement |
| Translator.DoubleTranslator.Cycle | double_translator.py:246-353 | one iteration: the inputs consumed are as `Traced` says, the log is `After`, the outcome agrees with the engines, both LEDs are off at the end, the exit flag is set exactly when the iteration ends on exit, and progress is made unless the trace ran out |
| Translator.DoubleTranslator.Run | double_translator.py:246-363 | the log only grows and keeps release-before-load; the exit flag is never cleared; the loop ends only on exit (or when the trace runs out); on exit both LEDs are off and the last effect is the shutdown |

## Left out

- Audio and GPIO device discovery and set-up (`double_translator.py:16-91`) and loading the punctuation model (line 125). The devices are the input trace and the effect log.
- Playing and speaking through external processes (the output device, the synthesiser binary and its 22050 Hz raw output), the recogniser, the punctuation restorer and the translation engines: they are function values or log entries, and their internals are not modelled.
- Timing: the 10 ms poll sleep, the eight red-LED blinks of the exit callback, and `gc.collect()`.
- True concurrency. Callbacks run atomically between two polls. An exit press is observed only inside a wait, so the window between a wait returning and the following flag check is not modelled.
- Blocks outside a recording. No stream is open then, so the idle and playback waits skip any delivery in the trace; only the run right after the recording wait counts as in flight.
- The failure to open the input stream (lines 279-281), after which the script goes on without a stream. Also left out is the `KeyboardInterrupt` path; either way the cleanup runs with LEDs off and a shutdown.
- The trace running out (`Unresolved`, `Exhausted`) is an artefact of a finite trace. The device itself polls forever.
- Printed messages.
- The direction is a two-valued datatype. The script's `load_models` branch for a direction string that is neither value cannot arise.
- The six model slots are grouped in one record (`ModelSet`), and model files are named by `Resource` with their paths in `PathOf`.
- Translator.DoubleTranslator.Cycle: the two LEDs being switched off at the start of the idle wait is in the body; the contract states only that they are off at the end of every iteration.
