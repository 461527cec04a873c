/** The push-to-talk controller: the module globals of the translator
    script as the fields of one object, and the main loop split into the
    phases of one iteration. */
module Translator {
  import opened Modes
  import opened Polling
  import opened Capture
  import opened Speech

  /** Capture rate handed to the recogniser. */
  const SampleRate: int := 16000

  /** What the controller does to the world outside it, in order. */
  datatype Effect =
    | ModelsReleased                    // recogniser, translator and tokenizers dropped
    | ModelsLoaded(dir: Direction)      // the slots filled for a direction
    | Played(file: string)              // a pre-recorded announcement played
    | StreamStopped                     // the input stream stopped and closed
    | Recognized(audio: seq<int>)       // the recogniser run on a recording
    | Translated(text: string)          // the translator run on a text
    | Spoke(text: string, voice: Resource, config: Resource)
    | Shutdown                          // the host powered off

  /** Loading always comes straight after releasing the previous set, so
      two model sets are never resident together. */
  ghost predicate ReleasedBeforeLoad(log: seq<Effect>)
  {
    forall i :: 0 <= i < |log| && log[i].ModelsLoaded? ==> 0 < i && log[i - 1] == ModelsReleased
  }

  lemma ReleasedBeforeLoadAppend(a: seq<Effect>, b: seq<Effect>)
    requires ReleasedBeforeLoad(b)
    ensures ReleasedBeforeLoad(a) ==> ReleasedBeforeLoad(a + b)
  {
    if ReleasedBeforeLoad(a) {
      forall i | 0 <= i < |a + b| && (a + b)[i].ModelsLoaded?
        ensures 0 < i && (a + b)[i - 1] == ModelsReleased
      {
        if |a| <= i {
          assert (a + b)[i] == b[i - |a|];
          if |a| < i {
            assert (a + b)[i - 1] == b[i - 1 - |a|];
          }
        }
      }
    }
  }

  /** No translation was spoken among the effects from index `n` on. */
  ghost predicate SilentSince(log: seq<Effect>, n: nat)
  {
    forall i :: n <= i < |log| ==> !log[i].Spoke?
  }

  /** The recogniser was not run among the effects from index `n` on. */
  ghost predicate UntranscribedSince(log: seq<Effect>, n: nat)
  {
    forall i :: n <= i < |log| ==> !log[i].Recognized?
  }

  /** A wait that was interrupted rather than answered: exit, a switch away
      from direction `d0`, or the observations running out. */
  predicate Interrupting(w: Decision, d0: Direction)
  {
    w == Exit || w == Unresolved || (w.Switched? && w.dir != d0)
  }

  /** How one iteration of the main loop ends. */
  datatype Outcome =
    | IdleEnded(decision: Decision)       // the idle wait was interrupted
    | RecordingEnded(decision: Decision)  // the recording wait was interrupted: the recording is dropped
    | NoAudio                             // released, but nothing was captured
    | NoSpeechHeard(audio: seq<int>)      // the transcript is blank
    | Offered(audio: seq<int>, text: string, translation: string, decision: Decision)
  {
    /** The direction in force afterwards, when `d0` was in force before. */
    function NewDirection(d0: Direction): Direction
    {
      if !NoAudio? && !NoSpeechHeard? && decision.Switched? then decision.dir else d0
    }

    /** The iteration ended on the exit request. */
    predicate Exits()
    {
      !NoAudio? && !NoSpeechHeard? && decision == Exit
    }

    /** The iteration ran out of observations. */
    predicate Exhausted()
    {
      !NoAudio? && !NoSpeechHeard? && decision == Unresolved
    }

    /** The translation was played. */
    predicate Played()
    {
      Offered? && decision == Pressed
    }
  }

  class DoubleTranslator {
    // The hardware as observed, the announcement files present on disk and
    // the external engines; none of them changes during a run.
    const inputs: seq<Input>
    const assets: set<string>
    const recognize: (string, seq<int>, int) -> string
    const punctuate: string -> string
    const translateWith: (string, string, string, string) -> string

    var pos: nat   // the next input to observe

    var currentDirection: Direction
    var models: ModelSet   // the six model slots
    var redLed: bool
    var greenLed: bool
    var q: seq<seq<int>>
    var recording: bool
    var exitRequested: bool
    var log: seq<Effect>

    /** The resident models are those of the current direction. */
    ghost predicate Valid()
      reads this`pos, this`currentDirection, this`models
    {
      pos <= |inputs| && models == ModelSetFor(currentDirection)
    }

    /** Playing a file that is missing is reported and skipped. */
    function Play(file: string): seq<Effect>
    {
      if file in assets then [Played(file)] else []
    }

    /** Switching to a direction: reload, then announce it. */
    function Reload(d: Direction): seq<Effect>
    {
      [ModelsReleased, ModelsLoaded(d)] + Play(ModeFile(d))
    }

    /** The log after a wait that started with log `before`: the exit
        sound was added when the wait consumed the exit press. */
    function AfterWait(before: seq<Effect>, exitBefore: bool, exitAfter: bool): seq<Effect>
    {
      if exitAfter && !exitBefore then before + Play(ExitFile) else before
    }

    /** What follows a wait that ended with `w`: the exit sound, or the
        reload for a new direction. */
    function Ending(w: Decision): seq<Effect>
    {
      match w
      case Exit => Play(ExitFile)
      case Switched(d) => Reload(d)
      case _ => []
    }

    /** What follows the playback decision `w` on `translation`, with
        direction `d0` in force while deciding. */
    function Closing(d0: Direction, translation: string, w: Decision): seq<Effect>
    {
      if w == Pressed then [SpeechWith(d0, translation)] else Ending(w)
    }

    function HeardWith(d: Direction, audio: seq<int>): string
    {
      recognize(PathOf(ModelSetFor(d).recognizer.value), audio, SampleRate)
    }

    function TranslationWith(d: Direction, text: string): string
    {
      var m := ModelSetFor(d);
      translateWith(PathOf(m.translator.value), PathOf(m.spSource.value), PathOf(m.spTarget.value), text)
    }

    function SpeechWith(d: Direction, text: string): Effect
    {
      Spoke(text, ModelSetFor(d).voice.value, ModelSetFor(d).config.value)
    }

    /** The effect log after an iteration that started with log `before`
        and direction `d0` and ended with `r`. An exit press during the
        recording sounds before the stream stops; a reload follows it. */
    function After(before: seq<Effect>, d0: Direction, r: Outcome): seq<Effect>
    {
      match r
      case IdleEnded(w) => before + Ending(w)
      case RecordingEnded(w) =>
        if w == Exit then before + Play(ExitFile) + [StreamStopped]
        else if w.Switched? then before + [StreamStopped] + Reload(w.dir)
        else before + [StreamStopped]
      case _ => Concluded(before + [StreamStopped], d0, r)
    }

    /** The effect log after a released recording, from log `before` at
        the moment the stream stopped. */
    function Concluded(before: seq<Effect>, d0: Direction, r: Outcome): seq<Effect>
    {
      match r
      case NoAudio => before + Play(NoAudioFile(d0))
      case NoSpeechHeard(audio) => before + [Recognized(audio)] + Play(NoAudioFile(d0))
      case Offered(audio, text, translation, w) =>
        before + [Recognized(audio)] + [Translated(text)] + Closing(d0, translation, w)
      case _ => before
    }

    /** What an outcome reports agrees with the engines, given direction
        `d0` at the start of the iteration. */
    ghost predicate Consistent(d0: Direction, r: Outcome)
    {
      match r
      case IdleEnded(w) => Interrupting(w, d0)
      case RecordingEnded(w) => Interrupting(w, d0)
      case NoAudio => true
      case NoSpeechHeard(audio) => audio != [] && IsBlank(HeardWith(d0, audio))
      case Offered(audio, text, translation, w) =>
        && audio != [] && !IsBlank(HeardWith(d0, audio))
        && text == punctuate(HeardWith(d0, audio))
        && translation == TranslationWith(d0, text)
        && (w == Pressed || Interrupting(w, d0))
    }

    /** The recording phase consumed the observations from `start` to
        `end`: the recording wait ended at `release` as `Await` decides,
        and the blocks still in flight up to `LateEnd` were dropped. After
        a release the recording holds exactly the blocks delivered between
        `start` and `release`, and the playback wait, if any, ended as
        `Await` decides. */
    ghost predicate Recorded(start: nat, end: nat, release: nat, d0: Direction, r: Outcome)
      requires start <= |inputs|
    {
      var rec := Await(inputs, start, false, d0, false);
      var stop := LateEnd(inputs, rec.next);
      && rec.next == release
      && if r.RecordingEnded? then rec.decision == r.decision && end == stop
         else
           && rec.decision == Released
           && (r.NoAudio? ==> Flatten(ChunksIn(inputs, start, release)) == [] && end == stop)
           && (r.NoSpeechHeard? ==> r.audio == Flatten(ChunksIn(inputs, start, release)) && end == stop)
           && (r.Offered? ==>
                 && r.audio == Flatten(ChunksIn(inputs, start, release))
                 && Await(inputs, stop, false, d0, true) == WaitEnd(r.decision, end))
    }

    /** A whole iteration consumed the observations from `start` to `end`:
        the idle wait ended as `Await` decides, and after a press at
        `press` the recording phase went as `Recorded` says. */
    ghost predicate Traced(start: nat, end: nat, press: nat, release: nat, d0: Direction, r: Outcome)
      requires start <= |inputs|
    {
      var idle := Await(inputs, start, false, d0, true);
      if r.IdleEnded? then idle == WaitEnd(r.decision, end)
      else idle == WaitEnd(Pressed, press) && Recorded(press, end, release, d0, r)
    }

    /** A reload releases the old models before it loads the new ones. */
    lemma ReloadReleasesFirst(d: Direction)
      ensures ReleasedBeforeLoad(Reload(d))
    {
      var r := Reload(d);
      assert r[0] == ModelsReleased && r[1] == ModelsLoaded(d);
      assert forall i :: 2 <= i < |r| ==> r[i] == Played(ModeFile(d));
    }

    /** An iteration only appends to the log, and never loads models
        without releasing the resident ones first. */
    lemma {:induction false} AfterExtends(before: seq<Effect>, d0: Direction, r: Outcome)
      ensures before <= After(before, d0, r)
      ensures ReleasedBeforeLoad(before) ==> ReleasedBeforeLoad(After(before, d0, r))
    {
      match r
      case IdleEnded(w) =>
        EndingOrdered(before, w);
      case RecordingEnded(w) =>
        if w == Exit {
          ReleasedBeforeLoadAppend(before, Play(ExitFile));
          ReleasedBeforeLoadAppend(before + Play(ExitFile), [StreamStopped]);
        } else {
          ReleasedBeforeLoadAppend(before, [StreamStopped]);
          EndingOrdered(before + [StreamStopped], w);
        }
      case _ =>
        ReleasedBeforeLoadAppend(before, [StreamStopped]);
        ConcludedExtends(before + [StreamStopped], d0, r);
    }

    /** The part after a released recording only appends, and keeps loads
        after releases. */
    lemma {:induction false} ConcludedExtends(before: seq<Effect>, d0: Direction, r: Outcome)
      ensures before <= Concluded(before, d0, r)
      ensures ReleasedBeforeLoad(before) ==> ReleasedBeforeLoad(Concluded(before, d0, r))
    {
      match r
      case IdleEnded(_) =>
      case RecordingEnded(_) =>
      case NoAudio =>
        ReleasedBeforeLoadAppend(before, Play(NoAudioFile(d0)));
      case NoSpeechHeard(audio) =>
        ReleasedBeforeLoadAppend(before, [Recognized(audio)]);
        ReleasedBeforeLoadAppend(before + [Recognized(audio)], Play(NoAudioFile(d0)));
      case Offered(audio, text, translation, w) =>
        ReleasedBeforeLoadAppend(before, [Recognized(audio)]);
        ReleasedBeforeLoadAppend(before + [Recognized(audio)], [Translated(text)]);
        var mid := before + [Recognized(audio)] + [Translated(text)];
        if w == Pressed {
          ReleasedBeforeLoadAppend(mid, [SpeechWith(d0, translation)]);
        } else {
          EndingOrdered(mid, w);
        }
    }

    /** An iteration speaks exactly when the operator chose playback. */
    lemma {:induction false} AfterSpeaks(before: seq<Effect>, d0: Direction, r: Outcome)
      ensures SilentSince(After(before, d0, r), |before|) <==> !r.Played()
    {
      var log := After(before, d0, r);
      if r.Played() {
        assert log[|log| - 1] == SpeechWith(d0, r.translation);
      }
    }

    /** An iteration that ends before a recording was taken transcribes
        nothing. */
    lemma AfterUntranscribed(before: seq<Effect>, d0: Direction, r: Outcome)
      requires r.IdleEnded? || r.RecordingEnded? || r.NoAudio?
      ensures UntranscribedSince(After(before, d0, r), |before|)
    {
      match r
      case IdleEnded(w) =>
        UntranscribedAppend(before, Ending(w), |before|);
      case RecordingEnded(w) =>
        if w == Exit {
          UntranscribedAppend(before, Play(ExitFile), |before|);
          UntranscribedAppend(before + Play(ExitFile), [StreamStopped], |before|);
        } else {
          UntranscribedAppend(before, [StreamStopped], |before|);
          UntranscribedAppend(before + [StreamStopped], Ending(w), |before|);
        }
      case NoAudio =>
        UntranscribedAppend(before, [StreamStopped], |before|);
        UntranscribedAppend(before + [StreamStopped], Play(NoAudioFile(d0)), |before|);
    }

    lemma UntranscribedAppend(a: seq<Effect>, b: seq<Effect>, n: nat)
      requires n <= |a| && UntranscribedSince(a, n)
      requires forall i :: 0 <= i < |b| ==> !b[i].Recognized?
      ensures UntranscribedSince(a + b, n)
    {
      forall i | n <= i < |a + b|
        ensures !(a + b)[i].Recognized?
      {
        if i >= |a| {
          assert (a + b)[i] == b[i - |a|];
        }
      }
    }

    lemma EndingOrdered(before: seq<Effect>, w: Decision)
      ensures ReleasedBeforeLoad(before) ==> ReleasedBeforeLoad(before + Ending(w))
    {
      if w.Switched? {
        ReloadReleasesFirst(w.dir);
      }
      ReleasedBeforeLoadAppend(before, Ending(w));
    }

    /** Start-up: read the switch once, load that direction's models and
        announce it. */
    constructor (inputs: seq<Input>, switchValue: int, assets: set<string>,
                 recognize: (string, seq<int>, int) -> string,
                 punctuate: string -> string,
                 translateWith: (string, string, string, string) -> string)
      ensures Valid() && ReleasedBeforeLoad(log)
      ensures this.inputs == inputs && this.assets == assets && this.recognize == recognize
      ensures this.punctuate == punctuate && this.translateWith == translateWith
      ensures pos == 0 && currentDirection == DirectionOf(switchValue)
      ensures log == Reload(currentDirection)
      ensures !redLed && !greenLed && !recording && !exitRequested && q == []
    {
      this.inputs := inputs;
      this.assets := assets;
      this.recognize := recognize;
      this.punctuate := punctuate;
      this.translateWith := translateWith;
      pos := 0;
      models := ModelSet(None, None, None, None, None, None);
      redLed, greenLed := false, false;
      q, recording, exitRequested := [], false, false;
      log := [];
      currentDirection := DirectionOf(switchValue);
      new;
      LoadModels(currentDirection);
      PlayModeAnnouncement(currentDirection);
      ReloadReleasesFirst(currentDirection);
    }

    method PlayAudioFile(file: string)
      modifies this`log
      ensures log == old(log) + Play(file)
    {
      if file in assets {
        log := log + [Played(file)];
      }
    }

    method PlayModeAnnouncement(d: Direction)
      modifies this`log
      ensures log == old(log) + Play(ModeFile(d))
    {
      var file := if d.EsToEn? then ModeEsEnFile else ModeEnEsFile;
      PlayAudioFile(file);
    }

    method PlayNoAudio(d: Direction)
      modifies this`log
      ensures log == old(log) + Play(NoAudioFile(d))
    {
      if d == EnToEs {
        PlayAudioFile(NoAudioEnFile);
      } else {
        PlayAudioFile(NoAudioEsFile);
      }
    }

    /** The exit button's callback; the flag it sets is never cleared. */
    method ExitProgram()
      modifies this`exitRequested, this`log
      ensures exitRequested
      ensures log == old(log) + Play(ExitFile)
    {
      PlayAudioFile(ExitFile);
      exitRequested := true;
    }

    /** Drops the recogniser, the translator and both tokenizers; the
        voice and its configuration stay as they are. */
    method UnloadModels()
      modifies this`models, this`log
      ensures models.recognizer == None && models.translator == None
      ensures models.spSource == None && models.spTarget == None
      ensures models.voice == old(models.voice) && models.config == old(models.config)
      ensures log == old(log) + [ModelsReleased]
    {
      models := models.(recognizer := None, translator := None, spSource := None, spTarget := None);
      log := log + [ModelsReleased];
    }

    /** Releases the resident models first, then fills every slot for `d`. */
    method LoadModels(d: Direction)
      modifies this`models, this`log
      ensures models == ModelSetFor(d)
      ensures log == old(log) + [ModelsReleased, ModelsLoaded(d)]
    {
      UnloadModels();
      match d {
      case EnToEs =>
        models := ModelSet(Some(VoskEn), Some(CtEnEs), Some(SpEnEsSrc), Some(SpEnEsTgt),
                           Some(PiperEs), Some(PiperConfigEs));
      case EsToEn =>
        models := ModelSet(Some(VoskEs), Some(CtEsEn), Some(SpEsEnSrc), Some(SpEsEnTgt),
                           Some(PiperEn), Some(PiperConfigEn));
      }
      log := log + [ModelsLoaded(d)];
    }

    /** The audio callback: a block is queued only while recording. */
    method AudioCallback(samples: seq<int>)
      modifies this`q
      ensures q == if recording then old(q) + [samples] else old(q)
    {
      if recording {
        q := q + [samples];
      }
    }

    /** Idle wait: a press, a switch away from `last`, or exit. */
    method WaitForButtonOrSwitchChange(last: Direction) returns (d: Decision)
      requires pos <= |inputs|
      modifies this`pos, this`exitRequested, this`log
      ensures WaitEnd(d, pos) == Await(inputs, old(pos), old(exitRequested), last, true)
      ensures exitRequested == (d == Exit)
      ensures log == AfterWait(old(log), old(exitRequested), exitRequested)
    {
      while !exitRequested && pos < |inputs|
        invariant pos <= |inputs|
        invariant Await(inputs, pos, exitRequested, last, true)
               == Await(inputs, old(pos), old(exitRequested), last, true)
        invariant log == AfterWait(old(log), old(exitRequested), exitRequested)
        decreases |inputs| - pos
      {
        var input := inputs[pos];
        pos := pos + 1;
        match input
        case ExitPress =>
          ExitProgram();
        case Chunk(_) =>
          // no stream is open while idle
        case Poll(held, v) =>
          if held {
            return Pressed;
          }
          var newDirection := DirectionOf(v);
          if newDirection != last {
            return Switched(newDirection);
          }
      }
      if exitRequested {
        return Exit;
      }
      return Unresolved;
    }

    /** Recording wait: a release, a switch away from `last` while the
        button is still held, or exit; blocks delivered meanwhile queue up. */
    method WaitForButtonReleaseOrSwitchChange(last: Direction) returns (d: Decision)
      requires pos <= |inputs| && recording
      modifies this`pos, this`exitRequested, this`log, this`q
      ensures WaitEnd(d, pos) == Await(inputs, old(pos), old(exitRequested), last, false)
      ensures exitRequested == (d == Exit)
      ensures log == AfterWait(old(log), old(exitRequested), exitRequested)
      ensures q == old(q) + ChunksIn(inputs, old(pos), pos)
    {
      while !exitRequested && pos < |inputs|
        invariant old(pos) <= pos <= |inputs|
        invariant Await(inputs, pos, exitRequested, last, false)
               == Await(inputs, old(pos), old(exitRequested), last, false)
        invariant log == AfterWait(old(log), old(exitRequested), exitRequested)
        invariant q == old(q) + ChunksIn(inputs, old(pos), pos)
        decreases |inputs| - pos
      {
        var input := inputs[pos];
        pos := pos + 1;
        match input
        case ExitPress =>
          ExitProgram();
        case Chunk(samples) =>
          AudioCallback(samples);
        case Poll(held, v) =>
          if !held {
            return Released;
          }
          var newDirection := DirectionOf(v);
          if newDirection != last {
            return Switched(newDirection);
          }
      }
      if exitRequested {
        return Exit;
      }
      return Unresolved;
    }

    /** Between closing the gate and stopping the stream, the blocks still
        in flight reach the callback and are dropped. */
    method LateBlocks()
      requires pos <= |inputs| && !recording
      modifies this`pos, this`q
      ensures pos == LateEnd(inputs, old(pos))
      ensures q == old(q)
    {
      while pos < |inputs| && inputs[pos].Chunk?
        invariant old(pos) <= pos <= |inputs|
        invariant LateEnd(inputs, pos) == LateEnd(inputs, old(pos))
        invariant q == old(q)
        decreases |inputs| - pos
      {
        AudioCallback(inputs[pos].samples);
        pos := pos + 1;
      }
    }

    /** One recording: open the gate, wait, then close the gate before the
        stream is stopped, so that the queue holds exactly the blocks
        delivered before the wait ended at `release`. */
    method Record() returns (d: Decision, ghost release: nat)
      requires pos <= |inputs|
      modifies this`q, this`recording, this`redLed, this`pos, this`exitRequested, this`log
      ensures WaitEnd(d, release) == Await(inputs, old(pos), old(exitRequested), currentDirection, false)
      ensures pos == LateEnd(inputs, release)
      ensures exitRequested == (d == Exit)
      ensures log == AfterWait(old(log), old(exitRequested), exitRequested) + [StreamStopped]
      ensures q == ChunksIn(inputs, old(pos), release)
      ensures !recording && !redLed
    {
      q := [];
      recording := true;
      redLed := true;
      d := WaitForButtonReleaseOrSwitchChange(currentDirection);
      release := pos;
      recording := false;
      LateBlocks();
      log := log + [StreamStopped];
      redLed := false;
    }

    /** Empties the queue in arrival order. */
    method DrainQueue() returns (frames: seq<seq<int>>)
      modifies this`q
      ensures frames == old(q) && q == []
    {
      frames := [];
      while q != []
        invariant frames + q == old(q)
        decreases |q|
      {
        assert frames + q == (frames + [q[0]]) + q[1..];
        frames := frames + [q[0]];
        q := q[1..];
      }
    }

    method Transcribe(audio: seq<int>) returns (text: string)
      requires models.recognizer.Some?
      modifies this`log
      ensures text == recognize(PathOf(models.recognizer.value), audio, SampleRate)
      ensures log == old(log) + [Recognized(audio)]
    {
      text := recognize(PathOf(models.recognizer.value), audio, SampleRate);
      log := log + [Recognized(audio)];
    }

    method Translate(text: string) returns (translation: string)
      requires models.translator.Some? && models.spSource.Some? && models.spTarget.Some?
      modifies this`log
      ensures translation == translateWith(PathOf(models.translator.value), PathOf(models.spSource.value), PathOf(models.spTarget.value), text)
      ensures log == old(log) + [Translated(text)]
    {
      translation := translateWith(PathOf(models.translator.value), PathOf(models.spSource.value), PathOf(models.spTarget.value), text);
      log := log + [Translated(text)];
    }

    method Speak(text: string)
      requires models.voice.Some? && models.config.Some?
      modifies this`log
      ensures log == old(log) + [Spoke(text, models.voice.value, models.config.value)]
    {
      log := log + [Spoke(text, models.voice.value, models.config.value)];
    }

    /** Adopt a new direction: reload the models and announce it. */
    method SwitchDirection(d: Direction)
      requires Valid()
      modifies this`currentDirection, this`models, this`log
      ensures Valid() && currentDirection == d
      ensures log == old(log) + Reload(d)
    {
      currentDirection := d;
      LoadModels(currentDirection);
      PlayModeAnnouncement(currentDirection);
    }

    /** With a translation ready and the green light on: a press plays it,
        a switch turns the light off and changes direction instead, exit
        leaves without either. */
    method AwaitPlaybackDecision() returns (playTranslation: bool, d: Decision)
      requires Valid() && greenLed
      modifies this`pos, this`exitRequested, this`log, this`greenLed, this`currentDirection
      modifies this`models
      ensures Valid()
      ensures WaitEnd(d, pos) == Await(inputs, old(pos), old(exitRequested), old(currentDirection), true)
      ensures playTranslation <==> d == Pressed
      ensures exitRequested == (d == Exit)
      ensures currentDirection == if d.Switched? then d.dir else old(currentDirection)
      ensures greenLed == !d.Switched?
      ensures log == if d.Switched? then old(log) + Reload(d.dir) else AfterWait(old(log), old(exitRequested), exitRequested)
    {
      playTranslation := false;
      while !exitRequested && pos < |inputs|
        invariant Valid() && greenLed && currentDirection == old(currentDirection)
        invariant Await(inputs, pos, exitRequested, currentDirection, true)
               == Await(inputs, old(pos), old(exitRequested), currentDirection, true)
        invariant log == AfterWait(old(log), old(exitRequested), exitRequested)
        decreases |inputs| - pos
      {
        var input := inputs[pos];
        pos := pos + 1;
        match input
        case ExitPress =>
          ExitProgram();
        case Chunk(_) =>
          // the stream was closed after recording
        case Poll(held, v) =>
          if held {
            playTranslation := true;
            return playTranslation, Pressed;
          }
          var newDirection := DirectionOf(v);
          if newDirection != currentDirection {
            greenLed := false;
            SwitchDirection(newDirection);
            playTranslation := false;
            return playTranslation, Switched(newDirection);
          }
      }
      d := if exitRequested then Exit else Unresolved;
    }

    /** With the translation ready: light the green LED and wait; a press
        speaks the translation, a switch changes direction instead, exit
        speaks nothing. The green LED is off afterwards. */
    method OfferTranslation(translation: string) returns (d: Decision)
      requires Valid() && !exitRequested
      modifies this`pos, this`exitRequested, this`log, this`greenLed, this`currentDirection
      modifies this`models
      ensures Valid() && !greenLed
      ensures WaitEnd(d, pos) == Await(inputs, old(pos), false, old(currentDirection), true)
      ensures exitRequested == (d == Exit)
      ensures currentDirection == if d.Switched? then d.dir else old(currentDirection)
      ensures log == old(log) + Closing(old(currentDirection), translation, d)
    {
      greenLed := true;
      var playTranslation;
      playTranslation, d := AwaitPlaybackDecision();
      greenLed := false;
      if exitRequested {
        return;
      }
      if !playTranslation {
        return;
      }
      Speak(translation);
    }

    /** A non-empty recording: transcribe it; a blank transcript is
        reported, anything else is delivered. */
    method Respond(audio: seq<int>) returns (r: Outcome)
      requires Valid() && audio != [] && !exitRequested && !greenLed
      modifies this`pos, this`exitRequested, this`log, this`redLed, this`greenLed, this`currentDirection
      modifies this`models
      ensures Valid() && !redLed && !greenLed
      ensures (r.NoSpeechHeard? || r.Offered?) && r.audio == audio
      ensures Consistent(old(currentDirection), r)
      ensures log == Concluded(old(log), old(currentDirection), r)
      ensures currentDirection == r.NewDirection(old(currentDirection))
      ensures exitRequested <==> r.Exits()
      ensures r.NoSpeechHeard? ==> pos == old(pos)
      ensures r.Offered? ==> WaitEnd(r.decision, pos) == Await(inputs, old(pos), false, old(currentDirection), true)
    {
      redLed := true;
      var text := Transcribe(audio);
      redLed := false;
      var blank := StripsToNothing(text);
      if blank {
        PlayNoAudio(currentDirection);
        return NoSpeechHeard(audio);
      }
      r := Deliver(audio, text);
    }

    /** A transcript with words in it: punctuate and translate it, then
        offer the translation for playback. */
    method Deliver(audio: seq<int>, heard: string) returns (r: Outcome)
      requires Valid() && !exitRequested && !greenLed
      modifies this`pos, this`exitRequested, this`log, this`redLed, this`greenLed, this`currentDirection
      modifies this`models
      ensures Valid() && !redLed && !greenLed
      ensures r.Offered? && r.audio == audio && r.text == punctuate(heard)
      ensures r.translation == TranslationWith(old(currentDirection), r.text)
      ensures WaitEnd(r.decision, pos) == Await(inputs, old(pos), false, old(currentDirection), true)
      ensures log == old(log) + [Translated(r.text)] + Closing(old(currentDirection), r.translation, r.decision)
      ensures currentDirection == r.NewDirection(old(currentDirection))
      ensures exitRequested <==> r.Exits()
    {
      var text := punctuate(heard);
      redLed := true;
      var translation := Translate(text);
      redLed := false;
      var d := OfferTranslation(translation);
      r := Offered(audio, text, translation, d);
    }

    /** After the release: drain the queue and join the blocks; an empty
        recording is reported, anything else is responded to. */
    method Conclude() returns (r: Outcome)
      requires Valid() && !exitRequested && !redLed && !greenLed
      modifies this`q, this`pos, this`exitRequested, this`log, this`redLed, this`greenLed
      modifies this`currentDirection, this`models
      ensures Valid() && !redLed && !greenLed
      ensures r.NoAudio? || r.NoSpeechHeard? || r.Offered?
      ensures r.NoAudio? ==> Flatten(old(q)) == [] && pos == old(pos)
      ensures !r.NoAudio? ==> r.audio == Flatten(old(q))
      ensures Consistent(old(currentDirection), r)
      ensures log == Concluded(old(log), old(currentDirection), r)
      ensures currentDirection == r.NewDirection(old(currentDirection))
      ensures exitRequested <==> r.Exits()
      ensures r.NoSpeechHeard? ==> pos == old(pos)
      ensures r.Offered? ==> WaitEnd(r.decision, pos) == Await(inputs, old(pos), false, old(currentDirection), true)
    {
      var frames := DrainQueue();
      var audio := Flatten(frames);
      if |audio| == 0 {
        PlayNoAudio(currentDirection);
        return NoAudio;
      }
      r := Respond(audio);
    }

    /** From the press to idle: record, drain the queue and respond, unless
        the recording is interrupted. */
    method Capture() returns (r: Outcome, ghost release: nat)
      requires Valid() && !exitRequested && !recording && !greenLed
      modifies this
      ensures Valid() && !recording && !redLed && !greenLed
      ensures !r.IdleEnded?
      ensures Consistent(old(currentDirection), r)
      ensures Recorded(old(pos), pos, release, old(currentDirection), r)
      ensures log == After(old(log), old(currentDirection), r)
      ensures currentDirection == r.NewDirection(old(currentDirection))
      ensures exitRequested <==> r.Exits()
    {
      var d;
      d, release := Record();
      if d != Released {
        if d.Switched? {
          SwitchDirection(d.dir);
        }
        return RecordingEnded(d), release;
      }
      r := Conclude();
    }

    /** One iteration of the main loop, from idle back to idle (or out). */
    method Cycle() returns (r: Outcome, ghost press: nat, ghost release: nat)
      requires Valid() && !exitRequested && !recording
      modifies this
      ensures Valid() && !recording && !redLed && !greenLed
      ensures Consistent(old(currentDirection), r)
      ensures Traced(old(pos), pos, press, release, old(currentDirection), r)
      ensures log == After(old(log), old(currentDirection), r)
      ensures currentDirection == r.NewDirection(old(currentDirection))
      ensures exitRequested <==> r.Exits()
      ensures old(pos) < pos || r.Exhausted()
      ensures r.Exhausted() ==> pos == |inputs|
    {
      redLed := false;
      greenLed := false;
      var d := WaitForButtonOrSwitchChange(currentDirection);
      press, release := pos, pos;
      if d != Pressed {
        if d.Switched? {
          SwitchDirection(d.dir);
        }
        return IdleEnded(d), press, release;
      }
      r, release := Capture();
    }

    /** The main loop: iterate until exit is requested (or the observations
        run out); on exit both lights go off and the host is shut down. */
    method Run()
      requires Valid() && !recording
      modifies this
      ensures Valid()
      ensures old(log) <= log
      ensures ReleasedBeforeLoad(old(log)) ==> ReleasedBeforeLoad(log)
      ensures old(exitRequested) ==> exitRequested
      ensures exitRequested || pos == |inputs|
      ensures exitRequested ==> !redLed && !greenLed && log != [] && log[|log| - 1] == Shutdown
    {
      var ended := false;
      while !exitRequested && !ended
        invariant Valid() && !recording
        invariant old(log) <= log
        invariant ReleasedBeforeLoad(old(log)) ==> ReleasedBeforeLoad(log)
        invariant old(exitRequested) ==> exitRequested
        invariant ended ==> pos == |inputs|
        decreases |inputs| - pos, !ended
      {
        ghost var before, d0 := log, currentDirection;
        var r, press, release := Cycle();
        AfterExtends(before, d0, r);
        ended := r.Exhausted();
      }
      if exitRequested {
        redLed := false;
        greenLed := false;
        ReleasedBeforeLoadAppend(log, [Shutdown]);
        log := log + [Shutdown];
      }
    }
  }
}
