/** Translation direction, the pre-recorded announcement files and the
    per-direction model resources of the push-to-talk translator. */
module Modes {

  datatype Option<+T> = None | Some(value: T)

  /** The two language pairs; the switch selects one of them. */
  datatype Direction = EnToEs | EsToEn

  // Pre-recorded announcement files.
  const ModeEnEsFile: string := "./en-es-mode-quieter.wav"
  const ModeEsEnFile: string := "./es-en-mode-quieter.wav"
  const NoAudioEnFile: string := "./no_audio-en-quieter.wav"
  const NoAudioEsFile: string := "./no_audio-es-quieter.wav"
  const ExitFile: string := "./exit1.wav"

  /** The model resources on disk. */
  datatype Resource =
    | VoskEn | VoskEs                      // speech recognisers
    | CtEnEs | CtEsEn                      // translation models
    | SpEnEsSrc | SpEnEsTgt | SpEsEnSrc | SpEsEnTgt   // tokenizers
    | PiperEs | PiperEn                    // synthesis voices
    | PiperConfigEs | PiperConfigEn        // their configurations

  /** The path each resource is loaded from. */
  function PathOf(r: Resource): string
  {
    match r
    case VoskEn => "vosk_models/vosk-model-small-en-us-0.15"
    case VoskEs => "vosk_models/vosk-model-small-es-0.42"
    case CtEnEs => "./CTranslate/en-es-ctranslate2"
    case CtEsEn => "./CTranslate/es-en-ctranslate2"
    case SpEnEsSrc => "./CTranslate/opus-mt-en-es/source.spm"
    case SpEnEsTgt => "./CTranslate/opus-mt-en-es/target.spm"
    case SpEsEnSrc => "./CTranslate/opus-mt-es-en/source.spm"
    case SpEsEnTgt => "./CTranslate/opus-mt-es-en/target.spm"
    case PiperEs => "./piper_models/es_ES-davefx-medium.onnx"
    case PiperEn => "./piper_models/en_US-hfc_male-medium.onnx"
    case PiperConfigEs => "./piper_models/es_ES-davefx-medium.onnx.json"
    case PiperConfigEn => "./piper_models/en_US-hfc_male-medium.onnx.json"
  }

  /** Reading of the direction switch: 1 selects Spanish to English,
      every other reading English to Spanish. */
  function DirectionOf(switchValue: int): (d: Direction)
    ensures d == EsToEn <==> switchValue == 1
    ensures d == EnToEs <==> switchValue != 1
  {
    if switchValue == 1 then EsToEn else EnToEs
  }

  /** The announcement played when a direction becomes active. */
  function ModeFile(d: Direction): (f: string)
    ensures f == ModeEsEnFile <==> d == EsToEn
    ensures f == ModeEnEsFile <==> d == EnToEs
    ensures f in {ModeEnEsFile, ModeEsEnFile}
    ensures f != ExitFile && f != NoAudioEnFile && f != NoAudioEsFile
  {
    if d.EsToEn? then ModeEsEnFile else ModeEnEsFile
  }

  /** The announcement played when nothing was heard; it is in the
      language the operator speaks, i.e. the source language. */
  function NoAudioFile(d: Direction): (f: string)
    ensures f == NoAudioEnFile <==> d == EnToEs
    ensures f == NoAudioEsFile <==> d == EsToEn
    ensures f != ExitFile && f != ModeEnEsFile && f != ModeEsEnFile
  {
    match d
    case EnToEs => NoAudioEnFile
    case EsToEn => NoAudioEsFile
  }

  /** The six model slots: recogniser, translator, source and target
      tokenizers, synthesis voice and its configuration. A slot holds the
      resource loaded into it, or None when it is empty. */
  datatype ModelSet = ModelSet(
    recognizer: Option<Resource>,
    translator: Option<Resource>,
    spSource: Option<Resource>,
    spTarget: Option<Resource>,
    voice: Option<Resource>,
    config: Option<Resource>)

  /** The resources of one direction: recognise the source language,
      translate with the matching model and tokenizers, speak the target
      language. */
  function ModelSetFor(d: Direction): ModelSet
  {
    match d
    case EnToEs => ModelSet(Some(VoskEn), Some(CtEnEs), Some(SpEnEsSrc), Some(SpEnEsTgt),
                            Some(PiperEs), Some(PiperConfigEs))
    case EsToEn => ModelSet(Some(VoskEs), Some(CtEsEn), Some(SpEsEnSrc), Some(SpEsEnTgt),
                            Some(PiperEn), Some(PiperConfigEn))
  }
}
