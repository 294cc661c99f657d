/** The settings the modelled components read, with the values they take when
    the environment sets nothing. Reading the environment is not modelled: a
    Settings value is given. */
module Config {

  datatype Settings = Settings(
    whisperModelSize: string,
    whisperDevice: string,
    whisperComputeType: string,
    diarizationModel: string,
    defaultNumSpeakers: int,
    vadThreshold: real,
    vadMinSpeechDurationMs: int,
    vadMinSilenceDurationMs: int,
    vadSpeechPadMs: int,
    beamSize: int,
    compressionRatioThreshold: real,
    languageDetectionThreshold: real,
    languageDetectionSegments: int,
    maxConcurrency: int)

  /** Every setting at its built-in default. */
  function DefaultSettings(): Settings
  {
    Settings("distil-large-v3", "auto", "auto", "pyannote/speaker-diarization-3.1", 2,
             0.25, 50, 500, 1000, 1, 3.0, 0.5, 5, 5)
  }
}
