/**
 * The enumeration codes of the transcription engine's C interface
 * (include/bobrwhisper.h). The engine itself is not part of this model:
 * its operations appear as boolean or outcome parameters of the methods
 * that call them.
 */
module Engine {

  // bobrwhisper_status_e
  const STATUS_IDLE: int := 0
  const STATUS_RECORDING: int := 1
  const STATUS_TRANSCRIBING: int := 2
  const STATUS_FORMATTING: int := 3
  const STATUS_READY: int := 4
  const STATUS_ERROR: int := 5
}
