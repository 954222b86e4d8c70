/**
 * One call to the logger's `write(message, modifiers, color)` as the image
 * saver, the request handler and the menu make it.  Those components only
 * hand messages to the logger, so their models keep the calls they make as a
 * trace of `Note` values; the class `Logging.Scribe` models what one such call
 * does.  Interpolated exception texts and rounded numbers are not kept.
 */
module Reports {
  import opened Wrappers

  datatype Message =
    | IntervalWait(wait: real)                 // minimum request interval not met, waiting
    | RequestSent(url: string)
    | ResponseReceived(duration: real)
    | RetryWarning(retryCount: int)            // could not retrieve response, retrying
    | RetrieveError                            // error retrieving response (before re-raising)
    | OutputDirError                           // error creating output directory
    | ModeNotDiscovered
    | ProcessingError(format: string)          // frame probe stopped by an unexpected error
    | SavingError(format: string)
    | ImageSaved(fileName: string, format: string)
    | OutputPathUndefined                      // warning: output path not defined
    | Plain(text: string)                      // a literal message

  datatype Note = Note(message: Message, modifiers: Option<string>, color: Option<string>)
}
