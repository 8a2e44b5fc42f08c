/** Value types shared by every variant of the player: the optional reader source,
    the abstract view of the framework's transport, and what the open dialog yields. */
module AudioTypes {

  datatype Option<+T> = None | Some(value: T)

  /** The framework's AudioTransportSource, reduced to what the player reads and writes:
      whether it is playing and its position, in milliseconds. */
  datatype TransportSource = TransportSource(playing: bool, position: nat)

  /** The AudioFormatReaderSource bound to an opened file, with its looping flag. */
  datatype ReaderSource = ReaderSource(file: string, looping: bool)

  /** What the asynchronous file dialog and the decoder together yield:
      no file chosen, a file the decoder has no reader for, or a reader for a file. */
  datatype OpenOutcome = NoFileChosen | NoReader(file: string) | ReaderCreated(file: string)

  /** A transport that was never started: not playing, at position 0. */
  const IdleTransport := TransportSource(false, 0)

  /** A reader source freshly built for `file`; the framework creates it not looping. */
  function NewReader(file: string): (r: ReaderSource)
    ensures r.file == file && !r.looping
  {
    ReaderSource(file, false)
  }
}
