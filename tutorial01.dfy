/** The first playing-sound-files tutorial's main component: Open, Play and Stop driving
    the four-state transport controller. */
module PlayingSoundFilesTutorial01 {
  import opened AudioTypes
  import TutorialController
  import AudioBlock

  type TransportState = TutorialController.TransportState

  class MainContentComponent {
    var state: TransportState
    var playEnabled: bool
    var stopEnabled: bool
    var transport: TransportSource
    var readerSource: Option<ReaderSource>

    /** The transport controller's fields as one value. */
    ghost function Controls(): TutorialController.Controls
      reads this
    {
      TutorialController.Controls(state, playEnabled, stopEnabled, transport, readerSource)
    }

    constructor ()
      ensures Controls() == TutorialController.Initial
    {
      state := TutorialController.Stopped;
      playEnabled, stopEnabled := false, false;
      transport := IdleTransport;
      readerSource := None;
    }

    method ChangeState(newState: TransportState)
      modifies this`state, this`playEnabled, this`stopEnabled, this`transport
      ensures Controls() == TutorialController.ChangeState(old(Controls()), newState)
    {
      if state != newState {
        state := newState;
        match state
        case Stopped =>
          stopEnabled := false;
          playEnabled := true;
          transport := transport.(position := 0);
        case Starting =>
          playEnabled := false;
          transport := transport.(playing := true);
        case Playing =>
          stopEnabled := true;
        case Stopping =>
          transport := transport.(playing := false);
      }
    }

    /** The transport's change notification. */
    method ChangeListenerCallback()
      modifies this`state, this`playEnabled, this`stopEnabled, this`transport
      ensures Controls() == TutorialController.TransportChanged(old(Controls()))
    {
      if transport.playing {
        ChangeState(TutorialController.Playing);
      } else {
        ChangeState(TutorialController.Stopped);
      }
    }

    /** What the open dialog's completion callback does with the dialog's outcome. */
    method OpenCompleted(outcome: OpenOutcome)
      modifies this`playEnabled, this`readerSource
      ensures Controls() == TutorialController.OpenCompleted(old(Controls()), outcome)
    {
      if outcome.ReaderCreated? {
        var newSource := NewReader(outcome.file);
        playEnabled := true;
        readerSource := Some(newSource);
      }
    }

    method PlayButtonClicked()
      modifies this`state, this`playEnabled, this`stopEnabled, this`transport
      ensures Controls() == TutorialController.PlayClicked(old(Controls()))
    {
      ChangeState(TutorialController.Starting);
    }

    method StopButtonClicked()
      modifies this`state, this`playEnabled, this`stopEnabled, this`transport
      ensures Controls() == TutorialController.StopClicked(old(Controls()))
    {
      ChangeState(TutorialController.Stopping);
    }

    /** The audio callback: with no reader source the active region is cleared; otherwise the
        transport renders into the buffer, which this model leaves as it is. */
    method GetNextAudioBlock(buffer: array2?<real>, startSample: nat, numSamples: nat)
      requires buffer != null ==> startSample + numSamples <= buffer.Length1
      modifies buffer
      ensures readerSource.None? && buffer != null ==> AudioBlock.RegionCleared(buffer, startSample, numSamples)
      ensures readerSource.Some? && buffer != null ==> unchanged(buffer)
    {
      if readerSource.None? && buffer != null {
        AudioBlock.ClearRegion(buffer, startSample, numSamples);
      }
    }
  }
}
