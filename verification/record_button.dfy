/** The record button: its label, colour class, enabled state and inner
    content as functions of the turn status. */
module RecordButton {
  import opened Types
  import opened Turn

  datatype ButtonStyle = IdleStyle | RecordingStyle | ProcessingStyle

  /** What the button shows inside its circle. */
  datatype Inner = Spinner | Circle(withIndicator: bool)

  function StatusText(status: RecordingStatus): string {
    match status
    case Recording => "Recording..."
    case Processing => "Processing..."
    case Playing => "Playing..."
    case _ => "Tap to speak"
  }

  function Style(status: RecordingStatus): ButtonStyle {
    if status == Recording then RecordingStyle
    else if status == Processing || status == Playing then ProcessingStyle
    else IdleStyle
  }

  /** `disabled` is the optional prop (absent reads as false). */
  function Disabled(disabled: bool, status: RecordingStatus): bool {
    disabled || status == Processing || status == Playing
  }

  function Content(status: RecordingStatus): Inner {
    if status == Processing || status == Playing then Spinner
    else Circle(status == Recording)
  }

  /** The spinner, the grey style and the "...ing" labels other than
      "Recording..." all mean the same thing: a turn is being processed or played. */
  lemma BusyIsConsistent(status: RecordingStatus)
    ensures Content(status) == Spinner <==> status == Processing || status == Playing
    ensures Style(status) == ProcessingStyle <==> Content(status) == Spinner
    ensures Content(status) == Spinner ==> Disabled(false, status)
    ensures Content(status) == Spinner <==> StatusText(status) == "Processing..." || StatusText(status) == "Playing..."
  {
    assert StatusText(Idle)[0] == 'T' && StatusText(Recording)[0] == 'R';
  }

  /** The red indicator shows only while recording, and never with the spinner. */
  lemma IndicatorOnlyWhileRecording(status: RecordingStatus)
    ensures Content(status) == Circle(true) <==> status == Recording
    ensures Content(status) == Circle(true) ==> Style(status) == RecordingStyle
  {
  }

  /** Without the prop, the button is enabled exactly when a press does
      something; the "Tap to speak" label marks exactly the statuses where a
      press starts a recording. */
  lemma EnabledIffPressActs(status: RecordingStatus)
    ensures !Disabled(false, status) <==> Dispatch(status) != NoAction
    ensures StatusText(status) == "Tap to speak" <==> Dispatch(status) == StartAction
  {
    assert StatusText(Recording) != "Tap to speak";
    assert StatusText(Processing) != "Tap to speak";
    assert StatusText(Playing) != "Tap to speak";
  }

  /** Each status has its own label. */
  lemma LabelsDistinct(a: RecordingStatus, b: RecordingStatus)
    requires a != b
    ensures StatusText(a) != StatusText(b)
  {
    assert StatusText(Idle)[0] == 'T';
    assert StatusText(Recording)[0] == 'R';
    assert StatusText(Processing)[1] == 'r';
    assert StatusText(Playing)[1] == 'l';
    assert StatusText(Processing)[0] == 'P' && StatusText(Playing)[0] == 'P';
  }
}
