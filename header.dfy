/**
 * The header bar: the mode selector and the Start / Pause / Stop buttons, whose
 * enabled state depends only on the confirmed robot status.
 */
module Header {
  import opened Wrappers
  import opened Types
  import Strings

  datatype StatusButton = StartButton | PauseButton | StopButton

  /** The status each button asks the robot for (`handleStart`, `handlePause`, `handleStop`). */
  function Target(b: StatusButton): (s: RobotStatus)
    ensures b == StartButton <==> s == Running
    ensures b == PauseButton <==> s == Paused
    ensures b == StopButton <==> s == Stopped
  {
    match b
    case StartButton => Running
    case PauseButton => Paused
    case StopButton => Stopped
  }

  /**
   * A button is enabled when its `disabled` expression is false: exactly when it asks for
   * another status than the current one, except that Pause stays disabled while stopped.
   */
  predicate Enabled(b: StatusButton, status: RobotStatus): (r: bool)
    ensures r <==> Target(b) != status && !(b == PauseButton && status == Stopped)
  {
    match b
    case StartButton => !(status == Running)
    case PauseButton => !(status == Paused || status == Stopped)
    case StopButton => !(status == Stopped)
  }

  lemma PauseEnabledOnlyWhenRunning(status: RobotStatus)
    ensures Enabled(PauseButton, status) <==> status == Running
  {
  }

  /** In every status some button is enabled, and no enabled button asks for the current status. */
  lemma EnabledButtonsChangeStatus(status: RobotStatus)
    ensures exists b :: Enabled(b, status)
    ensures forall b :: Enabled(b, status) ==> Target(b) != status
  {
    if status == Running {
      assert Enabled(StopButton, status);
    } else {
      assert Enabled(StartButton, status);
    }
  }

  /**
   * The status transitions an operator can request: any change except going straight
   * from Stopped to Paused.
   */
  lemma RequestableTransitions(from: RobotStatus, to: RobotStatus)
    ensures (exists b :: Enabled(b, from) && Target(b) == to) <==> to != from && !(from == Stopped && to == Paused)
  {
    if to != from && !(from == Stopped && to == Paused) {
      var b := match to case Running => StartButton case Paused => PauseButton case Stopped => StopButton;
      assert Enabled(b, from) && Target(b) == to;
    }
  }

  /** The `value` attributes of the mode selector's options, in display order. */
  const MODE_OPTIONS: seq<string> := ["0", "1", "2"]

  /** `parseInt(value) as OperationMode`: the mode a selector value stands for, if any. */
  function ModeOfOption(value: string): (r: Option<OperationMode>)
    ensures r.Some? ==> Strings.ParseInt(value) == Some(ModeCode(r.value))
  {
    match Strings.ParseInt(value)
    case Some(code) => ModeOfCode(code)
    case None => None
  }

  /** Every offered option is a valid mode, the options are pairwise different, and every mode is offered. */
  lemma OptionsCoverModes()
    ensures forall i :: 0 <= i < |MODE_OPTIONS| ==> ModeOfOption(MODE_OPTIONS[i]).Some?
    ensures forall i, j :: 0 <= i < j < |MODE_OPTIONS| ==> ModeOfOption(MODE_OPTIONS[i]) != ModeOfOption(MODE_OPTIONS[j])
    ensures forall m :: exists i :: 0 <= i < |MODE_OPTIONS| && ModeOfOption(MODE_OPTIONS[i]) == Some(m)
  {
    assert Strings.ParseNat("0") == 0;
    assert Strings.ParseNat("1") == 1;
    assert Strings.ParseNat("2") == 2;
    assert ModeOfOption(MODE_OPTIONS[0]) == Some(Manual);
    assert ModeOfOption(MODE_OPTIONS[1]) == Some(Autonomous);
    assert ModeOfOption(MODE_OPTIONS[2]) == Some(Debugging);
    forall m: OperationMode
      ensures exists i :: 0 <= i < |MODE_OPTIONS| && ModeOfOption(MODE_OPTIONS[i]) == Some(m)
    {
      var i := ModeCode(m);
      assert ModeOfOption(MODE_OPTIONS[i]) == Some(m);
    }
  }

  /** The selector shows `value={mode}`; reading that value back yields the same mode. */
  lemma SelectorRoundTrip(m: OperationMode)
    ensures ModeOfOption(Strings.IntToString(ModeCode(m))) == Some(m)
  {
    Strings.IntToStringRoundTrip(ModeCode(m));
  }
}
