/** The calibrator: an object holding the camera-mode and course flags and the two
    brightness levels, which its polling steps update in place. */
module Calibration {
  import opened CalibrationSpec
  import opened Hardware

  class Calibrator {
    const controller: Controller
    var isCameraMode: bool
    var isLeft: bool
    var brightnessOfWhite: int
    var brightnessOfBlack: int

    /** Camera system on, left course, both brightness levels zero. */
    constructor (controller: Controller)
      ensures this.controller == controller
      ensures isCameraMode && isLeft && brightnessOfWhite == 0 && brightnessOfBlack == 0
      ensures Current() == DefaultSettings()
    {
      this.controller := controller;
      isCameraMode := true;
      isLeft := true;
      brightnessOfWhite := 0;
      brightnessOfBlack := 0;
    }

    /** The four fields as one value. */
    function Current(): Settings
      reads this
    {
      Settings(isCameraMode, isLeft, brightnessOfWhite, brightnessOfBlack)
    }

    /** Runs camera mode, course side, white and black in that order and stops at the
        first step that reports failure. */
    method Calibration() returns (ok: bool)
      requires Runnable(CalibrationSteps, Current(), controller.Remaining())
      modifies this, controller
      ensures ok
      ensures var o := RunSteps(CalibrationSteps, old(Current()), old(controller.Remaining()));
              ok == o.ok && Current() == o.settings && controller.Remaining() == o.input
    {
      ghost var p0 := Outcome(true, Current(), controller.Remaining());
      CalibrationOrder(p0.settings, p0.input);
      ghost var p1 := RunStep(CameraMode, p0.settings, p0.input);
      ghost var p2 := RunStep(CourseSide, p1.settings, p1.input);
      ghost var p3 := RunStep(Sample(White), p2.settings, p2.input);
      ghost var p4 := RunStep(Sample(Black), p3.settings, p3.input);
      var done := SetCameraMode();
      if !done {
        return false;
      }
      assert Current() == p1.settings && controller.Remaining() == p1.input;
      done := SetLRCourse();
      if !done {
        return false;
      }
      assert Current() == p2.settings && controller.Remaining() == p2.input;
      done := SetBrightness(White);
      if !done {
        return false;
      }
      assert Current() == p3.settings && controller.Remaining() == p3.input;
      done := SetBrightness(Black);
      if !done {
        return false;
      }
      assert Current() == p4.settings && controller.Remaining() == p4.input;
      return true;
    }

    /** Toggle-confirm step for the camera system: every poll before Enter in which Left
        or Right is pressed inverts isCameraMode; nothing else changes. */
    method SetCameraMode() returns (ok: bool)
      requires HasEnter(controller.polls)
      modifies this, controller
      ensures ok
      ensures Current() == old(Current()).(cameraMode := Toggled(old(isCameraMode), old(controller.polls)))
      ensures controller.Remaining() == old(controller.Remaining()).(polls := AfterEnter(old(controller.polls)))
      ensures var o := RunStep(CameraMode, old(Current()), old(controller.Remaining()));
              ok == o.ok && Current() == o.settings && controller.Remaining() == o.input
    {
      while true
        invariant HasEnter(controller.polls)
        invariant Toggled(isCameraMode, controller.polls) == Toggled(old(isCameraMode), old(controller.polls))
        invariant AfterEnter(controller.polls) == AfterEnter(old(controller.polls))
        invariant controller.readings == old(controller.readings)
        invariant isLeft == old(isLeft)
        invariant brightnessOfWhite == old(brightnessOfWhite) && brightnessOfBlack == old(brightnessOfBlack)
        decreases |controller.polls|
      {
        WaitStep(controller.polls);
        ToggleStep(isCameraMode, controller.polls);
        var p := controller.PollButtons();
        if p.enter {
          break;
        }
        if p.left || p.right {
          isCameraMode := !isCameraMode;
        }
      }
      return true;
    }

    /** Toggle-confirm step for the course side: every poll before Enter in which Left
        or Right is pressed inverts isLeft; nothing else changes. */
    method SetLRCourse() returns (ok: bool)
      requires HasEnter(controller.polls)
      modifies this, controller
      ensures ok
      ensures Current() == old(Current()).(isLeft := Toggled(old(isLeft), old(controller.polls)))
      ensures controller.Remaining() == old(controller.Remaining()).(polls := AfterEnter(old(controller.polls)))
      ensures var o := RunStep(CourseSide, old(Current()), old(controller.Remaining()));
              ok == o.ok && Current() == o.settings && controller.Remaining() == o.input
    {
      while true
        invariant HasEnter(controller.polls)
        invariant Toggled(isLeft, controller.polls) == Toggled(old(isLeft), old(controller.polls))
        invariant AfterEnter(controller.polls) == AfterEnter(old(controller.polls))
        invariant controller.readings == old(controller.readings)
        invariant isCameraMode == old(isCameraMode)
        invariant brightnessOfWhite == old(brightnessOfWhite) && brightnessOfBlack == old(brightnessOfBlack)
        decreases |controller.polls|
      {
        WaitStep(controller.polls);
        ToggleStep(isLeft, controller.polls);
        var p := controller.PollButtons();
        if p.enter {
          break;
        }
        if p.left || p.right {
          isLeft := !isLeft;
        }
      }
      return true;
    }

    /** Sample-confirm step: an unknown value fails at once and changes nothing;
        otherwise the live level is read once per poll until Enter, then the average
        of the next SampleCount readings is stored into the one targeted field. */
    method SetBrightness(brightness: Brightness) returns (ok: bool)
      requires !brightness.Unknown? ==>
                 HasEnter(controller.polls) &&
                 EnterIndex(controller.polls) + SampleCount <= |controller.readings|
      modifies this, controller
      ensures ok <==> !brightness.Unknown?
      ensures !ok ==> Current() == old(Current()) && controller.Remaining() == old(controller.Remaining())
      ensures ok ==>
                var k := EnterIndex(old(controller.polls));
                var level := Average(old(controller.readings)[k..k + SampleCount]);
                && Current() == (if brightness == White then old(Current()).(white := level)
                                 else old(Current()).(black := level))
                && controller.Remaining()
                   == Input(AfterEnter(old(controller.polls)), old(controller.readings)[k + SampleCount..])
      ensures var o := RunStep(Sample(brightness), old(Current()), old(controller.Remaining()));
              ok == o.ok && Current() == o.settings && controller.Remaining() == o.input
    {
      if brightness != White && brightness != Black {
        return false;
      }
      ghost var k := EnterIndex(controller.polls);
      while true
        invariant HasEnter(controller.polls)
        invariant AfterEnter(controller.polls) == AfterEnter(old(controller.polls))
        invariant EnterIndex(controller.polls) + SampleCount <= |controller.readings|
        invariant controller.readings[EnterIndex(controller.polls)..] == old(controller.readings)[k..]
        invariant Current() == old(Current())
        decreases |controller.polls|
      {
        WaitStep(controller.polls);
        var p := controller.PollButtons();
        if p.enter {
          break;
        }
        // the level shown to the operator while waiting
        var shown := controller.GetBrightness();
      }
      assert controller.readings[..SampleCount] == old(controller.readings)[k..k + SampleCount];
      assert controller.readings[SampleCount..] == old(controller.readings)[k + SampleCount..];
      if brightness == White {
        brightnessOfWhite := AverageBrightness();
      } else {
        brightnessOfBlack := AverageBrightness();
      }
      return true;
    }

    /** Reads the light sensor SampleCount times and returns the sum divided by
        SampleCount, truncated toward zero. */
    method AverageBrightness() returns (mean: int)
      requires SampleCount <= |controller.readings|
      modifies controller
      ensures mean == Average(old(controller.readings)[..SampleCount])
      ensures controller.readings == old(controller.readings)[SampleCount..]
      ensures controller.polls == old(controller.polls)
    {
      var meanBrightness := 0;
      var times := SampleCount;
      for i := 0 to times
        invariant meanBrightness == Sum(old(controller.readings)[..i])
        invariant controller.readings == old(controller.readings)[i..]
        invariant controller.polls == old(controller.polls)
      {
        var level := controller.GetBrightness();
        assert old(controller.readings)[..i + 1][..i] == old(controller.readings)[..i];
        meanBrightness := meanBrightness + level;
      }
      return TruncDiv(meanBrightness, times);
    }

    function GetCameraMode(): (mode: bool)
      reads this
      ensures mode == Current().cameraMode
    {
      isCameraMode
    }

    function IsLeftCourse(): (left: bool)
      reads this
      ensures left == Current().isLeft
    {
      isLeft
    }

    function GetWhiteBrightness(): (level: int)
      reads this
      ensures level == Current().white
    {
      brightnessOfWhite
    }

    function GetBlackBrightness(): (level: int)
      reads this
      ensures level == Current().black
    {
      brightnessOfBlack
    }
  }
}
