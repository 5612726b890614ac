/** The hardware controller as the calibrator sees it: an injected, finite record of
    what the buttons and the light sensor will report. Sleeps, tones and the display
    have no counterpart here. */
module Hardware {
  import opened CalibrationSpec

  class Controller {
    /** Button states still to be read, one per iteration of a polling loop. */
    var polls: seq<Poll>
    /** Light-sensor values still to be read, one per call of GetBrightness. */
    var readings: seq<int>

    constructor (polls: seq<Poll>, readings: seq<int>)
      ensures this.polls == polls && this.readings == readings
    {
      this.polls := polls;
      this.readings := readings;
    }

    /** The input that has not been read yet. */
    function Remaining(): Input
      reads this
    {
      Input(polls, readings)
    }

    /** Reads Enter, Left and Right for one iteration of a polling loop. */
    method PollButtons() returns (p: Poll)
      requires polls != []
      modifies this
      ensures p == old(polls)[0]
      ensures polls == old(polls)[1..] && readings == old(readings)
    {
      p := polls[0];
      polls := polls[1..];
    }

    /** Reads the light sensor once. */
    method GetBrightness() returns (level: int)
      requires readings != []
      modifies this
      ensures level == old(readings)[0]
      ensures readings == old(readings)[1..] && polls == old(polls)
    {
      level := readings[0];
      readings := readings[1..];
    }
  }
}
