/**
 The elapsed-time display of the recorder: the tick handler splits the
 seconds counter into hours, minutes and seconds for an HH:MM:SS label.
 Only the integer split is modelled; the zero-padded text is not.
 */
module TimerDisplay {

  /** A reading of the HH:MM:SS display. */
  datatype Clock = Clock(hours: nat, minutes: nat, secs: nat)

  /** A reading the display can show: minutes and seconds below 60. */
  predicate WellFormed(c: Clock) {
    c.minutes < 60 && c.secs < 60
  }

  /** The number of seconds a display reading stands for. */
  function ToSeconds(c: Clock): nat {
    c.hours * 3600 + c.minutes * 60 + c.secs
  }

  /** Splits the seconds counter as the tick handler does (floor division
      and remainder, which agree with Dafny's on non-negative numbers). */
  function Split(total: nat): (c: Clock)
    ensures WellFormed(c)
    ensures ToSeconds(c) == total
  {
    Clock(total / 3600, (total % 3600) / 60, total % 60)
  }

  /** Every well-formed reading is the split of the seconds it stands for:
      the display reading determines the counter and vice versa. */
  lemma SplitToSeconds(c: Clock)
    requires WellFormed(c)
    ensures Split(ToSeconds(c)) == c
  {
    var n := ToSeconds(c);
    var rest := c.minutes * 60 + c.secs;
    assert 0 <= rest < 3600;
    assert n / 3600 == c.hours;
    assert n % 3600 == rest;
    assert rest / 60 == c.minutes;
    assert n % 60 == c.secs;
  }
}
