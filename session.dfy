/** One completed uroflow measurement, as built by the session parser (Session.java).
    A Session has no setters: once built it never changes, which a datatype value gives for free. */
module Sessions {
  import opened Wrappers

  /** A calendar date (java.time.LocalDate) as a day number: `plusDays(n)` is `+ n`,
      `isAfter` is `>`. */
  type Date = int

  /** One point of a rate series: elapsed time in seconds and flow rate in mL/sec. */
  datatype Sample = Sample(time: real, rate: real)

  /** The named series of samples of one session (a JFreeChart XYSeries). */
  datatype RateSeries = RateSeries(name: string, samples: seq<Sample>)

  /** The fields of Session.java; each getter returns the field of the same name.
      The date is absent (null in the source) when the header's date did not parse. */
  datatype Session = Session(
    date: Option<Date>,
    hour: int,
    minute: int,
    second: int,
    qMax: real,
    tEnd: real,
    tPeak: real,
    rateSamples: RateSeries)

  /** The constructor of Session.java: note the order of the three floats (qMax, tEnd, tPeak). */
  function NewSession(date: Option<Date>, hr: int, min: int, sec: int,
                      qMax: real, tEnd: real, tPeak: real, samples: RateSeries): (s: Session)
    ensures s.date == date && s.hour == hr && s.minute == min && s.second == sec
    ensures s.qMax == qMax && s.tEnd == tEnd && s.tPeak == tPeak
    ensures s.rateSamples == samples
  {
    Session(date, hr, min, sec, qMax, tEnd, tPeak, samples)
  }
}
