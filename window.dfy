/** `setup_time_values`: the request window ends at the start of the current hour on the
    clock of the chosen time zone, and begins the configured number of hours earlier.
    Instants are whole microseconds since the epoch; a zone is its offset from UTC. */
module Window {
  import opened Station

  const MicrosPerHour: int := 3_600_000_000

  datatype TimeWindow = TimeWindow(begin: int, end: int)

  /** NRCS is asked in the station's own zone; every other provider in UTC. */
  function RequestOffset(provider: Provider, stationOffset: int): (offset: int)
    ensures provider == Nrcs ==> offset == stationOffset
    ensures provider != Nrcs ==> offset == 0
  {
    if provider == Nrcs then stationOffset else 0
  }

  /** The window for `hours` hours ending at the last full hour, on the clock with
      UTC offset `offset`, before the instant `now`. */
  function SetupTimeValues(now: int, offset: int, hours: nat): (w: TimeWindow)
    ensures w.end <= now < w.end + MicrosPerHour
    ensures (w.end + offset) % MicrosPerHour == 0
    ensures w.end - w.begin == hours * MicrosPerHour
  {
    // minutes, seconds and microseconds past the hour on the local clock
    var pastTheHour := (now + offset) % MicrosPerHour;
    var end := now - pastTheHour;
    TimeWindow(end - hours * MicrosPerHour, end)
  }

  /** The end is the only instant that is on the local hour and at most an hour before now. */
  lemma EndIsUnique(now: int, offset: int, hours: nat, e: int)
    requires e <= now < e + MicrosPerHour
    requires (e + offset) % MicrosPerHour == 0
    ensures SetupTimeValues(now, offset, hours).end == e
  {
    var w := SetupTimeValues(now, offset, hours);
    var d := w.end - e;
    assert -MicrosPerHour < d < MicrosPerHour;
    assert d % MicrosPerHour == 0 by {
      assert d == (w.end + offset) - (e + offset);
    }
  }

  /** Requesting at the end instant itself gives the same window, and a later request
      never ends earlier. */
  lemma WindowStableAndMonotone(now: int, later: int, offset: int, hours: nat)
    requires now <= later
    ensures var w := SetupTimeValues(now, offset, hours);
      SetupTimeValues(w.end, offset, hours) == w
    ensures SetupTimeValues(now, offset, hours).end <= SetupTimeValues(later, offset, hours).end
  {
    var w := SetupTimeValues(now, offset, hours);
    EndIsUnique(w.end, offset, hours, w.end);
    var w2 := SetupTimeValues(later, offset, hours);
    var d := w.end - w2.end;
    assert d % MicrosPerHour == 0 by {
      assert d == (w.end + offset) - (w2.end + offset);
    }
  }
}
