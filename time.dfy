/** Times are whole milliseconds since the epoch, as JavaScript's Date.now() and getTime() return them. */
module Time {
  const MsPerMinute: nat := 60000
  const MsPerHour: nat := 3600000
  const MsPerDay: nat := 86400000

  datatype HoursMinutes = HoursMinutes(hours: nat, minutes: nat)

  /** A duration split into whole hours and the whole minutes left over, both rounded down. */
  function Split(t: nat): (hm: HoursMinutes)
    ensures hm.minutes < 60
    ensures hm.hours * MsPerHour + hm.minutes * MsPerMinute <= t
    ensures t < hm.hours * MsPerHour + (hm.minutes + 1) * MsPerMinute
  {
    HoursMinutes(t / MsPerHour, (t % MsPerHour) / MsPerMinute)
  }
}
