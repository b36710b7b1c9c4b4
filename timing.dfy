/** The time arithmetic of the cooldown gates, in integer milliseconds. */
module Timing {
  import opened Types

  /** Cooldown between two experience grants for chat messages. */
  const XpCooldownMs := 60000
  /** Cooldown of each gated action (mine, chop, fish). */
  const ActionCooldownMs := 60000
  const MinuteMs := 60000
  const HourMs := 3600000
  const DayMs := 86400000

  /** The message-experience gate. The last grant time is a plain number, so
      a stored 0 is falsy and gates nothing. */
  predicate XpCooling(grants: map<UserId, int>, id: UserId, now: int) {
    id in grants && grants[id] != 0 && now < grants[id] + XpCooldownMs
  }

  /** The gate of mine, chop and fish: a recorded time (a Date, always truthy)
      less than a cooldown ago. */
  predicate ActionCooling(last: Option<int>, now: int) {
    last.Some? && now < last.value + ActionCooldownMs
  }

  /** Milliseconds left before a gated action may run again. */
  function ActionWaitMs(last: int, now: int): (r: int)
    requires now < last + ActionCooldownMs
    ensures r == ActionCooldownMs - (now - last)
    ensures 0 < r
    ensures r <= ActionCooldownMs <==> last <= now
  {
    last + ActionCooldownMs - now
  }

  /** The daily gate: a previous claim less than 24 hours ago. */
  predicate DailyCooling(last: Option<int>, now: int) {
    last.Some? && now - last.value < DayMs
  }

  datatype Wait = Wait(hours: int, minutes: int)

  /** Whole hours and leftover whole minutes before the next daily claim,
      given the time `elapsed` since the last one. */
  function DailyWait(elapsed: int): (w: Wait)
    requires elapsed < DayMs
    ensures w.hours >= 0 && 0 <= w.minutes < 60
    ensures w.hours * HourMs + w.minutes * MinuteMs <= DayMs - elapsed
    ensures DayMs - elapsed < w.hours * HourMs + (w.minutes + 1) * MinuteMs
  {
    var rem := DayMs - elapsed;
    Wait(rem / HourMs, (rem % HourMs) / MinuteMs)
  }

  /** For a claim made in the past, the reported wait is at most 24 hours
      and strictly under it unless no time at all has passed. */
  lemma DailyWaitBounded(elapsed: int)
    requires 0 <= elapsed < DayMs
    ensures DailyWait(elapsed).hours <= 24
    ensures DailyWait(elapsed).hours == 24 <==> elapsed == 0
  {
  }
}
