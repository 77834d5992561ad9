/** `GetSystemUptime`: the uptime in milliseconds printed as `%02d:%02d:%02d`
    hours, minutes and seconds. The clock reading is a parameter. */
module SystemUptime {
  import opened Text

  datatype Clock = Clock(hours: nat, minutes: nat, seconds: nat)

  /** Whole hours, then the minutes and seconds left over. */
  function UptimeParts(uptimeMillis: nat): (c: Clock)
    ensures c.minutes < 60 && c.seconds < 60
    ensures c.hours * 3600 + c.minutes * 60 + c.seconds == uptimeMillis / 1000
  {
    var t := uptimeMillis / 1000;
    assert t / 60 == uptimeMillis / (1000 * 60) && t / 3600 == uptimeMillis / (1000 * 60 * 60);
    assert t == (t / 60) * 60 + t % 60;
    assert t / 60 == (t / 3600) * 60 + (t / 60) % 60;
    Clock(uptimeMillis / (1000 * 60 * 60), (uptimeMillis / (1000 * 60)) % 60, (uptimeMillis / 1000) % 60)
  }

  /** `String.format("%02d:%02d:%02d", hours, minutes, seconds)`. */
  function FormatUptime(uptimeMillis: nat): string {
    var c := UptimeParts(uptimeMillis);
    Format02(c.hours) + ":" + Format02(c.minutes) + ":" + Format02(c.seconds)
  }

  /** Under 100 hours the text is exactly "hh:mm:ss", and its three fields read
      back as the whole seconds elapsed. */
  lemma FormatUptimeReadsBack(uptimeMillis: nat)
    requires uptimeMillis < 100 * 3600 * 1000
    ensures var s := FormatUptime(uptimeMillis);
            |s| == 8 && s[2] == ':' && s[5] == ':'
            && IsDigits(s[0..2]) && IsDigits(s[3..5]) && IsDigits(s[6..8])
            && DigitsValue(s[0..2]) * 3600 + DigitsValue(s[3..5]) * 60 + DigitsValue(s[6..8])
               == uptimeMillis / 1000
  {
    var c := UptimeParts(uptimeMillis);
    var h, m, sec := Format02(c.hours), Format02(c.minutes), Format02(c.seconds);
    var s := FormatUptime(uptimeMillis);
    assert c.hours < 100;
    assert s == h + ":" + m + ":" + sec;
    assert s[0..2] == h && s[3..5] == m && s[6..8] == sec;
  }
}
