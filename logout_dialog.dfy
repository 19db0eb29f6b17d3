/**
 * The logout dialog (src/components/auth/LogoutDialog.tsx): the thank-you
 * message built from the session length the server returns (a .NET
 * `TimeSpan` text "HH:mm:ss.fffffff"), the error path, and the switch of
 * title and buttons once the message is shown.
 */
module LogoutDialog {
  import opened Types
  import opened JsText
  import opened AuthForms

  const DefaultMessage := "Thanks for using SkyPoint Social!"
  const LogoutFailedMessage := "Failed to logout. Please try again."

  /** Which of the four messages is chosen, with the numbers it shows. A
      seconds value of `None` is NaN. */
  datatype Duration =
    | Unparsed
    | HoursAndMinutes(hours: int, minutes: int)
    | MinutesOnly(minutes: int)
    | SecondsOnly(seconds: Option<int>)

  /** The parse in `handleLogout`: an absent or empty duration, or one with
      fewer than three ':'-separated parts, gives the default; otherwise the
      hours and minutes parts are read with `parseInt(..) || 0` and the
      seconds part with `Math.floor(parseFloat(..))`, and the first non-zero
      positive unit among hours and minutes picks the message. */
  function ParseDuration(sessionDuration: Option<string>): (r: Duration)
    ensures r == Unparsed <==> !Truthy(sessionDuration) || Count(sessionDuration.value, ':') < 2
    ensures r.HoursAndMinutes? ==> r.hours > 0
    ensures r.MinutesOnly? ==> r.minutes > 0
  {
    if !Truthy(sessionDuration) then Unparsed
    else
      var parts := Split(sessionDuration.value, ':');
      if |parts| < 3 then Unparsed
      else
        Choose(ParseInt(parts[0]).GetOr(0), ParseInt(parts[1]).GetOr(0), ParseFloatFloor(parts[2]))
  }

  /** The first positive unit among hours and minutes picks the message. */
  function Choose(hours: int, minutes: int, seconds: Option<int>): Duration {
    if hours > 0 then HoursAndMinutes(hours, minutes)
    else if minutes > 0 then MinutesOnly(minutes)
    else SecondsOnly(seconds)
  }

  /** `cond ? 's' : ''`. */
  function Plural(cond: bool): string {
    if cond then "s" else ""
  }

  /** `${n} word${cond ? 's' : ''}`. */
  function Unit(n: string, word: string, plural: bool): string {
    n + " " + word + Plural(plural)
  }

  /** `${seconds}` where NaN prints as "NaN". */
  function SecondsText(seconds: Option<int>): string {
    if seconds.Some? then IntToString(seconds.value) else "NaN"
  }

  const SpendingPrefix := "Thanks for spending "
  const SpendingSuffix := " with us!"

  /** `Thanks for spending ${...} with us!`. */
  function Spending(body: string): string {
    SpendingPrefix + body + SpendingSuffix
  }

  /** The message shown: "hour" takes an "s" above one, "minute" and
      "second" unless the value is exactly one. */
  function SessionMessage(d: Duration): string {
    match d
    case Unparsed => DefaultMessage
    case HoursAndMinutes(h, m) =>
      Spending(Unit(IntToString(h), "hour", h > 1) + " and " + Unit(IntToString(m), "minute", m != 1))
    case MinutesOnly(m) => Spending(Unit(IntToString(m), "minute", m != 1))
    case SecondsOnly(s) => Spending(Unit(SecondsText(s), "second", s != Some(1)))
  }

  /** A rendered integer holds no ':'. */
  lemma NoColonInInt(n: int)
    ensures ':' !in IntToString(n)
  {
    var s := IntToString(n);
    forall i | 0 <= i < |s| ensures s[i] != ':' {
      assert IsDigit(s[i]) || s[i] == '-';
    }
  }

  /** Three colon-free pieces joined by ':' split back into those pieces. */
  lemma SplitThree(a: string, b: string, c: string)
    requires ':' !in a && ':' !in b && ':' !in c
    ensures Split(a + ":" + b + ":" + c, ':') == [a, b, c]
  {
    var bc := b + [':'] + c;
    SplitNoSep(c, ':');
    SplitConcat(b, ':', c);
    SplitConcat(a, ':', bc);
    JoinThree(a, b, c);
  }

  lemma JoinThree(a: string, b: string, c: string)
    ensures a + ":" + b + ":" + c == a + [':'] + (b + [':'] + c)
  {
  }

  /** A text of three colon-free parts is read part by part. */
  lemma ParseOfThree(hours: string, minutes: string, secs: string)
    requires ':' !in hours && ':' !in minutes && ':' !in secs
    ensures ParseDuration(Some(hours + ":" + minutes + ":" + secs)) ==
      Choose(ParseInt(hours).GetOr(0), ParseInt(minutes).GetOr(0), ParseFloatFloor(secs))
  {
    var text := hours + ":" + minutes + ":" + secs;
    SplitThree(hours, minutes, secs);
    assert |text| > 0;
    var parts := Split(text, ':');
    assert parts[0] == hours && parts[1] == minutes && parts[2] == secs;
  }

  /** Parsing reads back the hours and minutes a duration text was built
      from, and their values select the message. */
  lemma ParseOfRendered(h: int, m: int, secs: string)
    requires ':' !in secs
    ensures ParseDuration(Some(IntToString(h) + ":" + IntToString(m) + ":" + secs)) ==
      if h > 0 then HoursAndMinutes(h, m)
      else if m > 0 then MinutesOnly(m)
      else SecondsOnly(ParseFloatFloor(secs))
  {
    NoColonInInt(h);
    NoColonInInt(m);
    ParseOfThree(IntToString(h), IntToString(m), secs);
    ParseIntOfIntToString(h);
    ParseIntOfIntToString(m);
  }

  /** Hours and minutes that do not parse count as zero, so the seconds
      message is chosen. */
  lemma UnparsableCountsAsZero(hours: string, minutes: string, secs: string)
    requires ':' !in hours && ':' !in minutes && ':' !in secs
    requires ParseInt(hours).None? && ParseInt(minutes).None?
    ensures ParseDuration(Some(hours + ":" + minutes + ":" + secs)) == SecondsOnly(ParseFloatFloor(secs))
  {
    ParseOfThree(hours, minutes, secs);
  }

  /** Any duration text with at least two ':' gives one of the three
      thank-you messages with numbers, never the default. */
  lemma ParsedIsNotDefault(sessionDuration: Option<string>)
    requires Truthy(sessionDuration) && Count(sessionDuration.value, ':') >= 2
    ensures ParseDuration(sessionDuration) != Unparsed
    ensures SessionMessage(ParseDuration(sessionDuration)) != DefaultMessage
  {
    match ParseDuration(sessionDuration)
    case HoursAndMinutes(h, m) =>
      SpendingIsNotDefault(Unit(IntToString(h), "hour", h > 1) + " and " + Unit(IntToString(m), "minute", m != 1));
    case MinutesOnly(m) => SpendingIsNotDefault(Unit(IntToString(m), "minute", m != 1));
    case SecondsOnly(s) => SpendingIsNotDefault(Unit(SecondsText(s), "second", s != Some(1)));
  }

  lemma SpendingIsNotDefault(body: string)
    ensures Spending(body) != DefaultMessage
  {
    assert Spending(body)[11] == SpendingPrefix[11] == 's';
    assert DefaultMessage[11] == 'u';
  }

  /** "minute" stands alone exactly when the minutes are one. */
  lemma MinuteSingularIff(m: int)
    ensures SessionMessage(MinutesOnly(m)) == Spending("1 minute") <==> m == 1
  {
    var u := Unit(IntToString(m), "minute", m != 1);
    if Spending(u) == Spending("1 minute") {
      assert u == Spending(u)[|SpendingPrefix|..|Spending(u)| - |SpendingSuffix|];
      assert |u| == |IntToString(m)| + 7 + |Plural(m != 1)|;
      assert |Plural(m != 1)| == 0;
    } else {
      IntToStringShape(m);
    }
  }

  /** The seconds message: "second" stands alone exactly when the seconds
      are one; a NaN value reads "NaN seconds". */
  lemma SecondSingularIff(secs: Option<int>)
    ensures SessionMessage(SecondsOnly(secs)) == Spending("1 second") <==> secs == Some(1)
  {
    var u := Unit(SecondsText(secs), "second", secs != Some(1));
    if Spending(u) == Spending("1 second") {
      assert u == Spending(u)[|SpendingPrefix|..|Spending(u)| - |SpendingSuffix|];
      assert |u| == |SecondsText(secs)| + 7 + |Plural(secs != Some(1))|;
      assert |Plural(secs != Some(1))| == 0;
    } else if secs == Some(1) {
      assert IntToString(1) == "1";
    }
  }

  /** The hours message word by word: "hours" above one hour and "hour"
      otherwise, then "minute" for exactly one minute and "minutes"
      otherwise. */
  lemma HoursMessageShape(h: int, m: int)
    ensures SessionMessage(HoursAndMinutes(h, m)) ==
      SpendingPrefix + IntToString(h) + HourWord(h) + " and " + IntToString(m) + MinuteWord(m) + SpendingSuffix
  {
    var hs, ms := IntToString(h), IntToString(m);
    UnitWord(hs, "hour", h > 1);
    UnitWord(ms, "minute", m != 1);
    Regroup(SpendingPrefix, hs, HourWord(h), " and ", ms, MinuteWord(m), SpendingSuffix);
  }

  function HourWord(h: int): (w: string)
    ensures w == " " + "hour" + Plural(h > 1)
  {
    if h > 1 then " hours" else " hour"
  }

  function MinuteWord(m: int): (w: string)
    ensures w == " " + "minute" + Plural(m != 1)
  {
    if m != 1 then " minutes" else " minute"
  }

  lemma UnitWord(n: string, word: string, plural: bool)
    ensures Unit(n, word, plural) == n + (" " + word + Plural(plural))
  {
  }

  lemma Regroup(p: string, a: string, b: string, c: string, d: string, e: string, q: string)
    ensures p + ((a + b) + c + (d + e)) + q == p + a + b + c + d + e + q
  {
  }

  /** In the hours message "hour" stands alone exactly for one hour and
      takes an "s" above one. */
  lemma HourSingularIff(h: int)
    requires h > 0
    ensures HourWord(h) == " hour" <==> h == 1
    ensures HourWord(h) == " hours" <==> h > 1
  {
  }

  /** In the hours message "minute" stands alone exactly for one minute, so
      zero minutes read "0 minutes". */
  lemma MinuteInHoursSingularIff(m: int)
    ensures MinuteWord(m) == " minute" <==> m == 1
    ensures MinuteWord(m) == " minutes" <==> m != 1
  {
  }

  /** "second" takes an "s" for zero: a session of under a second thanks the
      user for "0 seconds". */
  lemma ZeroSeconds()
    ensures SessionMessage(SecondsOnly(Some(0))) == Spending("0 seconds")
  {
    assert IntToString(0) == "0";
  }

  /** "hour" is singular for one hour, while "minute" is plural for zero. */
  lemma OneHourZeroMinutes()
    ensures SessionMessage(HoursAndMinutes(1, 0)) == Spending("1 hour and 0 minutes")
  {
    assert IntToString(1) == "1";
    assert IntToString(0) == "0";
    assert Unit("1", "hour", false) == "1 hour";
    assert Unit("0", "minute", true) == "0 minutes";
  }

  /** The dialog's state. */
  class Dialog {
    var error: string
    var sessionSummary: string

    constructor ()
      ensures error == "" && sessionSummary == ""
    {
      error, sessionSummary := "", "";
    }

    /** `sessionSummary ? 'Session Summary' : 'Confirm Logout'`. */
    function Title(): (t: string)
      reads this
      ensures t == "Session Summary" <==> sessionSummary != ""
      ensures t == "Confirm Logout" <==> sessionSummary == ""
    {
      if sessionSummary != "" then "Session Summary" else "Confirm Logout"
    }

    /** `{!sessionSummary && <DialogActions>}`. */
    predicate ActionsShown(): (b: bool)
      reads this
      ensures b <==> Title() == "Confirm Logout"
    {
      sessionSummary == ""
    }

    /** `handleLogout`: on success the message for the returned duration is
        shown, which switches the title and hides the buttons; on failure the
        server's message or the fallback is shown and no summary is set. */
    method HandleLogout(response: Result<Option<string>, ApiError>)
      modifies this
      ensures response.Ok? ==>
        sessionSummary == SessionMessage(ParseDuration(response.value)) && error == old(error)
      ensures response.Ok? ==> Title() == "Session Summary" && !ActionsShown()
      ensures response.Err? ==>
        error == DataMessageOr(response.error, LogoutFailedMessage) && sessionSummary == old(sessionSummary)
    {
      if response.Err? {
        error := DataMessageOr(response.error, LogoutFailedMessage);
        return;
      }
      var sessionMessage := SessionMessage(ParseDuration(response.value));
      sessionSummary := sessionMessage;
      assert sessionSummary != "" by {
        assert |DefaultMessage| > 0;
      }
    }
  }
}
