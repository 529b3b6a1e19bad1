/** The duty desk: the daily attendance windows, the rule that enables the Login (IN)
    and Logout (OUT) buttons, and the mark handler that records a photo-and-location
    attendance entry. The geofence outcome `isValid` is an input. */
module Attendance {
  import opened Types
  import opened Text
  import opened Constants
  import opened AppState

  // ---------------------------------------------------------------- clock and windows

  /** A moment as the browser's `Date` sees it in local time: a day number, the second
      of that day and the millisecond within that second. */
  datatype Instant = Instant(day: int, secOfDay: int, ms: int)

  /** `t.getTime()` */
  function EpochMs(t: Instant): int {
    t.day * 86400000 + t.secOfDay * 1000 + t.ms
  }

  /** `new Date(t).setHours(h, m, s)`: the same day and the same millisecond field,
      with hours, minutes and seconds replaced (out-of-range values roll over). */
  function SetHours(t: Instant, h: int, m: int, s: int): int {
    t.day * 86400000 + (h * 3600 + m * 60 + s) * 1000 + t.ms
  }

  datatype ClockTime = ClockTime(hour: int, minute: int)

  function SecondsOf(c: ClockTime): int {
    c.hour * 3600 + c.minute * 60
  }

  /** `Number(s)` for the strings a clock field can hold: a run of decimal digits
      (the empty string is 0); anything else is NaN, written `None`. */
  function ParseNumber(s: string): Option<int> {
    if AllDigits(s) then Some(DigitsValue(s)) else None
  }

  /** The first field of `s.split(':')`. */
  function BeforeColon(s: string): (r: string)
    ensures r <= s && ':' !in r
    ensures |r| == |s| || s[|r|] == ':'
  {
    if s == [] || s[0] == ':' then [] else [s[0]] + BeforeColon(s[1..])
  }

  /** What follows the first `':'` of `s`, or `None` when there is no second field. */
  function AfterColon(s: string): (r: Option<string>)
    ensures r.None? <==> ':' !in s
    ensures r.Some? ==> s == BeforeColon(s) + [':'] + r.value
  {
    if s == [] then None
    else if s[0] == ':' then Some(s[1..])
    else
      var r := AfterColon(s[1..]);
      if r.Some? then
        assert s == [s[0]] + s[1..];
        r
      else r
  }

  /** `s.split(':').map(Number)` destructured into hour and minute; a NaN in either
      makes every comparison with the resulting time false, written `None`. */
  function ParseClock(s: string): Option<ClockTime> {
    var h := ParseNumber(BeforeColon(s));
    var m := match AfterColon(s) case None => None case Some(rest) => ParseNumber(BeforeColon(rest));
    if h.Some? && m.Some? then Some(ClockTime(h.value, m.value)) else None
  }

  /** Two-digit `"HH:MM"` rendering of a clock time, the format of the configured windows. */
  function FormatClock(c: ClockTime): string
    requires 0 <= c.hour < 100 && 0 <= c.minute < 100
  {
    [('0' as int + c.hour / 10) as char, ('0' as int + c.hour % 10) as char, ':',
     ('0' as int + c.minute / 10) as char, ('0' as int + c.minute % 10) as char]
  }

  lemma TwoDigitValue(d: string)
    requires |d| == 2 && AllDigits(d)
    ensures DigitsValue(d) == (d[0] - '0') as int * 10 + (d[1] - '0') as int
  {
    assert d[..1] == [d[0]];
  }

  /** Parsing a formatted clock time gives it back. */
  lemma {:induction false} ParseFormatRoundTrip(c: ClockTime)
    requires 0 <= c.hour < 100 && 0 <= c.minute < 100
    ensures ParseClock(FormatClock(c)) == Some(c)
  {
    var s := FormatClock(c);
    var hh, mm := s[..2], s[3..];
    assert BeforeColon(s) == hh by {
      assert BeforeColon(s[2..]) == [];
      assert BeforeColon(s[1..]) == [s[1]] + BeforeColon(s[2..]);
    }
    assert AfterColon(s) == Some(mm) by {
      assert AfterColon(s[1..]) == AfterColon(s[2..]);
    }
    assert BeforeColon(mm) == mm by {
      assert BeforeColon(mm[1..]) == [mm[1]] + BeforeColon(mm[2..]);
    }
    TwoDigitValue(hh);
    TwoDigitValue(mm);
  }

  lemma ConfiguredWindowsParse()
    ensures ParseClock(LoginWindow.start) == Some(ClockTime(10, 0))
    ensures ParseClock(LoginWindow.end) == Some(ClockTime(10, 20))
    ensures ParseClock(LogoutWindow.start) == Some(ClockTime(19, 0))
    ensures ParseClock(LogoutWindow.end) == Some(ClockTime(19, 20))
  {
    assert LoginWindow.start == FormatClock(ClockTime(10, 0));
    assert LoginWindow.end == FormatClock(ClockTime(10, 20));
    assert LogoutWindow.start == FormatClock(ClockTime(19, 0));
    assert LogoutWindow.end == FormatClock(ClockTime(19, 20));
    ParseFormatRoundTrip(ClockTime(10, 0));
    ParseFormatRoundTrip(ClockTime(10, 20));
    ParseFormatRoundTrip(ClockTime(19, 0));
    ParseFormatRoundTrip(ClockTime(19, 20));
  }

  /** `isTimeInWindow(w)` evaluated at `now`: both bounds are `now` with its clock fields
      replaced, and the comparison includes both ends. */
  predicate IsTimeInWindow(w: Window, now: Instant) {
    match (ParseClock(w.start), ParseClock(w.end))
    case (Some(s), Some(e)) =>
      EpochMs(now) >= SetHours(now, s.hour, s.minute, 0) && EpochMs(now) <= SetHours(now, e.hour, e.minute, 0)
    case _ => false
  }

  /** The window check is exactly a comparison of seconds of the day: the day and the
      milliseconds cancel out because both bounds are built from `now` itself. */
  lemma WindowIsSecondsOfDay(w: Window, now: Instant)
    ensures IsTimeInWindow(w, now) <==>
      ParseClock(w.start).Some? && ParseClock(w.end).Some? &&
      SecondsOf(ParseClock(w.start).value) <= now.secOfDay <= SecondsOf(ParseClock(w.end).value)
  {
  }

  /** Two moments with the same second of the day get the same answer, whatever their
      date and millisecond. */
  lemma WindowDependsOnlyOnTimeOfDay(w: Window, t1: Instant, t2: Instant)
    requires t1.secOfDay == t2.secOfDay
    ensures IsTimeInWindow(w, t1) == IsTimeInWindow(w, t2)
  {
    WindowIsSecondsOfDay(w, t1);
    WindowIsSecondsOfDay(w, t2);
  }

  /** With the configured windows: open exactly from 10:00:00 to 10:20:00 and from
      19:00:00 to 19:20:00, both ends included. */
  lemma ConfiguredWindowBounds(now: Instant)
    ensures IsTimeInWindow(LoginWindow, now) <==> 36000 <= now.secOfDay <= 37200
    ensures IsTimeInWindow(LogoutWindow, now) <==> 68400 <= now.secOfDay <= 69600
  {
    ConfiguredWindowsParse();
    WindowIsSecondsOfDay(LoginWindow, now);
    WindowIsSecondsOfDay(LogoutWindow, now);
  }

  /** Second granularity at the edges of the login window: 10:00:00 and 10:20:00 are
      inside, 09:59:59 and 10:20:01 are outside, at any millisecond. */
  lemma LoginWindowEdges(day: int, ms: int)
    ensures IsTimeInWindow(LoginWindow, Instant(day, 10 * 3600, ms))
    ensures IsTimeInWindow(LoginWindow, Instant(day, 10 * 3600 + 20 * 60, ms))
    ensures !IsTimeInWindow(LoginWindow, Instant(day, 10 * 3600 - 1, ms))
    ensures !IsTimeInWindow(LoginWindow, Instant(day, 10 * 3600 + 20 * 60 + 1, ms))
  {
    ConfiguredWindowBounds(Instant(day, 10 * 3600, ms));
    ConfiguredWindowBounds(Instant(day, 10 * 3600 + 20 * 60, ms));
    ConfiguredWindowBounds(Instant(day, 10 * 3600 - 1, ms));
    ConfiguredWindowBounds(Instant(day, 10 * 3600 + 20 * 60 + 1, ms));
  }

  /** The login and the logout window are never open at the same moment. */
  lemma WindowsNeverOverlap(now: Instant)
    ensures !(IsTimeInWindow(LoginWindow, now) && IsTimeInWindow(LogoutWindow, now))
  {
    ConfiguredWindowBounds(now);
  }

  // ---------------------------------------------------------------- buttons

  /** `!photo`: no photo, or the empty string. */
  predicate HasPhoto(photo: Option<string>) {
    photo.Some? && photo.value != ""
  }

  /** `lastLog?.type`, where `lastLog` is the newest entry of the user's log. */
  function LastType(logs: seq<AttendanceRecord>): Option<MarkType> {
    if logs == [] then None else Some(logs[0].markType)
  }

  /** The Login button's `disabled` expression. */
  predicate LoginDisabled(photo: Option<string>, logs: seq<AttendanceRecord>, loginOpen: bool) {
    !HasPhoto(photo) || LastType(logs) == Some(In) || !loginOpen
  }

  /** The Logout button's `disabled` expression. */
  predicate LogoutDisabled(photo: Option<string>, logs: seq<AttendanceRecord>, logoutOpen: bool) {
    !HasPhoto(photo) || LastType(logs) == Some(Out) || logs == [] || !logoutOpen
  }

  /** Login is offered in the "off duty" state (no log yet, or newest is OUT); Logout only
      in the "on duty" state (newest is IN). So the two are never offered together. */
  lemma ButtonStates(photo: Option<string>, logs: seq<AttendanceRecord>, loginOpen: bool, logoutOpen: bool)
    ensures !LoginDisabled(photo, logs, loginOpen) <==>
      HasPhoto(photo) && loginOpen && (logs == [] || logs[0].markType == Out)
    ensures !LogoutDisabled(photo, logs, logoutOpen) <==>
      HasPhoto(photo) && logoutOpen && logs != [] && logs[0].markType == In
    ensures LoginDisabled(photo, logs, loginOpen) || LogoutDisabled(photo, logs, logoutOpen)
  {
  }

  /** A newest-first log whose oldest entry is IN and whose entries alternate IN, OUT, IN, ... */
  predicate AlternatesFromIn(logs: seq<AttendanceRecord>) {
    forall i :: 0 <= i < |logs| ==> logs[i].markType == (if (|logs| - 1 - i) % 2 == 0 then In else Out)
  }

  /** A mark made through an enabled Login button extends an alternating log. */
  lemma {:induction false} LoginKeepsAlternation(logs: seq<AttendanceRecord>, rec: AttendanceRecord)
    requires AlternatesFromIn(logs)
    requires logs == [] || logs[0].markType == Out
    requires rec.markType == In
    ensures AlternatesFromIn([rec] + logs)
  {
    var n := [rec] + logs;
    assert |logs| % 2 == 0 by {
      if logs != [] {
        assert logs[0].markType == (if (|logs| - 1) % 2 == 0 then In else Out);
      }
    }
    forall i | 0 <= i < |n|
      ensures n[i].markType == (if (|n| - 1 - i) % 2 == 0 then In else Out)
    {
      if i > 0 {
        assert n[i] == logs[i - 1];
      }
    }
  }

  /** A mark made through an enabled Logout button extends an alternating log. */
  lemma {:induction false} LogoutKeepsAlternation(logs: seq<AttendanceRecord>, rec: AttendanceRecord)
    requires AlternatesFromIn(logs)
    requires logs != [] && logs[0].markType == In
    requires rec.markType == Out
    ensures AlternatesFromIn([rec] + logs)
  {
    var n := [rec] + logs;
    assert |logs| % 2 == 1 by {
      assert logs[0].markType == (if (|logs| - 1) % 2 == 0 then In else Out);
    }
    forall i | 0 <= i < |n|
      ensures n[i].markType == (if (|n| - 1 - i) % 2 == 0 then In else Out)
    {
      if i > 0 {
        assert n[i] == logs[i - 1];
      }
    }
  }

  /** Two marks of the same type in a row break the alternation, whatever came before. */
  lemma RepeatedMarkBreaksAlternation(logs: seq<AttendanceRecord>)
    requires |logs| >= 2 && logs[0].markType == logs[1].markType
    ensures !AlternatesFromIn(logs)
  {
    assert (|logs| - 1) % 2 != (|logs| - 2) % 2;
  }

  // ---------------------------------------------------------------- the desk

  /** The attendance screen of one signed-in user. Marks go to the store through its
      `AddAttendanceRecord`; the user's log is the store's list filtered by user id. */
  class DutyDesk {
    const user: User
    const store: AppStore
    /** The configured login and logout windows the screen reads. */
    const loginWindow: Window
    const logoutWindow: Window
    var photo: Option<string>
    var location: Option<Location>

    /** The `logs` prop: the user's attendance, newest first. */
    function Logs(): seq<AttendanceRecord>
      reads this, store
    {
      AttendanceOf(store.attendanceLogs, user.id)
    }

    constructor (user: User, store: AppStore)
      ensures this.user == user && this.store == store
      ensures loginWindow == LoginWindow && logoutWindow == LogoutWindow
      ensures photo == None && location == None
    {
      this.user := user;
      this.store := store;
      loginWindow := LoginWindow;
      logoutWindow := LogoutWindow;
      photo := None;
      location := None;
    }

    /** A frame taken from the camera (or nothing, when the video or canvas is missing). */
    method Capture(frame: Option<string>)
      modifies this`photo
      ensures photo == if frame.Some? then frame else old(photo)
    {
      if frame.Some? {
        photo := frame;
      }
    }

    /** The Retake button. */
    method Retake()
      modifies this`photo
      ensures photo == None
    {
      photo := None;
    }

    /** The geolocation callback. */
    method LocationFound(coords: Location)
      modifies this`location
      ensures location == Some(coords)
    {
      location := Some(coords);
    }

    /** `handleMark(type)`: with a photo and a location, records a mark of the requested
        type for this user and clears the photo; otherwise does nothing. It looks at neither
        the windows nor the previous mark, so a mark of the same type as the user's newest
        one is recorded too, and breaks the alternation of the user's log. */
    method HandleMark(markType: MarkType, id: string, timestamp: string, isValid: bool)
      modifies this`photo, store`attendanceLogs
      ensures location == old(location)
      ensures !HasPhoto(old(photo)) || old(location).None? ==>
        photo == old(photo) && store.attendanceLogs == old(store.attendanceLogs)
      ensures HasPhoto(old(photo)) && old(location).Some? ==>
        photo == None &&
        |store.attendanceLogs| == |old(store.attendanceLogs)| + 1 &&
        store.attendanceLogs[1..] == old(store.attendanceLogs) &&
        var rec := store.attendanceLogs[0];
        rec.id == id && rec.userId == user.id && rec.userName == user.name &&
        rec.markType == markType && rec.timestamp == timestamp &&
        rec.photo == old(photo).value && rec.location == old(location).value && rec.isValid == isValid
      ensures HasPhoto(old(photo)) && old(location).Some? ==>
        Logs() == [store.attendanceLogs[0]] + old(Logs())
      ensures HasPhoto(old(photo)) && old(location).Some? &&
              old(Logs()) != [] && old(Logs())[0].markType == markType ==>
        !AlternatesFromIn(Logs())
    {
      if !HasPhoto(photo) || location.None? {
        return;
      }
      ghost var before := store.attendanceLogs;
      var rec := AttendanceRecord(id, user.id, user.name, markType, timestamp, photo.value, location.value, isValid);
      store.AddAttendanceRecord(rec);
      photo := None;
      AttendanceViewAfterAdd(before, rec, user.id);
      if AttendanceOf(before, user.id) != [] && AttendanceOf(before, user.id)[0].markType == markType {
        RepeatedMarkBreaksAlternation(Logs());
      }
    }

    /** A click on the Login button at `now`: a disabled button, or a missing position,
        changes nothing; otherwise an IN mark goes in front of the store's log and of the
        user's log. Marks made this way keep the user's log alternating IN, OUT, IN, ...
        from the first IN. */
    method PressLogin(now: Instant, id: string, timestamp: string, isValid: bool)
      modifies this`photo, store`attendanceLogs
      ensures AlternatesFromIn(old(Logs())) ==> AlternatesFromIn(Logs())
      ensures LoginDisabled(old(photo), old(Logs()), IsTimeInWindow(loginWindow, now)) || location.None? ==>
        photo == old(photo) && store.attendanceLogs == old(store.attendanceLogs)
      ensures !LoginDisabled(old(photo), old(Logs()), IsTimeInWindow(loginWindow, now)) && location.Some? ==>
        photo == None &&
        store.attendanceLogs ==
          [AttendanceRecord(id, user.id, user.name, In, timestamp, old(photo).value, location.value, isValid)] +
          old(store.attendanceLogs) &&
        Logs() == [store.attendanceLogs[0]] + old(Logs())
    {
      if LoginDisabled(photo, Logs(), IsTimeInWindow(loginWindow, now)) {
        return;
      }
      ghost var before := Logs();
      HandleMark(In, id, timestamp, isValid);
      if location.Some? {
        assert store.attendanceLogs == [store.attendanceLogs[0]] + store.attendanceLogs[1..];
        if AlternatesFromIn(before) {
          LoginKeepsAlternation(before, store.attendanceLogs[0]);
        }
      }
    }

    /** A click on the Logout button at `now`: a disabled button, or a missing position,
        changes nothing; otherwise an OUT mark goes in front of the store's log and of the
        user's log, keeping it alternating. */
    method PressLogout(now: Instant, id: string, timestamp: string, isValid: bool)
      modifies this`photo, store`attendanceLogs
      ensures AlternatesFromIn(old(Logs())) ==> AlternatesFromIn(Logs())
      ensures LogoutDisabled(old(photo), old(Logs()), IsTimeInWindow(logoutWindow, now)) || location.None? ==>
        photo == old(photo) && store.attendanceLogs == old(store.attendanceLogs)
      ensures !LogoutDisabled(old(photo), old(Logs()), IsTimeInWindow(logoutWindow, now)) && location.Some? ==>
        photo == None &&
        store.attendanceLogs ==
          [AttendanceRecord(id, user.id, user.name, Out, timestamp, old(photo).value, location.value, isValid)] +
          old(store.attendanceLogs) &&
        Logs() == [store.attendanceLogs[0]] + old(Logs())
    {
      if LogoutDisabled(photo, Logs(), IsTimeInWindow(logoutWindow, now)) {
        return;
      }
      ghost var before := Logs();
      HandleMark(Out, id, timestamp, isValid);
      if location.Some? {
        assert store.attendanceLogs == [store.attendanceLogs[0]] + store.attendanceLogs[1..];
        if AlternatesFromIn(before) {
          LogoutKeepsAlternation(before, store.attendanceLogs[0]);
        }
      }
    }
  }
}
