/** The QQ group check-in plugin: the daily schedule at a configured clock
    time in a fixed-offset timezone, the whitelist, and the check-in
    statistics. */
module GroupSign {
  import opened Wrappers
  import opened SeqFacts
  import opened Text

  // ---------------------------------------------------------------------
  // Schedule.  Instants are integers counting microseconds of local wall
  // time, so a day is a fixed number of microseconds.

  const Second: int := 1000000
  const Day: int := 86400 * Second

  /** A `datetime.time` with whole seconds. */
  datatype ClockTime = ClockTime(hour: int, minute: int, second: int)

  /** The range `datetime.time` accepts. */
  predicate ValidClock(t: ClockTime) {
    0 <= t.hour <= 23 && 0 <= t.minute <= 59 && 0 <= t.second <= 59
  }

  /** The offset of the clock time from midnight, in microseconds. */
  function ClockOffset(t: ClockTime): (r: int)
    requires ValidClock(t)
    ensures 0 <= r < Day && r % Second == 0
  {
    (t.hour * 3600 + t.minute * 60 + t.second) * Second
  }

  /** Local wall time for a UTC instant under `timezone(timedelta(hours=h))`. */
  function LocalTime(utcMicros: int, offsetHours: int): int {
    utcMicros + offsetHours * 3600 * Second
  }

  /** `now.replace(hour=…, minute=…, second=…, microsecond=0)`: the instant
      of the same local day at clock time `t`. */
  function SameDayAt(now: int, t: ClockTime): (r: int)
    requires ValidClock(t)
    ensures r / Day == now / Day && r % Day == ClockOffset(t)
  {
    var r := (now / Day) * Day + ClockOffset(t);
    DivModUnique(r, now / Day, ClockOffset(t));
    r
  }

  lemma DivModUnique(r: int, q: int, m: int)
    requires r == q * Day + m && 0 <= m < Day
    ensures r / Day == q && r % Day == m
  {
  }

  /** A whole number of days more than minus one day is not negative. */
  lemma WholeDaysAbove(k: int)
    requires k * Day > -Day
    ensures k >= 0
  {
  }

  /** `_get_next_run_time`: today at the sign time when that is still
      ahead, otherwise tomorrow at the sign time. */
  function NextRunTime(now: int, t: ClockTime): (r: int)
    requires ValidClock(t)
    ensures now < r <= now + Day
    ensures r % Day == ClockOffset(t)
  {
    var target := SameDayAt(now, t);
    if now >= target then
      DivModUnique(target + Day, now / Day + 1, ClockOffset(t));
      target + Day
    else target
  }

  /** The next run is the earliest instant after `now` at the sign time. */
  lemma NextRunTimeIsEarliest(now: int, t: ClockTime, x: int)
    requires ValidClock(t) && now < x && x % Day == ClockOffset(t)
    ensures NextRunTime(now, t) <= x
  {
    var r := NextRunTime(now, t);
    DivModUnique(x, x / Day, ClockOffset(t));
    DivModUnique(r, r / Day, ClockOffset(t));
    assert x - r == (x / Day - r / Day) * Day;
    WholeDaysAbove(x / Day - r / Day);
  }

  /** The wait computed in each round of `_daily_sign_task`, including its
      guard that resets an over-long wait to tomorrow's run. */
  function DailyWait(now: int, t: ClockTime): (w: int)
    requires ValidClock(t)
    ensures 0 < w <= Day
  {
    var today := SameDayAt(now, t);
    var target := if now >= today then today + Day else today;
    var wait := target - now;
    if wait > Day then today + Day - now else wait
  }

  /** The reset branch of the daily task never fires: its wait is always the
      distance to the next run. */
  lemma DailyWaitIsNextRun(now: int, t: ClockTime)
    requires ValidClock(t)
    ensures DailyWait(now, t) == NextRunTime(now, t) - now
    ensures !(NextRunTime(now, t) - now > Day)
  {
  }

  // ---------------------------------------------------------------------
  // Parsing the sign time

  /** `hour, minute, second = map(int, s.split(':'))` followed by
      `time(hour, minute, second)`: None when either raises. */
  function ParseClock(s: string): (r: Option<ClockTime>)
    ensures r.Some? ==> ValidClock(r.value)
  {
    var parts := Split(s, ':');
    if |parts| != 3 then None
    else
      var h := ParseInt(parts[0]);
      var m := ParseInt(parts[1]);
      var sec := ParseInt(parts[2]);
      if h.None? || m.None? || sec.None? then None
      else if ValidClock(ClockTime(h.value, m.value, sec.value)) then Some(ClockTime(h.value, m.value, sec.value))
      else None
  }

  const DefaultSignTime: ClockTime := ClockTime(8, 0, 0)

  /** The sign time the constructor derives from its configuration: the
      parsed value, or 08:00:00 when the text does not parse. */
  function ConfiguredSignTime(s: string): (t: ClockTime)
    ensures ValidClock(t)
    ensures ParseClock(s).Some? ==> t == ParseClock(s).value
    ensures ParseClock(s).None? ==> t == ClockTime(8, 0, 0)
  {
    match ParseClock(s)
    case Some(t) => t
    case None => DefaultSignTime
  }

  /** Two-digit zero-padded rendering, as `strftime('%H')` does. */
  function Pad2(n: int): (r: string)
    requires 0 <= n < 100
    ensures |r| == 2 && ':' !in r
  {
    [DigitChar(n / 10), DigitChar(n % 10)]
  }

  /** `strftime('%H:%M:%S')` of a clock time. */
  function FormatClock(t: ClockTime): (r: string)
    requires ValidClock(t)
    ensures |r| == 8
  {
    Pad2(t.hour) + ":" + Pad2(t.minute) + ":" + Pad2(t.second)
  }

  lemma ParsePad2(n: int)
    requires 0 <= n < 100
    ensures ParseInt(Pad2(n)) == Some(n)
  {
    var hi, lo := n / 10, n % 10;
    DigitCharValue(hi);
    DigitCharValue(lo);
    var p := Pad2(n);
    assert p == [DigitChar(hi), DigitChar(lo)];
    StripNoEdge(p);
    assert p[..1] == [DigitChar(hi)] && p[..1][..0] == [];
    assert DigitsValue(p[..1]) == hi;
    assert DigitsValue(p) == hi * 10 + lo;
  }

  /** The time shown to users parses back to the same time. */
  lemma ParseFormatClock(t: ClockTime)
    requires ValidClock(t)
    ensures ParseClock(FormatClock(t)) == Some(t)
  {
    var xs := [Pad2(t.hour), Pad2(t.minute), Pad2(t.second)];
    assert xs[1..] == [Pad2(t.minute), Pad2(t.second)];
    assert xs[1..][1..] == [Pad2(t.second)];
    assert Join(xs[1..], ':') == Pad2(t.minute) + ":" + Pad2(t.second);
    assert Join(xs, ':') == Pad2(t.hour) + ":" + (Pad2(t.minute) + ":" + Pad2(t.second));
    assert Join(xs, ':') == FormatClock(t);
    SplitJoin(xs, ':');
    ParsePad2(t.hour);
    ParsePad2(t.minute);
    ParsePad2(t.second);
  }

  // ---------------------------------------------------------------------
  // Whitelist

  predicate Distinct(xs: seq<string>) {
    forall i, j :: 0 <= i < j < |xs| ==> xs[i] != xs[j]
  }

  /** The whitelist after `add_whitelist` of an already stripped id. */
  function WithGroup(ws: seq<string>, id: string): (r: seq<string>)
    ensures forall x :: x in r <==> x in ws || x == id
  {
    if id in ws then ws else ws + [id]
  }

  /** `list.remove(id)` guarded by `id in list`: the first occurrence goes. */
  function RemoveFirst(ws: seq<string>, id: string): (r: seq<string>)
    ensures id in ws ==> |r| == |ws| - 1
    ensures id !in ws ==> r == ws
    ensures forall x :: x in r ==> x in ws
  {
    if ws == [] then []
    else if ws[0] == id then ws[1..]
    else
      var rest := RemoveFirst(ws[1..], id);
      assert forall x :: x in ws[1..] ==> x in ws;
      [ws[0]] + rest
  }

  /** Adding keeps the whitelist free of duplicates. */
  lemma WithGroupDistinct(ws: seq<string>, id: string)
    requires Distinct(ws)
    ensures Distinct(WithGroup(ws, id))
  {
  }

  /** Adding the same id twice is adding it once. */
  lemma WithGroupIdempotent(ws: seq<string>, id: string)
    ensures WithGroup(WithGroup(ws, id), id) == WithGroup(ws, id)
  {
  }

  /** On a whitelist without duplicates, removal takes the id out entirely,
      keeps every other id and keeps the list free of duplicates. */
  lemma {:induction false} RemoveFirstDistinct(ws: seq<string>, id: string)
    requires Distinct(ws)
    ensures var r := RemoveFirst(ws, id);
      Distinct(r) && id !in r && forall x :: x != id ==> (x in r <==> x in ws)
  {
    if ws != [] {
      DistinctTail(ws);
      RemoveFirstDistinct(ws[1..], id);
      if ws[0] != id {
        DistinctCons(ws[0], RemoveFirst(ws[1..], id));
      }
    }
  }

  /** A list without duplicates is its head, which does not recur, before
      a tail without duplicates. */
  lemma DistinctTail(ws: seq<string>)
    requires Distinct(ws) && ws != []
    ensures Distinct(ws[1..]) && ws[0] !in ws[1..]
    ensures forall x :: x in ws <==> x == ws[0] || x in ws[1..]
  {
    assert ws == [ws[0]] + ws[1..];
    forall i, j | 0 <= i < j < |ws[1..]| ensures ws[1..][i] != ws[1..][j] {
      assert ws[1..][i] == ws[i + 1] && ws[1..][j] == ws[j + 1];
    }
    forall k | 0 <= k < |ws[1..]| ensures ws[1..][k] != ws[0] {
      assert ws[1..][k] == ws[k + 1];
    }
  }

  /** Putting a new id before a list without duplicates keeps it so. */
  lemma DistinctCons(x: string, rest: seq<string>)
    requires Distinct(rest) && x !in rest
    ensures Distinct([x] + rest)
    ensures forall y :: y in [x] + rest <==> y == x || y in rest
  {
    var r := [x] + rest;
    forall i, j | 0 <= i < j < |r| ensures r[i] != r[j] {
      assert r[j] == rest[j - 1];
      if i > 0 {
        assert r[i] == rest[i - 1];
      }
    }
  }

  /** Removing a freshly added id restores the whitelist. */
  lemma {:induction false} RemoveAfterAdd(ws: seq<string>, id: string)
    requires id !in ws
    ensures RemoveFirst(WithGroup(ws, id), id) == ws
  {
    if ws != [] {
      assert (ws + [id])[1..] == ws[1..] + [id];
      RemoveAfterAdd(ws[1..], id);
    }
  }

  // ---------------------------------------------------------------------
  // Check-in results

  /** What `asyncio.gather` yields for one group's check-in: an exception,
      the result dict (its `success` flag, absent meaning false, and its
      optional `message`), or something else. */
  datatype GroupResult =
    | Raised(error: string)
    | Returned(success: bool, message: Option<string>)
    | Malformed

  predicate Succeeded(r: GroupResult) {
    r.Returned? && r.success
  }

  /** The status text `_sign_target_groups` reports for one group. */
  function StatusText(r: GroupResult): string {
    match r
    case Raised(e) => "❌ 失败: " + e
    case Returned(ok, m) => if ok then "✅ 成功" else "❌ 失败: " + m.GetOr("未知错误")
    case Malformed => "❌ 失败: 返回结果异常"
  }

  /** The status text reads as a success exactly for the results counted
      as successes. */
  lemma StatusTextMarksSuccess(r: GroupResult)
    ensures Succeeded(r) <==> StatusText(r) == "✅ 成功"
  {
    if !Succeeded(r) {
      assert StatusText(r)[0] != "✅ 成功"[0];
    }
  }

  /** The report line for one group. */
  function StatusLine(groupId: string, r: GroupResult): string {
    "群 " + groupId + " 打卡" + StatusText(r)
  }

  /** The report lines for the groups and their results, in order. */
  function StatusLines(groupList: seq<string>, results: seq<GroupResult>): (lines: seq<string>)
    requires |results| == |groupList|
    ensures |lines| == |groupList|
    ensures forall i :: 0 <= i < |groupList| ==> lines[i] == StatusLine(groupList[i], results[i])
  {
    seq(|groupList|, i requires 0 <= i < |groupList| => StatusLine(groupList[i], results[i]))
  }

  /** The number of successful results. */
  function Successes(rs: seq<GroupResult>): (n: nat)
    ensures n <= |rs|
  {
    if rs == [] then 0
    else Successes(rs[..|rs| - 1]) + (if Succeeded(rs[|rs| - 1]) then 1 else 0)
  }

  /** Counting one more result adds one exactly when it succeeded. */
  lemma SuccessesSnoc(rs: seq<GroupResult>, i: nat)
    requires i < |rs|
    ensures Successes(rs[..i + 1]) == Successes(rs[..i]) + (if Succeeded(rs[i]) then 1 else 0)
  {
    assert rs[..i + 1][..i] == rs[..i];
  }

  /** The report line of a group whose check-in succeeded. */
  function SuccessLine(groupId: string): string {
    "群 " + groupId + " 打卡✅ 成功"
  }

  /** A report line reads as that group's success line exactly when its
      result succeeded. */
  lemma StatusLineMarksSuccess(groupId: string, r: GroupResult)
    ensures StatusLine(groupId, r) == SuccessLine(groupId) <==> Succeeded(r)
  {
    var p := "群 " + groupId + " 打卡";
    assert SuccessLine(groupId) == p + "✅ 成功";
    assert (p + StatusText(r))[|p|..] == StatusText(r);
    assert (p + "✅ 成功")[|p|..] == "✅ 成功";
    StatusTextMarksSuccess(r);
  }

  /** The number of lines that are their group's success line. */
  function SuccessLineCount(groupList: seq<string>, lines: seq<string>): nat
    requires |lines| == |groupList|
  {
    if lines == [] then 0
    else
      var n := |lines| - 1;
      SuccessLineCount(groupList[..n], lines[..n]) + (if lines[n] == SuccessLine(groupList[n]) then 1 else 0)
  }

  /** The report marks a group as successful exactly when its result
      succeeded, so it shows as many success lines as there are successes. */
  lemma {:induction false} StatusLinesReportSuccesses(groupList: seq<string>, results: seq<GroupResult>)
    requires |results| == |groupList|
    ensures forall i :: 0 <= i < |groupList| ==>
      (StatusLines(groupList, results)[i] == SuccessLine(groupList[i]) <==> Succeeded(results[i]))
    ensures SuccessLineCount(groupList, StatusLines(groupList, results)) == Successes(results)
  {
    var lines := StatusLines(groupList, results);
    forall i | 0 <= i < |groupList|
      ensures lines[i] == SuccessLine(groupList[i]) <==> Succeeded(results[i])
    {
      StatusLineMarksSuccess(groupList[i], results[i]);
    }
    if groupList != [] {
      var n := |groupList| - 1;
      StatusLinesReportSuccesses(groupList[..n], results[..n]);
      assert lines[..n] == StatusLines(groupList[..n], results[..n]);
    }
  }

  /** Every result is counted exactly once, as a success or as a failure:
      the successes are the results that succeeded, position by position. */
  lemma {:induction false} SuccessesAllOrNothing(rs: seq<GroupResult>)
    ensures Successes(rs) == |rs| <==> forall i :: 0 <= i < |rs| ==> Succeeded(rs[i])
    ensures Successes(rs) == 0 <==> forall i :: 0 <= i < |rs| ==> !Succeeded(rs[i])
  {
    if rs != [] {
      var init := rs[..|rs| - 1];
      SuccessesAllOrNothing(init);
      assert forall i :: 0 <= i < |init| ==> init[i] == rs[i];
    }
  }

  /** The outcome of `_sign_target_groups`. */
  datatype BatchOutcome =
    | NoGroups                                   // "❌ 没有可打卡的群组"
    | Signed(lines: seq<string>, successes: nat, failures: nat)

  /** The outcome of the manual `打卡` command. */
  datatype ManualOutcome = NotInGroup | SignedOk | SignFailed(message: string)

  /** The configuration entries the plugin reads at start-up. */
  datatype SignConfig = SignConfig(signTime: string, timezoneHours: int)

  /** The plugin's bookkeeping: the sign time (and its configuration entry),
      the whitelist and the statistics. */
  class SignPlugin {
    var signTime: ClockTime
    var configSignTime: string
    const timezoneHours: int
    var whitelistGroups: seq<string>
    var totalSigns: int
    var successCount: int
    var failCount: int
    var lastSignTime: Option<int>

    /** Every check-in is counted once, as a success or as a failure; the
        whitelist holds no duplicates; the sign time is a valid clock time. */
    ghost predicate Valid()
      reads this
    {
      && ValidClock(signTime)
      && Distinct(whitelistGroups)
      && successCount >= 0 && failCount >= 0
      && totalSigns == successCount + failCount
    }

    constructor (config: SignConfig)
      ensures Valid()
      ensures signTime == ConfiguredSignTime(config.signTime) && configSignTime == config.signTime
      ensures timezoneHours == config.timezoneHours
      ensures whitelistGroups == [] && totalSigns == 0 && successCount == 0 && failCount == 0
      ensures lastSignTime == None
    {
      timezoneHours := config.timezoneHours;
      whitelistGroups := [];
      totalSigns := 0;
      successCount := 0;
      failCount := 0;
      lastSignTime := None;
      configSignTime := config.signTime;
      signTime := ConfiguredSignTime(config.signTime);
    }

    /** `_get_next_run_time` for the UTC instant `utcMicros`: the next run
        after the local time in the configured zone, so strictly in the
        future, at most one day ahead, at the sign time of day. */
    method GetNextRunTime(utcMicros: int) returns (r: int)
      requires Valid()
      ensures r == NextRunTime(LocalTime(utcMicros, timezoneHours), signTime)
      ensures var now := LocalTime(utcMicros, timezoneHours);
        now < r <= now + Day && r % Day == ClockOffset(signTime)
    {
      r := NextRunTime(LocalTime(utcMicros, timezoneHours), signTime);
    }

    /** `set_sign_time`: accept exactly the texts that parse to a valid
        clock time; on rejection nothing changes. */
    method SetSignTime(timeStr: string) returns (ok: bool)
      requires Valid()
      modifies this
      ensures Valid()
      ensures ok <==> ParseClock(timeStr).Some?
      ensures ok ==> signTime == ParseClock(timeStr).value && configSignTime == timeStr
      ensures !ok ==> signTime == old(signTime) && configSignTime == old(configSignTime)
      ensures whitelistGroups == old(whitelistGroups) && lastSignTime == old(lastSignTime)
      ensures totalSigns == old(totalSigns) && successCount == old(successCount) && failCount == old(failCount)
    {
      var parsed := ParseClock(timeStr);
      if parsed.None? {
        return false;
      }
      signTime := parsed.value;
      configSignTime := timeStr;
      return true;
    }

    /** `add_whitelist`: append the stripped id unless it is already there. */
    method AddWhitelist(groupId: string) returns (added: bool)
      requires Valid()
      modifies this
      ensures Valid()
      ensures added <==> Strip(groupId) !in old(whitelistGroups)
      ensures whitelistGroups == WithGroup(old(whitelistGroups), Strip(groupId))
      ensures signTime == old(signTime) && configSignTime == old(configSignTime) && lastSignTime == old(lastSignTime)
      ensures totalSigns == old(totalSigns) && successCount == old(successCount) && failCount == old(failCount)
    {
      var id := Strip(groupId);
      WithGroupDistinct(whitelistGroups, id);
      if id !in whitelistGroups {
        whitelistGroups := whitelistGroups + [id];
        return true;
      }
      return false;
    }

    /** `remove_whitelist`: remove the stripped id when it is there; it is
        then absent from the whitelist. */
    method RemoveWhitelist(groupId: string) returns (removed: bool)
      requires Valid()
      modifies this
      ensures Valid()
      ensures removed <==> Strip(groupId) in old(whitelistGroups)
      ensures whitelistGroups == RemoveFirst(old(whitelistGroups), Strip(groupId))
      ensures Strip(groupId) !in whitelistGroups
      ensures signTime == old(signTime) && configSignTime == old(configSignTime) && lastSignTime == old(lastSignTime)
      ensures totalSigns == old(totalSigns) && successCount == old(successCount) && failCount == old(failCount)
    {
      var id := Strip(groupId);
      RemoveFirstDistinct(whitelistGroups, id);
      if id in whitelistGroups {
        whitelistGroups := RemoveFirst(whitelistGroups, id);
        return true;
      }
      return false;
    }

    /** `_sign_target_groups` at time `now`, given each group's check-in
        result in list order: count the successes and failures, report one
        line per group, and add the batch to the statistics. */
    method SignTargetGroups(groupList: seq<string>, results: seq<GroupResult>, now: int) returns (outcome: BatchOutcome)
      requires Valid()
      requires |results| == |groupList|
      modifies this
      ensures Valid()
      ensures groupList == [] ==>
        && outcome == NoGroups
        && totalSigns == old(totalSigns) && successCount == old(successCount) && failCount == old(failCount)
        && lastSignTime == old(lastSignTime)
      ensures groupList != [] ==>
        && outcome.Signed?
        && outcome.successes == Successes(results)
        && outcome.successes + outcome.failures == |groupList|
        && |outcome.lines| == |groupList|
        && (forall i :: 0 <= i < |groupList| ==> outcome.lines[i] == StatusLine(groupList[i], results[i]))
        && totalSigns == old(totalSigns) + |groupList|
        && successCount == old(successCount) + outcome.successes
        && failCount == old(failCount) + outcome.failures
        && lastSignTime == Some(now)
      ensures signTime == old(signTime) && configSignTime == old(configSignTime) && whitelistGroups == old(whitelistGroups)
    {
      if groupList == [] {
        return NoGroups;
      }
      var success, fail, messages := TallyResults(groupList, results);
      totalSigns := totalSigns + |groupList|;
      successCount := successCount + success;
      failCount := failCount + fail;
      lastSignTime := Some(now);
      outcome := Signed(messages, success, fail);
    }

    /** The counting loop of `_sign_target_groups`: one status line per
        group, and the successes and failures among the results. */
    static method TallyResults(groupList: seq<string>, results: seq<GroupResult>)
      returns (success: nat, fail: nat, messages: seq<string>)
      requires |results| == |groupList|
      ensures success == Successes(results) && success + fail == |groupList|
      ensures |messages| == |groupList|
      ensures forall i :: 0 <= i < |groupList| ==> messages[i] == StatusLine(groupList[i], results[i])
    {
      success, fail, messages := 0, 0, [];
      for i := 0 to |groupList|
        invariant success == Successes(results[..i])
        invariant success + fail == i
        invariant |messages| == i
        invariant messages == StatusLines(groupList, results)[..i]
      {
        SuccessesSnoc(results, i);
        PrefixSnoc(StatusLines(groupList, results), i);
        if Succeeded(results[i]) {
          success := success + 1;
        } else {
          fail := fail + 1;
        }
        messages := messages + [StatusLine(groupList[i], results[i])];
      }
      WholePrefix(results);
      WholePrefix(StatusLines(groupList, results));
    }

    /** The manual `打卡` command at time `now` in the chat `groupId` ("" for
        a private chat), given whether the check-in succeeded: one more
        check-in is counted, as a success or as a failure. */
    method ManualSign(groupId: string, succeeded: bool, message: string, now: int) returns (outcome: ManualOutcome)
      requires Valid()
      modifies this
      ensures Valid()
      ensures groupId == [] ==>
        && outcome == NotInGroup
        && totalSigns == old(totalSigns) && successCount == old(successCount) && failCount == old(failCount)
        && lastSignTime == old(lastSignTime)
      ensures groupId != [] && succeeded ==>
        && outcome == SignedOk
        && totalSigns == old(totalSigns) + 1 && successCount == old(successCount) + 1 && failCount == old(failCount)
        && lastSignTime == Some(now)
      ensures groupId != [] && !succeeded ==>
        && outcome == SignFailed(message)
        && totalSigns == old(totalSigns) + 1 && successCount == old(successCount) && failCount == old(failCount) + 1
        && lastSignTime == old(lastSignTime)
      ensures signTime == old(signTime) && configSignTime == old(configSignTime) && whitelistGroups == old(whitelistGroups)
    {
      if groupId == [] {
        return NotInGroup;
      }
      if succeeded {
        totalSigns := totalSigns + 1;
        successCount := successCount + 1;
        lastSignTime := Some(now);
        outcome := SignedOk;
      } else {
        totalSigns := totalSigns + 1;
        failCount := failCount + 1;
        outcome := SignFailed(message);
      }
    }
  }
}
