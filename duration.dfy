/**
 * `format_duration`: seconds rendered as "Hh Mm Ss", or "Mm Ss" when the hour
 * count is zero, and a placeholder when the duration is falsy.
 */
module Duration {
  import opened Wrappers
  import opened Strings
  import opened JsonValue

  const NoDuration := "No duration available"

  /** The layout of a rendered duration, hours left out when they are zero. */
  function Clock(h: int, m: int, s: int): string {
    (if h != 0 then IntToString(h) + "h " else "") + IntToString(m) + "m " + IntToString(s) + "s"
  }

  /**
   * `format_duration` on an integer. Python's `divmod` by a positive divisor
   * floors, which is what Dafny's `/` and `%` do, so negative durations come
   * out as Python prints them (`-1` becomes "-1h 59m 59s").
   */
  function FormatSeconds(d: int): (r: string)
    ensures r == NoDuration <==> d == 0
  {
    if d == 0 then NoDuration
    else
      var hours, remainder := d / 3600, d % 3600;
      var minutes, seconds := remainder / 60, remainder % 60;
      var r := if hours != 0
        then IntToString(hours) + "h " + IntToString(minutes) + "m " + IntToString(seconds) + "s"
        else IntToString(minutes) + "m " + IntToString(seconds) + "s";
      assert r[0] == (if hours != 0 then IntToString(hours) else IntToString(minutes))[0];
      r
  }

  /**
   * `format_duration(video_details.get('duration'))`: the argument is `None`
   * when the key is absent. `True` counts as the integer 1; any other truthy
   * value that is not a number makes `divmod` raise.
   */
  function FormatDuration(duration: Option<Json>): (r: Result<string, Fault>)
    ensures r == Ok(NoDuration) <==> duration.None? || !Truthy(duration.value)
    ensures r.Err? <==>
      duration.Some? && Truthy(duration.value) && !duration.value.JInt? && !duration.value.JBool?
    ensures r.Err? ==> r.error == DivmodOnNonNumber
    ensures forall i :: duration == Some(JInt(i)) ==> r == Ok(FormatSeconds(i))
    ensures duration == Some(JNull) ==> r == Ok(NoDuration)
    ensures forall b :: duration == Some(JBool(b)) ==> r == Ok(if b then FormatSeconds(1) else NoDuration)
  {
    match duration
    case None => Ok(NoDuration)
    case Some(v) =>
      if !Truthy(v) then Ok(NoDuration)
      else
        match v
        case JInt(i) => Ok(FormatSeconds(i))
        case JBool(_) => Ok(FormatSeconds(1))
        case _ => Err(DivmodOnNonNumber)
  }

  /** A `null` duration gives the placeholder, and `True` counts as one second. */
  lemma NullAndBoolDurations()
    ensures FormatDuration(Some(JNull)) == Ok(NoDuration)
    ensures FormatDuration(Some(JBool(false))) == Ok(NoDuration)
    ensures FormatDuration(Some(JBool(true))) == Ok("0m 1s")
  {
    FormatSecondsDecomposes(1, 0, 0, 1);
    assert IntToString(0) == "0" && IntToString(1) == "1";
    assert Clock(0, 0, 1) == "0m 1s";
  }

  lemma MulAtLeast(x: int, b: int)
    requires x >= 1 && b > 0
    ensures x * b >= b
  {
    assert x * b == (x - 1) * b + b;
  }

  lemma DivModUnique(a: int, b: int, q: int, r: int)
    requires b > 0 && 0 <= r < b && a == q * b + r
    ensures a / b == q && a % b == r
  {
    var q', r' := a / b, a % b;
    assert a == q' * b + r';
    assert (q - q') * b == q * b - q' * b;
    if q > q' {
      MulAtLeast(q - q', b);
    } else if q < q' {
      MulAtLeast(q' - q, b);
    }
  }

  /**
   * Any split of `d` into hours, minutes below 60 and seconds below 60 is the
   * one printed: the output is determined by that decomposition alone.
   */
  lemma FormatSecondsDecomposes(d: int, h: int, m: int, s: int)
    requires d != 0 && d == h * 3600 + m * 60 + s
    requires 0 <= m < 60 && 0 <= s < 60
    ensures FormatSeconds(d) == Clock(h, m, s)
  {
    var rest := m * 60 + s;
    assert 0 <= rest < 3600 by {
      assert 0 <= m * 60 <= 3540;
    }
    DivModUnique(d, 3600, h, rest);
    DivModUnique(rest, 60, m, s);
    assert d / 3600 == h && d % 3600 == rest;
    assert rest / 60 == m && rest % 60 == s;
  }

  /** The unit letter 'h' occurs in a clock rendering exactly when the hour field is printed. */
  lemma HourMark(a: string, b: string, c: string, withHours: bool)
    requires 'h' !in a && 'h' !in b && 'h' !in c
    ensures 'h' in (if withHours then a + "h " else "") + b + "m " + c + "s" <==> withHours
  {
    if withHours {
      assert (a + "h " + b + "m " + c + "s")[|a|] == 'h';
    }
  }

  lemma NoLetter(i: int)
    ensures 'h' !in IntToString(i)
  {
    var r := IntToString(i);
    forall k | 0 <= k < |r|
      ensures r[k] != 'h'
    {
      assert IsDigit(r[k]) || r[k] == '-';
    }
  }

  /** The hour field is printed exactly when floor(d / 3600) is not zero. */
  lemma HoursShown(d: int)
    ensures 'h' in FormatSeconds(d) <==> d >= 3600 || d < 0
  {
    if d != 0 {
      var hours, remainder := d / 3600, d % 3600;
      var minutes, seconds := remainder / 60, remainder % 60;
      NoLetter(hours);
      NoLetter(minutes);
      NoLetter(seconds);
      HourMark(IntToString(hours), IntToString(minutes), IntToString(seconds), hours != 0);
      assert FormatSeconds(d) == Clock(hours, minutes, seconds);
    }
  }

  /** Reads a duration back from its rendering: the unit letter ends each field. */
  function DurationFromText(r: string): int {
    if r == NoDuration then 0
    else
      var parts := Split(r, ' ');
      if |parts| == 3 then Field(parts[0]) * 3600 + Field(parts[1]) * 60 + Field(parts[2])
      else if |parts| == 2 then Field(parts[0]) * 60 + Field(parts[1])
      else 0
  }

  function Field(p: string): int {
    if p == [] then 0 else ParseInt(p[..|p| - 1])
  }

  lemma FieldOf(i: int, unit: char)
    requires unit != ' ' && !IsDigit(unit) && unit != '-'
    ensures Field(IntToString(i) + [unit]) == i
    ensures ' ' !in IntToString(i) + [unit]
  {
    var p := IntToString(i) + [unit];
    assert p[..|p| - 1] == IntToString(i);
    IntToStringRoundTrip(i);
  }

  lemma ClockIsNotPlaceholder(h: int, m: int, s: int)
    ensures Clock(h, m, s) != NoDuration
  {
    var lead := if h != 0 then IntToString(h) else IntToString(m);
    assert Clock(h, m, s)[0] == lead[0];
    assert lead[0] != 'N';
  }

  lemma JoinTwo(a: string, b: string)
    ensures Join([a, b], ' ') == a + " " + b
  {
    assert [a, b][1..] == [b];
  }

  lemma JoinThree(a: string, b: string, c: string)
    ensures Join([a, b, c], ' ') == a + " " + b + " " + c
  {
    assert [a, b, c][1..] == [b, c];
    JoinTwo(b, c);
  }

  /** Parsing the fields of a rendering whose pieces are `pieces`. */
  lemma ReadPieces(r: string, pieces: seq<string>)
    requires r != NoDuration && |pieces| >= 1 && NoSeparator(pieces, ' ') && r == Join(pieces, ' ')
    ensures |pieces| == 3 ==>
      DurationFromText(r) == Field(pieces[0]) * 3600 + Field(pieces[1]) * 60 + Field(pieces[2])
    ensures |pieces| == 2 ==> DurationFromText(r) == Field(pieces[0]) * 60 + Field(pieces[1])
  {
    SplitJoin(pieces, ' ');
  }

  /** Regrouping three unit-suffixed fields around their separating spaces. */
  lemma Regroup(x: string, p: char, y: string, q: char, z: string, r: char)
    ensures x + [p, ' '] + y + [q, ' '] + z + [r] == (x + [p]) + " " + (y + [q]) + " " + (z + [r])
  {
    var lhs := x + [p, ' '] + y + [q, ' '] + z + [r];
    var rhs := (x + [p]) + " " + (y + [q]) + " " + (z + [r]);
    assert |lhs| == |rhs|;
    forall k | 0 <= k < |lhs|
      ensures lhs[k] == rhs[k]
    {
    }
  }

  lemma ClockWithHours(h: int, m: int, s: int)
    requires h != 0
    ensures Clock(h, m, s) == Join([IntToString(h) + "h", IntToString(m) + "m", IntToString(s) + "s"], ' ')
  {
    var a, b, c := IntToString(h), IntToString(m), IntToString(s);
    JoinThree(a + "h", b + "m", c + "s");
    assert Clock(h, m, s) == a + "h " + b + "m " + c + "s";
    Regroup(a, 'h', b, 'm', c, 's');
  }

  lemma ReadWithHours(h: int, m: int, s: int)
    requires h != 0
    ensures DurationFromText(Clock(h, m, s)) == h * 3600 + m * 60 + s
  {
    var hh, mm, ss := IntToString(h) + "h", IntToString(m) + "m", IntToString(s) + "s";
    ClockWithHours(h, m, s);
    ClockIsNotPlaceholder(h, m, s);
    FieldOf(h, 'h');
    FieldOf(m, 'm');
    FieldOf(s, 's');
    assert NoSeparator([hh, mm, ss], ' ');
    ReadPieces(Clock(h, m, s), [hh, mm, ss]);
  }

  lemma ReadWithoutHours(m: int, s: int)
    ensures DurationFromText(Clock(0, m, s)) == m * 60 + s
  {
    var r := Clock(0, m, s);
    ClockIsNotPlaceholder(0, m, s);
    var mm, ss := IntToString(m) + "m", IntToString(s) + "s";
    assert r == mm + " " + ss;
    FieldOf(m, 'm');
    FieldOf(s, 's');
    JoinTwo(mm, ss);
    assert NoSeparator([mm, ss], ' ');
    ReadPieces(r, [mm, ss]);
    assert DurationFromText(r) == Field(mm) * 60 + Field(ss);
  }

  lemma ClockRoundTrip(h: int, m: int, s: int)
    ensures DurationFromText(Clock(h, m, s)) == h * 3600 + m * 60 + s
  {
    if h != 0 {
      ReadWithHours(h, m, s);
    } else {
      ReadWithoutHours(m, s);
    }
  }

  /** No information is lost: the rendering determines the duration. */
  lemma DurationRoundTrip(d: int)
    ensures DurationFromText(FormatSeconds(d)) == d
  {
    if d != 0 {
      var h, m, s := d / 3600, (d % 3600) / 60, (d % 3600) % 60;
      FormatSecondsDecomposes(d, h, m, s);
      ClockRoundTrip(h, m, s);
    }
  }
}
