/**
 * The payload of an "Annual Report Uploaded" row: `"<year> --- <name>"`,
 * optionally followed by `" --- <state>"`, and the payloads of the
 * "Annual Report Reminder" rows an upload closes.
 */
module Reports {
  import opened Wrappers
  import opened Text

  const SEPARATOR := "---"

  datatype Report = Report(year: string, name: string, state: Option<string>)

  /**
   * Splits the payload on "---" and strips the pieces: the year is piece 0,
   * the name piece 1, and the state piece 2 only when there are exactly three
   * pieces. With fewer than two pieces the source raises an IndexError, here `None`.
   */
  function ParseReport(data: string): (r: Option<Report>)
    ensures r.None? <==> !Contains(data, SEPARATOR)
    ensures r.Some? ==> Trimmed(r.value.year) && Trimmed(r.value.name)
    ensures r.Some? ==> (r.value.state.Some? <==> |Split(data, SEPARATOR)| == 3)
    ensures r.Some? && r.value.state.Some? ==> Trimmed(r.value.state.value)
  {
    SplitSingle(data, SEPARATOR);
    var pieces := Split(data, SEPARATOR);
    if |pieces| < 2 then None
    else
      Some(Report(Strip(pieces[0]), Strip(pieces[1]), if |pieces| == 3 then Some(Strip(pieces[2])) else None))
  }

  /** The data of a reminder for a report without a state. */
  function ReminderKey(year: string, name: string): string {
    year + " --- " + name
  }

  /** The data of a reminder for a report with a state. */
  function ReminderKeyWithState(year: string, name: string, state: string): string {
    year + " --- " + name + " --- " + state
  }

  /**
   * The reminder payloads an upload closes: always the one without a state,
   * and the one with the state when the state is present and not empty
   * (an empty string is false in the source's test).
   */
  function ReminderKeys(r: Report): set<string> {
    {ReminderKey(r.year, r.name)}
      + (if r.state.Some? && r.state.value != "" then {ReminderKeyWithState(r.year, r.name, r.state.value)} else {})
  }

  /**
   * An upload always closes the reminder without a state, and a second one,
   * with the state, exactly when the state is present and not empty.
   */
  lemma ReminderKeysCases(r: Report)
    ensures ReminderKey(r.year, r.name) in ReminderKeys(r)
    ensures |ReminderKeys(r)| == (if r.state.Some? && r.state.value != "" then 2 else 1)
    ensures r.state.Some? && r.state.value != "" ==> ReminderKeyWithState(r.year, r.name, r.state.value) in ReminderKeys(r)
  {
    if r.state.Some? && r.state.value != "" {
      assert |ReminderKeyWithState(r.year, r.name, r.state.value)| > |ReminderKey(r.year, r.name)|;
    }
  }

  /** A part of a payload that parses back to itself: no separator inside and no white space to strip. */
  predicate Clean(part: string) {
    Trimmed(part) && !Contains(part, SEPARATOR)
  }

  /** A string without dashes cannot contain the separator. */
  lemma NoDashes(s: string)
    requires forall k :: 0 <= k < |s| ==> s[k] != '-'
    ensures !Contains(s, SEPARATOR)
  {
    forall i: nat | i <= |s|
      ensures !OccursAt(s, SEPARATOR, i)
    {
      if i + 3 <= |s| {
        assert s[i..i + 3][0] == s[i];
      }
    }
  }

  /** A separator cannot start at or before the space that follows a separator-free `x`. */
  lemma NoSeparatorUpToSpace(x: string, rest: string)
    requires !Contains(x, SEPARATOR)
    ensures forall j: nat :: j <= |x| ==> !OccursAt(x + " " + rest, SEPARATOR, j)
  {
    var s := x + " " + rest;
    forall j: nat | j <= |x|
      ensures !OccursAt(s, SEPARATOR, j)
    {
      if j + 3 <= |x| {
        assert s[j..j + 3] == x[j..j + 3];
        assert !OccursAt(x, SEPARATOR, j);
      } else if j + 3 <= |s| {
        assert s[j..j + 3][|x| - j] == s[|x|] == ' ';
      }
    }
  }

  /** Likewise when the separator-free `x` is preceded by a space. */
  lemma NoSeparatorAroundSpaced(x: string, rest: string)
    requires !Contains(x, SEPARATOR)
    ensures forall j: nat :: j <= |x| + 1 ==> !OccursAt(" " + x + " " + rest, SEPARATOR, j)
  {
    var t := x + " " + rest;
    var s := " " + x + " " + rest;
    assert s == " " + t;
    NoSeparatorUpToSpace(x, rest);
    forall j: nat | j <= |x| + 1
      ensures !OccursAt(s, SEPARATOR, j)
    {
      if j == 0 {
        if 3 <= |s| {
          assert s[0..3][0] == ' ';
        }
      } else if j + 3 <= |s| {
        assert s[j..j + 3] == t[j - 1..j - 1 + 3];
        assert !OccursAt(t, SEPARATOR, j - 1);
      }
    }
  }

  /** A space followed by a separator-free string has no separator. */
  lemma SpacedHasNoSeparator(x: string)
    requires !Contains(x, SEPARATOR)
    ensures !Contains(" " + x, SEPARATOR)
  {
    var s := " " + x;
    forall j: nat | j <= |s|
      ensures !OccursAt(s, SEPARATOR, j)
    {
      if j == 0 {
        if 3 <= |s| {
          assert s[0..3][0] == ' ';
        }
      } else if j + 3 <= |s| {
        assert s[j..j + 3] == x[j - 1..j - 1 + 3];
        assert !OccursAt(x, SEPARATOR, j - 1);
      }
    }
  }

  /** A payload with one separator, after a separator-free first part padded by a space, splits in two. */
  lemma SplitPair(a: string, b: string)
    requires !Contains(a, SEPARATOR) && !Contains(b, SEPARATOR)
    ensures Split(a + " " + SEPARATOR + " " + b, SEPARATOR) == [a + " ", " " + b]
  {
    NoSeparatorUpToSpace(a, SEPARATOR + " " + b);
    assert a + " " + SEPARATOR + " " + b == (a + " ") + SEPARATOR + (" " + b) == a + " " + (SEPARATOR + " " + b);
    SplitAtFirst(a + " ", SEPARATOR, " " + b);
    SpacedHasNoSeparator(b);
    SplitSingle(" " + b, SEPARATOR);
  }

  /** The pieces of a reminder payload without a state, before stripping. */
  lemma SplitReminderKey(year: string, name: string)
    requires !Contains(year, SEPARATOR) && !Contains(name, SEPARATOR)
    ensures Split(ReminderKey(year, name), SEPARATOR) == [year + " ", " " + name]
  {
    assert ReminderKey(year, name) == year + " " + SEPARATOR + " " + name;
    SplitPair(year, name);
  }

  /** The last two pieces of a reminder payload with a state. */
  lemma SplitNameState(name: string, state: string)
    requires !Contains(name, SEPARATOR) && !Contains(state, SEPARATOR)
    ensures Split(" " + name + " " + SEPARATOR + " " + state, SEPARATOR) == [" " + name + " ", " " + state]
  {
    NoSeparatorAroundSpaced(name, SEPARATOR + " " + state);
    assert " " + name + " " + SEPARATOR + " " + state == (" " + name + " ") + SEPARATOR + (" " + state)
      == " " + name + " " + (SEPARATOR + " " + state);
    SplitAtFirst(" " + name + " ", SEPARATOR, " " + state);
    SpacedHasNoSeparator(state);
    SplitSingle(" " + state, SEPARATOR);
  }

  /** The pieces of a reminder payload with a state, before stripping. */
  lemma SplitReminderKeyWithState(year: string, name: string, state: string)
    requires !Contains(year, SEPARATOR) && !Contains(name, SEPARATOR) && !Contains(state, SEPARATOR)
    ensures Split(ReminderKeyWithState(year, name, state), SEPARATOR) == [year + " ", " " + name + " ", " " + state]
  {
    var tail := " " + name + " " + SEPARATOR + " " + state;
    assert ReminderKeyWithState(year, name, state) == (year + " ") + SEPARATOR + tail == year + " " + (SEPARATOR + tail);
    NoSeparatorUpToSpace(year, SEPARATOR + tail);
    SplitAtFirst(year + " ", SEPARATOR, tail);
    SplitNameState(name, state);
  }

  /** Stripping the single spaces the reminder payload puts around the separator. */
  lemma StripSpaced(part: string)
    requires Trimmed(part)
    ensures Strip(part + " ") == part
    ensures Strip(" " + part) == part
    ensures Strip(" " + part + " ") == part
  {
    StripTrailingSpace(part);
    StripLeadingSpace(part);
    StripPadded(" ", part, " ");
  }

  /** Stripping the space before a separator. */
  lemma StripTrailingSpace(part: string)
    requires Trimmed(part)
    ensures Strip(part + " ") == part
  {
    StripPadded("", part, " ");
    assert "" + part + " " == part + " ";
  }

  /** Stripping the space after a separator. */
  lemma StripLeadingSpace(part: string)
    requires Trimmed(part)
    ensures Strip(" " + part) == part
  {
    StripPadded(" ", part, "");
    assert " " + part + "" == " " + part;
  }

  /** A reminder payload without a state parses back to its year and name. */
  lemma ParseReminderKey(year: string, name: string)
    requires Clean(year) && Clean(name)
    ensures ParseReport(ReminderKey(year, name)) == Some(Report(year, name, None))
  {
    SplitReminderKey(year, name);
    StripSpaced(year);
    StripSpaced(name);
  }

  /** A reminder payload with a state parses back to its year, name and state. */
  lemma ParseReminderKeyWithState(year: string, name: string, state: string)
    requires Clean(year) && Clean(name) && Clean(state)
    ensures ParseReport(ReminderKeyWithState(year, name, state)) == Some(Report(year, name, Some(state)))
  {
    SplitReminderKeyWithState(year, name, state);
    StripSpaced(year);
    StripSpaced(name);
    StripSpaced(state);
  }

  /**
   * An upload whose payload is itself a reminder payload closes the reminders
   * carrying exactly that payload: its own data is among the keys it looks for.
   */
  lemma UploadMatchesOwnPayload(year: string, name: string)
    requires Clean(year) && Clean(name)
    ensures ParseReport(ReminderKey(year, name)).Some?
    ensures ReminderKey(year, name) in ReminderKeys(ParseReport(ReminderKey(year, name)).value)
  {
    ParseReminderKey(year, name);
  }

  /** The example of an upload of "2023 --- StateFiling": year "2023", name "StateFiling", no state. */
  lemma ParseExample()
    ensures ParseReport("2023 --- StateFiling") == Some(Report("2023", "StateFiling", None))
  {
    NoDashes("2023");
    NoDashes("StateFiling");
    assert ReminderKey("2023", "StateFiling") == "2023 --- StateFiling";
    ParseReminderKey("2023", "StateFiling");
  }
}
