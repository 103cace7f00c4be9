/**
 * The two record shapes the engine works on — a `StatusEngine` ledger row and
 * a per-email `ProgressStatus` record — and the queries the handlers run
 * against the ledger.
 */
module Models {
  import opened Wrappers
  import opened Constants

  // Outcome codes of a ledger row.
  const FAILED := -4
  const SECOND_RETRY := -3
  const FIRST_RETRY := -2
  const SCHEDULED := -1
  const COMPLETED := 1
  const UNNECESSARY := 4
  const OFF_BOARDED := 5

  /** The field defaults of a new row. */
  const DEFAULT_DATA := "---"
  const DEFAULT_PROCESS_STATE := 1

  /**
   * One step of a workflow. Times are integer seconds since the epoch;
   * `executed` is null until the step is resolved or given a due time.
   * A row's identity is its position in the ledger.
   */
  datatype Entry = Entry(
    email: string,
    process: string,
    formationType: string,
    processState: int,
    outcome: int,
    data: string,
    created: int,
    executed: Option<int>)

  /** A newly inserted row: always Scheduled, created now. */
  function NewEntry(email: string, process: string, formationType: string, processState: int,
                    data: string, now: int, executed: Option<int>): Entry
  {
    Entry(email, process, formationType, processState, SCHEDULED, data, now, executed)
  }

  /** The per-email status record; each field is a free-form status string. */
  datatype Progress = Progress(
    email: string,
    llcFormationStatus: string,
    postFormationStatus: string,
    eInStatus: string,
    businessLicenseStatus: string,
    bankAccountStatus: string,
    contributionStatus: string,
    soiStatus: string,
    ftbStatus: string,
    questionnaireStatus: string,
    bookkeepingSetupStatus: string,
    taxSetupStatus: string,
    clientSurveyStatus: string,
    bkServicesSetupStatus: string)

  /**
   * The keyword arguments of a `get_or_create` lookup: the fields that must
   * match exactly; `outcome` and `data` take part only when given.
   */
  datatype Lookup = Lookup(
    email: string,
    process: string,
    formationType: string,
    processState: int,
    outcome: Option<int>,
    data: Option<string>)

  /** The row filters the engine issues. */
  datatype Query =
      /** Scheduled rows of the daily queue: what one poll visits. */
    | Due
      /** The rows a `get_or_create` lookup finds. */
    | Exact(lookup: Lookup)
      /** Open annual-report reminders of one email whose data is one of `keys`. */
    | OpenReminders(email: string, keys: set<string>)

  const ANNUAL_REPORT_REMINDER := "Annual Report Reminder"

  predicate Satisfies(e: Entry, f: Query) {
    match f
    case Due =>
      e.outcome == SCHEDULED && HYKE_DAILY <= e.formationType
    case Exact(q) =>
      && e.email == q.email
      && e.process == q.process
      && e.formationType == q.formationType
      && e.processState == q.processState
      && (q.outcome.None? || e.outcome == q.outcome.value)
      && (q.data.None? || e.data == q.data.value)
    case OpenReminders(email, keys) =>
      e.email == email && e.process == ANNUAL_REPORT_REMINDER && e.outcome == SCHEDULED && e.data in keys
  }

  /**
   * The ids of the rows a query selects, in ledger order: exactly the rows
   * that satisfy it, each once.
   */
  function Filter(rows: seq<Entry>, f: Query): (ids: seq<nat>)
    ensures forall k :: 0 <= k < |ids| ==> ids[k] < |rows| && Satisfies(rows[ids[k]], f)
    ensures forall i :: 0 <= i < |rows| && Satisfies(rows[i], f) ==> i in ids
    ensures forall a, b :: 0 <= a < b < |ids| ==> ids[a] < ids[b]
    decreases |rows|
  {
    if rows == [] then []
    else
      var last := |rows| - 1;
      Filter(rows[..last], f) + (if Satisfies(rows[last], f) then [last] else [])
  }

  /** Appending a row leaves the earlier selection in place and adds the new row when it qualifies. */
  lemma FilterAppend(rows: seq<Entry>, e: Entry, f: Query)
    ensures Filter(rows + [e], f) == Filter(rows, f) + (if Satisfies(e, f) then [|rows|] else [])
  {
    assert (rows + [e])[..|rows|] == rows;
  }

  /**
   * Rows appended after a query are not selected by its earlier answer: what
   * the query finds among the longer ledger's first |rows| rows is what it found before.
   */
  lemma {:induction false} FilterExtend(rows: seq<Entry>, more: seq<Entry>, f: Query)
    ensures Filter(rows, f) <= Filter(rows + more, f)
    ensures forall k :: |Filter(rows, f)| <= k < |Filter(rows + more, f)| ==> Filter(rows + more, f)[k] >= |rows|
    decreases |more|
  {
    if more == [] {
      assert rows + more == rows;
    } else {
      var init := more[..|more| - 1];
      FilterExtend(rows, init, f);
      assert rows + more == (rows + init) + [more[|more| - 1]];
      FilterAppend(rows + init, more[|more| - 1], f);
    }
  }

  /**
   * Idempotent insertion: once a `get_or_create` lookup has found nothing
   * and inserted a row that satisfies it, the same lookup finds exactly
   * that one row, so a repeated call inserts nothing.
   */
  lemma GetOrCreateFindsInserted(rows: seq<Entry>, q: Lookup, inserted: Entry)
    requires Satisfies(inserted, Exact(q))
    requires Filter(rows, Exact(q)) == []
    ensures Filter(rows + [inserted], Exact(q)) == [|rows|]
  {
    FilterAppend(rows, inserted, Exact(q));
  }

  /**
   * The poll's filter spelled out: Scheduled, and a formation type whose
   * first characters are "Hyke Daily" (`formationtype__startswith`).
   */
  lemma DueMeans(e: Entry)
    ensures Satisfies(e, Due) <==>
      && e.outcome == SCHEDULED
      && |HYKE_DAILY| <= |e.formationType|
      && forall k :: 0 <= k < |HYKE_DAILY| ==> e.formationType[k] == HYKE_DAILY[k]
  {
    if e.outcome == SCHEDULED && |HYKE_DAILY| <= |e.formationType|
       && forall k :: 0 <= k < |HYKE_DAILY| ==> e.formationType[k] == HYKE_DAILY[k] {
      assert e.formationType[..|HYKE_DAILY|] == HYKE_DAILY;
    }
  }

  /**
   * The row `get_or_create` inserts, built from the lookup and defaults that
   * agree with it, is Scheduled, created now, and found by that lookup.
   */
  lemma NewEntryMatches(q: Lookup, data: string, now: int, executed: Option<int>)
    requires q.outcome.None? || q.outcome.value == SCHEDULED
    requires q.data.None? || q.data.value == data
    ensures var e := NewEntry(q.email, q.process, q.formationType, q.processState, data, now, executed);
      Satisfies(e, Exact(q)) && e.outcome == SCHEDULED && e.created == now && e.executed == executed
  {
  }

  /** The assignment `outcome = COMPLETED; executed = now` followed by a save. */
  function Complete(e: Entry, now: int): (r: Entry)
    ensures r.outcome == COMPLETED && r.executed == Some(now)
    ensures r.(outcome := e.outcome, executed := e.executed) == e
  {
    e.(outcome := COMPLETED, executed := Some(now))
  }

  /** A reminder an annual-report upload can still close. */
  predicate OpenReminder(e: Entry) {
    e.process == ANNUAL_REPORT_REMINDER && e.outcome == SCHEDULED
  }

  /** A completed row leaves the queue: neither the poll nor an upload selects it again. */
  lemma CompletedLeavesQueue(e: Entry, now: int)
    ensures !Satisfies(Complete(e, now), Due) && !OpenReminder(Complete(e, now))
    ensures forall email, keys :: !Satisfies(Complete(e, now), OpenReminders(email, keys))
  {
  }

  /**
   * The ledger after `get_or_create(lookup)`: unchanged when the lookup finds
   * one row (returned) or several (the call raises), and with `inserted`
   * appended when it finds none.
   */
  function AfterGetOrCreate(rows: seq<Entry>, q: Lookup, inserted: Entry): (r: seq<Entry>)
    requires Satisfies(inserted, Exact(q))
    ensures rows <= r && |r| <= |rows| + 1
    ensures |r| == |rows| + 1 <==> Filter(rows, Exact(q)) == []
    ensures |Filter(rows, Exact(q))| <= 1 ==> |Filter(r, Exact(q))| == 1
  {
    if Filter(rows, Exact(q)) == [] then
      GetOrCreateFindsInserted(rows, q, inserted);
      rows + [inserted]
    else rows
  }

  /**
   * Idempotent insertion: repeating a `get_or_create` that did not raise
   * changes nothing, whatever row the repetition would have inserted.
   */
  lemma GetOrCreateIdempotent(rows: seq<Entry>, q: Lookup, inserted: Entry, again: Entry)
    requires Satisfies(inserted, Exact(q)) && Satisfies(again, Exact(q))
    requires |Filter(rows, Exact(q))| <= 1
    ensures AfterGetOrCreate(AfterGetOrCreate(rows, q, inserted), q, again) == AfterGetOrCreate(rows, q, inserted)
  {
  }

  /** Inserting a row another lookup does not select leaves that lookup's answer as it was. */
  lemma GetOrCreateOther(rows: seq<Entry>, q: Lookup, inserted: Entry, other: Query)
    requires Satisfies(inserted, Exact(q)) && !Satisfies(inserted, other)
    ensures Filter(AfterGetOrCreate(rows, q, inserted), other) == Filter(rows, other)
  {
    if Filter(rows, Exact(q)) == [] {
      FilterAppend(rows, inserted, other);
    }
  }
}
