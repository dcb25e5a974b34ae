/** The refresh status record as a history: license-status.js of clients/claude-code/skillmeter/scripts/lib, with
    `backoffDelayMs` of shared/lib/license-renewal.js. */
module LicenseStatus {
  import opened Options

  const BACKOFF_EXHAUSTED := "backoff_exhausted"
  const MAX_UPDATE_ATTEMPTS: nat := 5

  // ---------------------------------------------------------------------------------------------
  // The record
  // ---------------------------------------------------------------------------------------------

  datatype Outcome = SignedIn | Rotated | TransientFailure | TerminalOutcome

  datatype Terminal = Terminal(reason: string, at: int)

  datatype Status = Status(
    lastAttemptAt: Option<int>,
    lastSuccessAt: Option<int>,
    lastOutcome: Option<Outcome>,
    lastError: Option<string>,
    consecutiveFailures: nat,
    nextRetryAt: Option<int>,
    terminal: Option<Terminal>,
    lastTerminal: string,
    revision: nat)

  const EMPTY: Status := Status(None, None, None, None, 0, None, None, "", 0)

  /** What the file holds: nothing usable, a record of another schema, or a record bound to a session. */
  datatype File = Absent | Foreign(revision: nat) | Bound(status: Status, context: string)

  /** `lastTerminalReason`; "" stands for null. */
  function LastTerminalReason(s: Status): string {
    if s.terminal.Some? && s.terminal.value.reason != "" then s.terminal.value.reason else s.lastTerminal
  }

  /** `readLicenseStatus`: the record of another session reads as empty but for what reports need. */
  function Read(file: File, context: string): Status {
    match file
    case Bound(s, c) =>
      if c == "" || c == context then s
      else EMPTY.(revision := s.revision, lastTerminal := LastTerminalReason(s), lastSuccessAt := s.lastSuccessAt)
    case _ => EMPTY
  }

  function CurrentRevision(file: File): nat {
    match file
    case Absent => 0
    case Foreign(r) => r
    case Bound(s, _) => s.revision
  }

  function Power2(n: nat): nat {
    if n == 0 then 1 else 2 * Power2(n - 1)
  }

  function BackoffDelayMs(failures: nat, baseMs: nat, capMs: nat): nat {
    if failures == 0 then 0
    else
      var delay := baseMs * Power2(failures - 1);
      if delay < capMs then delay else capMs
  }

  /** Retries slow down but never stop: the delay starts at the base, doubles until the cap and is never beyond it. */
  lemma BackoffDoublesToCap(failures: nat, baseMs: nat, capMs: nat)
    requires failures > 0
    ensures BackoffDelayMs(failures, baseMs, capMs) <= capMs
    ensures var twice := 2 * BackoffDelayMs(failures, baseMs, capMs);
            BackoffDelayMs(failures + 1, baseMs, capMs) == if twice < capMs then twice else capMs
    ensures BackoffDelayMs(0, baseMs, capMs) == 0
    ensures BackoffDelayMs(1, baseMs, capMs) == if baseMs < capMs then baseMs else capMs
  {
    var p := Power2(failures - 1);
    assert baseMs * (2 * p) == 2 * (baseMs * p);
  }

  // ---------------------------------------------------------------------------------------------
  // The updates
  // ---------------------------------------------------------------------------------------------

  datatype Op =
    | RefreshSuccess(now: int)
    | RefreshFailure(now: int, message: string, baseMs: nat, capMs: nat)
    | RecordTerminal(now: int, reason: string)
    | ClearTerminal
    | ClearStatus
    | RecordSignin(now: int)

  /** The mutation each update applies to the record it read. */
  function Mutated(op: Op, prev: Status): Status {
    match op
    case RefreshSuccess(now) =>
      prev.(lastAttemptAt := Some(now), lastSuccessAt := Some(now), lastOutcome := Some(Rotated), lastError := None,
            consecutiveFailures := 0, nextRetryAt := None, terminal := None, lastTerminal := "")
    case RefreshFailure(now, message, base, cap) =>
      var failures := prev.consecutiveFailures + 1;
      var failed := prev.(lastAttemptAt := Some(now), lastError := Some(message), consecutiveFailures := failures);
      if prev.terminal.Some? then failed
      else failed.(lastOutcome := Some(TransientFailure), nextRetryAt := Some(now + BackoffDelayMs(failures, base, cap)))
    case RecordTerminal(now, reason) =>
      prev.(lastAttemptAt := Some(now), lastOutcome := Some(TerminalOutcome), lastError := Some(reason), nextRetryAt := None,
            terminal := Some(Terminal(reason, now)), lastTerminal := reason)
    case ClearTerminal =>
      prev.(consecutiveFailures := 0, nextRetryAt := None, terminal := None, lastTerminal := LastTerminalReason(prev))
    case ClearStatus =>
      EMPTY.(lastTerminal := LastTerminalReason(prev), lastSuccessAt := prev.lastSuccessAt)
    case RecordSignin(now) =>
      EMPTY.(lastAttemptAt := Some(now), lastSuccessAt := Some(now), lastOutcome := Some(SignedIn))
  }

  /** The record an update writes, from the file as it read it. */
  function Next(op: Op, seen: File, context: string): File {
    var prev := Read(seen, context);
    Bound(Mutated(op, prev).(revision := prev.revision + 1), context)
  }

  /** `clearTerminal` writes nothing when there is nothing to clear. */
  predicate NothingToClear(s: Status) {
    s.terminal.None? && (s.nextRetryAt.None? || s.nextRetryAt == Some(0)) && s.consecutiveFailures == 0
  }

  /** The file after an update that nobody disturbs. */
  function Updated(op: Op, file: File, context: string): File {
    if op.ClearTerminal? && NothingToClear(Read(file, context)) then file else Next(op, file, context)
  }

  predicate ForeignWrite(other: Option<File>) {
    other.Some? && other.value.Foreign?
  }

  /** `refreshBlockedReason`. */
  datatype Blocked = No | ByTerminal | ByBackoff

  function RefreshBlocked(s: Status, now: int): Blocked {
    if s.terminal.Some? && s.terminal.value.reason != BACKOFF_EXHAUSTED then ByTerminal
    else if s.nextRetryAt.Some? && s.nextRetryAt.value > now then ByBackoff
    else No
  }

  /** The status file of one client and the session it belongs to. */
  class StatusFile {
    var file: File
    var context: string

    constructor (file: File, context: string)
      ensures this.file == file && this.context == context
    {
      this.file, this.context := file, context;
    }

    /** `updateLicenseStatus`: `others(i)` is what other processes put in the file between the read of attempt `i` and
        its revision check. The record written is the mutation of the file as read; that is the file it replaces, unless
        the file changed under an unchanged revision or in every attempt. */
    method UpdateLicenseStatus(op: Op, others: nat -> Option<File>) returns (ghost seen: File, ghost replaced: File, ghost attempts: nat)
      modifies this`file
      ensures file == Next(op, seen, context) && attempts <= MAX_UPDATE_ATTEMPTS
      ensures (forall i | 0 <= i < MAX_UPDATE_ATTEMPTS :: others(i).None?) ==> seen == replaced == old(file)
      ensures attempts < MAX_UPDATE_ATTEMPTS ==> CurrentRevision(replaced) == Read(seen, context).revision
      ensures attempts < MAX_UPDATE_ATTEMPTS && others(attempts).None? ==> seen == replaced
      ensures attempts == MAX_UPDATE_ATTEMPTS && !old(file).Foreign? && (forall i | 0 <= i < MAX_UPDATE_ATTEMPTS :: !ForeignWrite(others(i))) ==>
                forall i | 0 <= i < MAX_UPDATE_ATTEMPTS :: others(i).Some?
    {
      attempts := 0;
      seen, replaced := file, file;
      var next := file;
      for attempt := 0 to MAX_UPDATE_ATTEMPTS
        invariant attempts == attempt
        invariant attempt > 0 ==> next == Next(op, seen, context)
        invariant replaced == file
        invariant !old(file).Foreign? && (forall i | 0 <= i < MAX_UPDATE_ATTEMPTS :: !ForeignWrite(others(i))) ==>
                    !file.Foreign? && forall i | 0 <= i < attempt :: others(i).Some?
        invariant (forall i | 0 <= i < attempt :: others(i).None?) ==> file == old(file)
        invariant (forall i | 0 <= i < attempt :: others(i).None?) && attempt > 0 ==> seen == file
      {
        var prev := Read(file, context);
        seen := file;
        next := Next(op, file, context);
        if others(attempt).Some? { file := others(attempt).value; }
        replaced := file;
        if CurrentRevision(file) == prev.revision {
          file := next;
          return;
        }
        attempts := attempts + 1;
      }
      file := next;
    }
  }

  // ---------------------------------------------------------------------------------------------
  // The status as a history
  // ---------------------------------------------------------------------------------------------

  /** What happens over time: an update, or the session becomes another one. */
  datatype Event = Update(op: Op) | NewSession(context: string)

  /** File and context after a serial run of events on a client that never wrote a status. */
  function FileAfter(events: seq<Event>, start: string): File
    decreases |events|
  {
    if events == [] then Absent
    else
      var n := |events| - 1;
      var file := FileAfter(events[..n], start);
      match events[n]
      case Update(op) => Updated(op, file, ContextAfter(events[..n], start))
      case NewSession(_) => file
  }

  function ContextAfter(events: seq<Event>, start: string): string
    decreases |events|
  {
    if events == [] then start
    else
      var n := |events| - 1;
      match events[n]
      case NewSession(context) => context
      case _ => ContextAfter(events[..n], start)
  }

  function StatusAfter(events: seq<Event>, start: string): Status {
    Read(FileAfter(events, start), ContextAfter(events, start))
  }

  /** A success: a renewal or a completed sign-in. */
  predicate IsSuccess(e: Event) {
    e.Update? && (e.op.RefreshSuccess? || e.op.RecordSignin?)
  }

  function SuccessTime(e: Event): int
    requires IsSuccess(e)
  {
    match e.op
    case RefreshSuccess(now) => now
    case RecordSignin(now) => now
  }

  predicate IsTerminal(e: Event) {
    e.Update? && e.op.RecordTerminal?
  }

  predicate IsFailure(e: Event) {
    e.Update? && e.op.RefreshFailure?
  }

  /** The number of the latest event of a kind, or -1. */
  ghost predicate Latest(events: seq<Event>, kind: Event -> bool, i: int) {
    && -1 <= i < |events|
    && (i >= 0 ==> kind(events[i]))
    && forall j | i < j < |events| :: !kind(events[j])
  }

  /** Session contexts are never used again. */
  ghost predicate FreshSessions(events: seq<Event>, start: string) {
    forall i | 0 <= i < |events| && events[i].NewSession? ::
      events[i].context != "" && events[i].context != start && forall j | 0 <= j < i && events[j].NewSession? :: events[j].context != events[i].context
  }

  lemma {:induction false} LatestOf(events: seq<Event>, kind: Event -> bool) returns (i: int)
    ensures Latest(events, kind, i)
    decreases |events|
  {
    var n := |events| - 1;
    if n < 0 || kind(events[n]) {
      i := n;
    } else {
      i := LatestOf(events[..n], kind);
    }
  }

  lemma LatestBefore(events: seq<Event>, kind: Event -> bool, i: int) returns (j: int)
    requires Latest(events, kind, i) && events != []
    ensures Latest(events[..|events| - 1], kind, j) && (i < |events| - 1 ==> j == i)
  {
    if i < |events| - 1 { j := i; } else { j := LatestOf(events[..i], kind); }
  }

  /** What reports read is the same under every session. */
  lemma ReportsIgnoreSession(file: File, a: string, b: string)
    ensures Read(file, a).lastSuccessAt == Read(file, b).lastSuccessAt
    ensures LastTerminalReason(Read(file, a)) == LastTerminalReason(Read(file, b))
  {
  }

  /** A terminal reason is reported on through a clearing, a reset and a session change, also from a record that has no
      `lastTerminal` yet; without one, what was reported before is. */
  lemma ReasonOutlastsRecord(s: Status, op: Op, before: string, after: string)
    requires op.ClearTerminal? || op.ClearStatus?
    ensures var reason := if s.terminal.Some? && s.terminal.value.reason != "" then s.terminal.value.reason else s.lastTerminal;
            && LastTerminalReason(Mutated(op, s)) == reason && LastTerminalReason(Read(Bound(s, before), after)) == reason
            && Mutated(op, s).terminal.None?
  {
  }

  /** What reports say: the latest success ever, and the latest terminal reason unless a success came after it,
      through any sign-in that starts, any session change and any clearing. */
  lemma {:induction false} ReportsAreHistory(events: seq<Event>, start: string, success: int, terminal: int)
    requires Latest(events, IsSuccess, success) && Latest(events, IsTerminal, terminal)
    ensures StatusAfter(events, start).lastSuccessAt == if success >= 0 then Some(SuccessTime(events[success])) else None
    ensures LastTerminalReason(StatusAfter(events, start)) == if terminal > success then events[terminal].op.reason else ""
    decreases |events|
  {
    if events != [] {
      var n := |events| - 1;
      var before := events[..n];
      var s := LatestBefore(events, IsSuccess, success);
      var t := LatestBefore(events, IsTerminal, terminal);
      ReportsAreHistory(before, start, s, t);
      ReportsIgnoreSession(FileAfter(before, start), ContextAfter(before, start), ContextAfter(events, start));
      assert FileAfter(events, start) == match events[n]
                                         case Update(op) => Updated(op, FileAfter(before, start), ContextAfter(before, start))
                                         case NewSession(_) => FileAfter(before, start);
    }
  }

  // ---- What blocks a refresh ----

  /** After these a session starts from a clean slate. */
  predicate IsReset(e: Event) {
    e.NewSession? || IsSuccess(e) || e.op.ClearTerminal? || e.op.ClearStatus?
  }

  /** How many transient failures came after event `r`. */
  function FailuresSince(events: seq<Event>, r: int): nat
    decreases |events|
  {
    var n := |events| - 1;
    if n <= r || n < 0 then 0 else FailuresSince(events[..n], r) + if IsFailure(events[n]) then 1 else 0
  }

  predicate Used(events: seq<Event>, start: string, context: string) {
    context == start || NewSession(context) in events
  }

  /** A record is bound to a session the run has seen. */
  lemma {:induction false} FileSessionUsed(events: seq<Event>, start: string)
    requires start != "" && FreshSessions(events, start)
    ensures var file := FileAfter(events, start); file.Absent? || (file.Bound? && file.context != "" && Used(events, start, file.context))
    ensures ContextAfter(events, start) != "" && Used(events, start, ContextAfter(events, start))
    decreases |events|
  {
    if events != [] {
      var n := |events| - 1;
      FileSessionUsed(events[..n], start);
      assert events == events[..n] + [events[n]];
    }
  }

  /** The retry time a run leaves: after a terminal outcome none, else that of the latest failure since the reset. */
  function RetryAfter(events: seq<Event>, reset: int, terminal: int, failure: int): Option<int>
    requires failure < |events| && (failure >= 0 ==> IsFailure(events[failure]))
  {
    if terminal > reset || failure <= reset || failure < 0 then None
    else
      var op := events[failure].op;
      Some(op.now + BackoffDelayMs(FailuresSince(events, reset), op.baseMs, op.capMs))
  }

  ghost predicate Standing(events: seq<Event>, start: string, reset: int, terminal: int, failure: int)
    requires Latest(events, IsTerminal, terminal) && Latest(events, IsFailure, failure) && reset >= -1
  {
    var s := StatusAfter(events, start);
    && s.terminal == (if terminal > reset then Some(Terminal(events[terminal].op.reason, events[terminal].op.now)) else None)
    && s.consecutiveFailures == FailuresSince(events, reset)
    && s.nextRetryAt == RetryAfter(events, reset, terminal, failure)
  }

  /** An update changes the status the session reads by its mutation, or not at all. */
  lemma UpdateChangesStatus(events: seq<Event>, start: string)
    requires events != [] && events[|events| - 1].Update?
    ensures var before := StatusAfter(events[..|events| - 1], start);
            var op := events[|events| - 1].op;
            StatusAfter(events, start) == if op.ClearTerminal? && NothingToClear(before) then before else Mutated(op, before).(revision := before.revision + 1)
  {
  }

  /** A session not seen before reads an empty status but for the reports. */
  lemma NewSessionReadsEmpty(events: seq<Event>, start: string)
    requires start != "" && FreshSessions(events, start) && events != [] && events[|events| - 1].NewSession?
    ensures var s := StatusAfter(events, start); s.terminal.None? && s.consecutiveFailures == 0 && s.nextRetryAt.None?
  {
    var n := |events| - 1;
    FileSessionUsed(events[..n], start);
  }

  /** What blocks a refresh is decided by the events since the latest reset alone: the latest terminal outcome among them,
      and otherwise the number of failures among them and the time of the last. */
  lemma {:induction false} StandingIsHistory(events: seq<Event>, start: string, reset: int, terminal: int, failure: int)
    requires start != "" && FreshSessions(events, start)
    requires Latest(events, IsReset, reset) && Latest(events, IsTerminal, terminal) && Latest(events, IsFailure, failure)
    ensures Standing(events, start, reset, terminal, failure)
    decreases |events|
  {
    if events != [] {
      var n := |events| - 1;
      var before := events[..n];
      var r := LatestBefore(events, IsReset, reset);
      var t := LatestBefore(events, IsTerminal, terminal);
      var f := LatestBefore(events, IsFailure, failure);
      StandingIsHistory(before, start, r, t, f);
      if events[n].NewSession? {
        NewSessionReadsEmpty(events, start);
      } else {
        StandingAfterUpdate(events, start, reset, terminal, failure, r, t, f);
      }
    }
  }

  lemma StandingAfterUpdate(events: seq<Event>, start: string, reset: int, terminal: int, failure: int, r: int, t: int, f: int)
    requires events != [] && events[|events| - 1].Update?
    requires Latest(events, IsReset, reset) && Latest(events, IsTerminal, terminal) && Latest(events, IsFailure, failure)
    requires var before := events[..|events| - 1];
             && Latest(before, IsReset, r) && Latest(before, IsTerminal, t) && Latest(before, IsFailure, f)
             && Standing(before, start, r, t, f)
    requires reset < |events| - 1 ==> r == reset
    requires terminal < |events| - 1 ==> t == terminal
    requires failure < |events| - 1 ==> f == failure
    ensures Standing(events, start, reset, terminal, failure)
  {
    UpdateChangesStatus(events, start);
    var n := |events| - 1;
    var op := events[n].op;
    if IsReset(events[n]) {
      assert reset == n;
    } else if op.RecordTerminal? {
      assert terminal == n && reset == r;
    } else {
      assert failure == n && reset == r && terminal == t;
    }
  }

  /** A refresh is blocked as terminal exactly when, since the latest reset, there was a terminal outcome and the last was
      not the old exhausted one: no later transient failure lifts it, and no earlier one brings it about. It is blocked by
      backoff exactly when there were failures and no terminal outcome, and the delay after the last is not over. */
  lemma BlockedIsHistory(events: seq<Event>, start: string, reset: int, terminal: int, failure: int, now: int)
    requires start != "" && FreshSessions(events, start)
    requires Latest(events, IsReset, reset) && Latest(events, IsTerminal, terminal) && Latest(events, IsFailure, failure)
    ensures RefreshBlocked(StatusAfter(events, start), now) ==
            if terminal > reset then (if events[terminal].op.reason != BACKOFF_EXHAUSTED then ByTerminal else No)
            else if failure > reset && RetryAfter(events, reset, terminal, failure).value > now then ByBackoff
            else No
  {
    StandingIsHistory(events, start, reset, terminal, failure);
  }
}
