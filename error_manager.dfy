/**
 * The error manager: a history of reported errors capped at 100 entries,
 * oldest dropped first, and a list of listeners told of each new error.
 *
 * Listeners are functions compared by reference; they are represented by
 * identifiers, and notifying them yields the identifiers called, in order.
 * Timestamps come from the clock and are a parameter.
 */
module ErrorManager {
  import opened Common

  datatype Severity = Low | Medium | High | Critical

  /** An opaque `context` record, as key/value text. */
  type Context = map<string, string>

  datatype ErrorInput = ErrorInput(message: string, severity: Severity, stack: Option<string>, context: Option<Context>)

  datatype ErrorDetails = ErrorDetails(message: string, severity: Severity, timestamp: int, stack: Option<string>, context: Option<Context>)

  type ListenerId = nat

  const MaxErrors: nat := 100

  /** The history after a push: when it then exceeds the cap, the oldest entry goes. */
  function Capped(s: seq<ErrorDetails>): (r: seq<ErrorDetails>)
    ensures |s| <= MaxErrors ==> r == s
    ensures |s| > MaxErrors ==> r == s[1..]
    ensures |s| <= MaxErrors + 1 ==> |r| <= MaxErrors
  {
    if |s| > MaxErrors then s[1..] else s
  }

  /** The error recorded for an input: the same fields, stamped with the time. */
  function Stamp(e: ErrorInput, now: int): (d: ErrorDetails)
    ensures d.message == e.message && d.severity == e.severity && d.stack == e.stack && d.context == e.context
    ensures d.timestamp == now
  {
    ErrorDetails(e.message, e.severity, now, e.stack, e.context)
  }

  /**
   * One report keeps the history within the cap, puts the new error last and
   * keeps the retained errors in their order: the new history is a suffix of
   * the old one followed by the new error, and only the oldest is ever lost.
   */
  lemma HistoryAfterReport(history: seq<ErrorDetails>, d: ErrorDetails)
    requires |history| <= MaxErrors
    ensures var h := Capped(history + [d]);
      |h| <= MaxErrors && h != [] && h[|h| - 1] == d &&
      h == (history + [d])[|history| + 1 - |h|..] &&
      |h| >= |history|
  {
  }

  /** `getErrorsBySeverity`: the errors of one severity, in history order. */
  function OfSeverity(s: seq<ErrorDetails>, severity: Severity): (r: seq<ErrorDetails>)
    ensures forall i :: 0 <= i < |r| ==> r[i].severity == severity && r[i] in s
    ensures forall d :: d in s && d.severity == severity ==> d in r
  {
    Filter(s, (d: ErrorDetails) => d.severity == severity)
  }

  /** The four severity filters split the history: every error is in exactly one. */
  lemma {:induction false} SeveritiesPartition(s: seq<ErrorDetails>)
    ensures |OfSeverity(s, Low)| + |OfSeverity(s, Medium)| + |OfSeverity(s, High)| + |OfSeverity(s, Critical)| == |s|
  {
    if s != [] {
      SeveritiesPartition(s[1..]);
      assert s == [s[0]] + s[1..];
      FilterConcat([s[0]], s[1..], (d: ErrorDetails) => d.severity == Low);
      FilterConcat([s[0]], s[1..], (d: ErrorDetails) => d.severity == Medium);
      FilterConcat([s[0]], s[1..], (d: ErrorDetails) => d.severity == High);
      FilterConcat([s[0]], s[1..], (d: ErrorDetails) => d.severity == Critical);
    }
  }

  /** `createError`: the severity defaults to medium when none is given; there is no stack. */
  function CreateError(message: string, severity: Option<Severity>, context: Option<Context>, now: int): (d: ErrorDetails)
    ensures d.message == message && d.context == context && d.timestamp == now && d.stack.None?
    ensures severity.None? ==> d.severity == Medium
    ensures severity.Some? ==> d.severity == severity.value
  {
    ErrorDetails(message, severity.GetOr(Medium), now, None, context)
  }

  function CreateCriticalError(message: string, context: Option<Context>, now: int): (d: ErrorDetails)
    ensures d.severity == Critical && d.message == message && d.context == context
    ensures d.timestamp == now && d.stack.None?
  {
    CreateError(message, Some(Critical), context, now)
  }

  function CreateHighSeverityError(message: string, context: Option<Context>, now: int): (d: ErrorDetails)
    ensures d.severity == High && d.message == message && d.context == context
    ensures d.timestamp == now && d.stack.None?
  {
    CreateError(message, Some(High), context, now)
  }

  function CreateMediumSeverityError(message: string, context: Option<Context>, now: int): (d: ErrorDetails)
    ensures d.severity == Medium && d.message == message && d.context == context
    ensures d.timestamp == now && d.stack.None?
    ensures d == CreateError(message, None, context, now)
  {
    CreateError(message, Some(Medium), context, now)
  }

  function CreateLowSeverityError(message: string, context: Option<Context>, now: int): (d: ErrorDetails)
    ensures d.severity == Low && d.message == message && d.context == context
    ensures d.timestamp == now && d.stack.None?
  {
    CreateError(message, Some(Low), context, now)
  }

  /** `listeners.filter(l => l !== listener)`. */
  function WithoutListener(ls: seq<ListenerId>, l: ListenerId): (r: seq<ListenerId>)
    ensures l !in r
    ensures forall x :: x in r <==> x in ls && x != l
  {
    Filter(ls, x => x != l)
  }

  /** Removing a listener that was never added changes nothing. */
  lemma RemoveAbsentListener(ls: seq<ListenerId>, l: ListenerId)
    requires l !in ls
    ensures WithoutListener(ls, l) == ls
  {
    FilterAll(ls, x => x != l);
  }

  /** What one report does besides recording: the listeners called, and whether critical handling ran. */
  datatype Report = Report(notified: seq<ListenerId>, critical: bool)

  class Manager {
    var errors: seq<ErrorDetails>
    var listeners: seq<ListenerId>

    predicate Valid()
      reads this
    {
      |errors| <= MaxErrors
    }

    constructor ()
      ensures Valid() && errors == [] && listeners == []
    {
      errors := [];
      listeners := [];
    }

    /**
     * `handleError`: stamps and pushes the error, notifies every listener,
     * runs critical handling for a critical error, then drops the oldest
     * entry if the history is over the cap.
     */
    method HandleError(e: ErrorInput, now: int) returns (report: Report)
      requires Valid()
      modifies this`errors
      ensures Valid()
      ensures errors == Capped(old(errors) + [Stamp(e, now)])
      ensures report.notified == listeners
      ensures report.critical <==> e.severity == Critical
    {
      var d := Stamp(e, now);
      errors := errors + [d];
      var notified := NotifyListeners(d);
      var critical := e.severity == Critical;
      if |errors| > MaxErrors {
        errors := errors[1..];
      }
      report := Report(notified, critical);
    }

    /** `notifyListeners`: every listener once, in registration order. */
    method NotifyListeners(d: ErrorDetails) returns (called: seq<ListenerId>)
      ensures called == listeners
    {
      called := [];
      for i := 0 to |listeners|
        invariant called == listeners[..i]
      {
        called := called + [listeners[i]];
      }
    }

    method AddErrorListener(l: ListenerId)
      modifies this`listeners
      ensures listeners == old(listeners) + [l]
    {
      listeners := listeners + [l];
    }

    /** `removeErrorListener`: every occurrence of this listener goes; the others keep their order. */
    method RemoveErrorListener(l: ListenerId)
      modifies this`listeners
      ensures listeners == WithoutListener(old(listeners), l)
    {
      listeners := WithoutListener(listeners, l);
    }

    /** `getErrors`: a copy of the history. */
    method GetErrors() returns (r: seq<ErrorDetails>)
      ensures r == errors
    {
      r := errors;
    }

    method ClearErrors()
      modifies this`errors
      ensures Valid() && errors == []
    {
      errors := [];
    }

    method GetErrorCount() returns (n: nat)
      requires Valid()
      ensures n == |errors| && n <= MaxErrors
    {
      n := |errors|;
    }

    method GetErrorsBySeverity(severity: Severity) returns (r: seq<ErrorDetails>)
      ensures r == OfSeverity(errors, severity)
    {
      r := OfSeverity(errors, severity);
    }
  }
}
