/**
  The error-log window's periodic refresh: the entries of the shared log that
  are not yet displayed are appended to the displayed list.
 */
module ErrorLog {
  import opened Common
  import opened FetchErrors

  /** The window's displayed content: a list of fetch errors, or content of
      some other kind (the window then leaves it alone). */
  datatype Content = Errors(errors: seq<FetchError>) | OtherContent

  /** `existing.contains(e)`: some displayed entry is the same record. */
  predicate Contains(existing: seq<FetchError>, e: FetchError) {
    exists i :: 0 <= i < |existing| && Same(existing[i], e)
  }

  /** A log entry is taken when it is not displayed yet. */
  function NewEntry(existing: seq<FetchError>): FetchError -> seq<FetchError> {
    e => if Contains(existing, e) then [] else [e]
  }

  /** The entries of `log` that are not displayed, in log order. */
  function NewEntries(existing: seq<FetchError>, log: seq<FetchError>): (add: seq<FetchError>)
    ensures forall e :: e in add <==> e in log && !Contains(existing, e)
  {
    forall e ensures e in FlatMap(log, NewEntry(existing)) <==> e in log && !Contains(existing, e) {
      FlatMapMembers(log, NewEntry(existing), e);
    }
    FlatMap(log, NewEntry(existing))
  }

  /** Filtering works piecewise over the log, so the appended entries keep
      the order they have in the log. */
  lemma NewEntriesAppend(existing: seq<FetchError>, a: seq<FetchError>, b: seq<FetchError>)
    ensures NewEntries(existing, a + b) == NewEntries(existing, a) + NewEntries(existing, b)
  {
    FlatMapAppend(a, b, NewEntry(existing));
  }

  /** A log whose every entry is displayed adds nothing. */
  lemma {:induction false} NothingNew(existing: seq<FetchError>, log: seq<FetchError>)
    requires forall e :: e in log ==> Contains(existing, e)
    ensures NewEntries(existing, log) == []
    decreases |log|
  {
    if |log| > 0 {
      var init := log[..|log| - 1];
      assert forall e :: e in init ==> e in log;
      NothingNew(existing, init);
      assert log == init + [log[|log| - 1]];
    }
  }

  /** The body of `update()`: nothing changes unless the content is a list of
      fetch errors; then the log entries not displayed are appended. */
  function Merge(content: Content, log: seq<FetchError>): (r: Content)
    ensures !content.Errors? ==> r == content
    ensures content.Errors? ==> r.Errors? && |r.errors| >= |content.errors|
    ensures content.Errors? ==> r.errors[..|content.errors|] == content.errors
    ensures content.Errors? ==>
              forall k :: |content.errors| <= k < |r.errors| ==>
                r.errors[k] in log && !Contains(content.errors, r.errors[k])
    ensures content.Errors? ==> forall e :: e in log ==> Contains(r.errors, e)
  {
    match content
    case OtherContent => content
    case Errors(existing) =>
      var add := NewEntries(existing, log);
      var merged := existing + add;
      assert forall k :: |existing| <= k < |merged| ==> merged[k] == add[k - |existing|];
      assert forall e :: e in log ==> Contains(merged, e) by {
        forall e | e in log
          ensures Contains(merged, e)
        {
          if Contains(existing, e) {
            var i :| 0 <= i < |existing| && Same(existing[i], e);
            assert merged[i] == existing[i];
          } else {
            var j :| 0 <= j < |add| && add[j] == e;
            assert merged[|existing| + j] == e;
          }
        }
      }
      Errors(merged)
  }

  /** Merging the same log a second time adds nothing. */
  lemma MergeIdempotent(content: Content, log: seq<FetchError>)
    ensures Merge(Merge(content, log), log) == Merge(content, log)
  {
    if content.Errors? {
      var merged := Merge(content, log).errors;
      NothingNew(merged, log);
      assert merged + [] == merged;
    }
  }

  /** `existing.contains(e)`, as a linear search. */
  method ContainsRecord(existing: seq<FetchError>, e: FetchError) returns (found: bool)
    ensures found <==> Contains(existing, e)
  {
    found := false;
    var i := 0;
    while i < |existing|
      invariant 0 <= i <= |existing|
      invariant found <==> exists j :: 0 <= j < i && Same(existing[j], e)
    {
      if Same(existing[i], e) {
        found := true;
      }
      i := i + 1;
    }
  }

  /** `update()`: walks the log once, collecting the entries not displayed,
      and appends them. */
  method Update(content: Content, log: seq<FetchError>) returns (r: Content)
    ensures r == Merge(content, log)
  {
    if !content.Errors? {
      return content;
    }
    var existing := content.errors;
    var add: seq<FetchError> := [];
    var i := 0;
    while i < |log|
      invariant 0 <= i <= |log|
      invariant add == NewEntries(existing, log[..i])
    {
      var displayed := ContainsRecord(existing, log[i]);
      if !displayed {
        add := add + [log[i]];
      }
      assert log[..i + 1] == log[..i] + [log[i]];
      NewEntriesAppend(existing, log[..i], [log[i]]);
      assert NewEntries(existing, [log[i]]) == FlatMap([], NewEntry(existing)) + NewEntry(existing)(log[i]);
      i := i + 1;
    }
    assert log[..i] == log;
    r := Errors(existing + add);
  }
}
