/**
 * The bank of missed questions: the record kept for each wrong answer, the
 * copy that goes to local storage, and removal by timestamp.
 */
module ErrorBank {
  import opened Wrappers

  /** One saved mistake, as `saveError` builds it. `operation` is absent when the question had none. */
  datatype ErrorRecord = ErrorRecord(
    question: string,
    correctAnswer: int,
    userAnswer: int,
    operation: Option<string>,
    timestamp: int)

  /** How many records `salvarErros` writes to storage. */
  const PersistLimit: nat := 50

  /**
   * `errors.slice(-50)`: the copy written to storage. It is the END of the list,
   * and because new records are put at the front, the end holds the oldest ones.
   */
  function Persisted(errors: seq<ErrorRecord>): (p: seq<ErrorRecord>)
    ensures |p| == if |errors| <= PersistLimit then |errors| else PersistLimit
  {
    if |errors| <= PersistLimit then errors else Persisted(errors[1..])
  }

  /** The stored copy is the tail of the list: the last `|Persisted(errors)|` records, in order. */
  lemma {:induction false} PersistedIsTail(errors: seq<ErrorRecord>)
    ensures Persisted(errors) == errors[|errors| - |Persisted(errors)|..]
  {
    if |errors| > PersistLimit {
      PersistedIsTail(errors[1..]);
      assert errors[1..][|errors| - 1 - PersistLimit..] == errors[|errors| - PersistLimit..];
    }
  }

  /** Below the limit the whole list is written. */
  lemma PersistedBelowLimit(errors: seq<ErrorRecord>)
    requires |errors| <= PersistLimit
    ensures Persisted(errors) == errors
  {
  }

  /**
   * Once 50 records are held, a record put at the front does not reach storage:
   * the stored copy stays what it was.
   */
  lemma PersistedIgnoresNewest(errors: seq<ErrorRecord>, r: ErrorRecord)
    requires |errors| >= PersistLimit
    ensures Persisted([r] + errors) == Persisted(errors)
  {
    var e := [r] + errors;
    assert e[|e| - PersistLimit..] == errors[|errors| - PersistLimit..];
  }

  /** The index `findIndex(e => e.timestamp === ts)` returns, or None for -1. */
  function FirstIndexOf(errors: seq<ErrorRecord>, ts: int): (r: Option<nat>)
    ensures r.None? <==> forall k :: 0 <= k < |errors| ==> errors[k].timestamp != ts
    ensures r.Some? ==> r.value < |errors| && errors[r.value].timestamp == ts
    ensures r.Some? ==> forall k :: 0 <= k < r.value ==> errors[k].timestamp != ts
  {
    if errors == [] then None
    else if errors[0].timestamp == ts then Some(0)
    else match FirstIndexOf(errors[1..], ts)
      case None => None
      case Some(i) => Some(i + 1)
  }

  /** An index holding `ts` with no earlier one holding it is the first index of `ts`. */
  lemma FirstIndexIsUnique(errors: seq<ErrorRecord>, ts: int, i: nat)
    requires i < |errors| && errors[i].timestamp == ts
    requires forall k :: 0 <= k < i ==> errors[k].timestamp != ts
    ensures FirstIndexOf(errors, ts) == Some(i)
  {
    var first := FirstIndexOf(errors, ts);
    assert first.Some?;
    assert !(first.value < i);
    assert errors[i].timestamp == ts;
  }

  /** The loop behind `findIndex`: -1 when no record has timestamp `ts`, else the first that has. */
  method FindIndexByTimestamp(errors: seq<ErrorRecord>, ts: int) returns (idx: int)
    ensures -1 <= idx < |errors|
    ensures idx == -1 <==> forall k :: 0 <= k < |errors| ==> errors[k].timestamp != ts
    ensures idx >= 0 ==> errors[idx].timestamp == ts && forall k :: 0 <= k < idx ==> errors[k].timestamp != ts
    ensures idx == -1 ==> FirstIndexOf(errors, ts).None?
    ensures idx >= 0 ==> FirstIndexOf(errors, ts) == Some(idx)
  {
    idx := 0;
    while idx < |errors|
      invariant 0 <= idx <= |errors|
      invariant forall k :: 0 <= k < idx ==> errors[k].timestamp != ts
    {
      if errors[idx].timestamp == ts {
        FirstIndexIsUnique(errors, ts, idx);
        return;
      }
      idx := idx + 1;
    }
    idx := -1;
  }

  /** What `removeSavedErrorByTimestamp` leaves: the list without its first record stamped `ts`. */
  function RemoveFirst(errors: seq<ErrorRecord>, ts: int): (r: seq<ErrorRecord>)
    ensures FirstIndexOf(errors, ts).None? ==> r == errors
    ensures FirstIndexOf(errors, ts).Some? ==> |r| == |errors| - 1
  {
    if errors == [] then []
    else if errors[0].timestamp == ts then errors[1..]
    else [errors[0]] + RemoveFirst(errors[1..], ts)
  }

  /** The recursion takes out the record at the first index of `ts`, as `splice(idx, 1)` does. */
  lemma {:induction false} RemoveFirstIsSplice(errors: seq<ErrorRecord>, ts: int)
    requires FirstIndexOf(errors, ts).Some?
    ensures var i := FirstIndexOf(errors, ts).value;
      RemoveFirst(errors, ts) == errors[..i] + errors[i + 1..]
  {
    if errors[0].timestamp != ts {
      var i := FirstIndexOf(errors, ts).value;
      var rest := errors[1..];
      assert FirstIndexOf(rest, ts) == Some(i - 1);
      RemoveFirstIsSplice(rest, ts);
      assert RemoveFirst(errors, ts) == [errors[0]] + RemoveFirst(rest, ts);
      SpliceAfterHead(errors, i);
    }
  }

  /** Taking out index `i > 0` commutes with putting the head back. */
  lemma SpliceAfterHead<T>(s: seq<T>, i: nat)
    requires 0 < i < |s|
    ensures [s[0]] + (s[1..][..i - 1] + s[1..][i..]) == s[..i] + s[i + 1..]
  {
    assert s[1..][..i - 1] == s[1..i] && s[1..][i..] == s[i + 1..];
    assert [s[0]] + s[1..i] == s[..i];
  }

  /**
   * Removal takes out exactly one record, the first stamped `ts`; every other
   * record stays, in its order, and records with another timestamp are all kept.
   */
  lemma RemoveFirstKeepsOthers(errors: seq<ErrorRecord>, ts: int)
    requires FirstIndexOf(errors, ts).Some?
    ensures var i := FirstIndexOf(errors, ts).value;
      multiset(RemoveFirst(errors, ts)) + multiset{errors[i]} == multiset(errors)
    ensures forall x: ErrorRecord :: x.timestamp != ts ==> multiset(RemoveFirst(errors, ts))[x] == multiset(errors)[x]
  {
    var i := FirstIndexOf(errors, ts).value;
    var r := RemoveFirst(errors, ts);
    RemoveFirstIsSplice(errors, ts);
    assert errors == errors[..i] + [errors[i]] + errors[i + 1..];
    assert multiset(errors) == multiset(errors[..i]) + multiset{errors[i]} + multiset(errors[i + 1..]);
    assert multiset(r) == multiset(errors[..i]) + multiset(errors[i + 1..]);
    forall x: ErrorRecord | x.timestamp != ts
      ensures multiset(r)[x] == multiset(errors)[x]
    {
      assert x != errors[i];
    }
  }
}
