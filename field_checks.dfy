/**
 * The `errors` object the SDK's validators fill in: each field test that fails records
 * one message under its field, and the validator throws a ValidationError exactly when
 * the object ends up non-empty.
 */
module FieldChecks {
  import opened Base

  /** The `errors` object of a ValidationError: field name to messages. */
  type FieldErrors = map<string, seq<string>>

  /** A thrown `ValidationError(message, errors)`. */
  datatype ValidationFailure = ValidationFailure(message: string, errors: FieldErrors)

  /** One field test of a validator: the field and the message it records when it fails. */
  datatype Check = Check(field: string, failure: Option<string>)

  /** `errors` after one more check: its message is recorded if it failed. */
  function Add(errors: FieldErrors, c: Check): FieldErrors {
    if c.failure.Some? then errors[c.field := [c.failure.value]] else errors
  }

  /** The `errors` object after running `checks` in order. */
  function Collect(checks: seq<Check>): FieldErrors
    decreases |checks|
  {
    if checks == [] then map[] else Add(Collect(checks[..|checks| - 1]), checks[|checks| - 1])
  }

  /** A field is reported exactly when one of its checks failed. */
  lemma {:induction false} CollectKeys(checks: seq<Check>)
    ensures forall f :: f in Collect(checks) <==> exists c :: c in checks && c.field == f && c.failure.Some?
    decreases |checks|
  {
    if checks != [] {
      var prefix := checks[..|checks| - 1];
      CollectKeys(prefix);
      assert forall c :: c in checks <==> c in prefix || c == checks[|checks| - 1];
    }
  }

  /** No two checks name the same field. */
  predicate DistinctFields(checks: seq<Check>) {
    forall i, j :: 0 <= i < j < |checks| ==> checks[i].field != checks[j].field
  }

  /** With distinct fields, each check's own outcome decides its entry. */
  lemma {:induction false} CollectReports(checks: seq<Check>, i: nat)
    requires DistinctFields(checks) && i < |checks|
    ensures checks[i].field in Collect(checks) <==> checks[i].failure.Some?
    ensures checks[i].failure.Some? ==> Collect(checks)[checks[i].field] == [checks[i].failure.value]
    decreases |checks|
  {
    var n := |checks| - 1;
    var prefix := checks[..n];
    if i < n {
      assert prefix[i] == checks[i];
      assert DistinctFields(prefix);
      CollectReports(prefix, i);
      assert checks[n].field != checks[i].field;
    } else {
      CollectKeys(prefix);
      forall c | c in prefix ensures c.field != checks[n].field {
        var j :| 0 <= j < n && prefix[j] == c;
        assert checks[j] == c;
      }
    }
  }

  /** The validator throws exactly when some check failed. */
  lemma CollectEmpty(checks: seq<Check>)
    ensures Collect(checks) == map[] <==> forall c :: c in checks ==> c.failure.None?
  {
    CollectKeys(checks);
    if Collect(checks) == map[] {
      forall c | c in checks ensures c.failure.None? {
        assert c.field !in Collect(checks);
      }
    }
  }

  /** The message recorded for a field whose test failed. */
  function Report(fails: bool, message: string): (r: Option<string>)
    ensures r.Some? <==> fails
    ensures r.Some? ==> r.value == message
  {
    if fails then Some(message) else None
  }

  /** Collecting one more check applies it to what the earlier ones collected. */
  lemma CollectPrefix(c: seq<Check>, k: nat)
    requires k < |c|
    ensures Collect(c[..k + 1]) == Add(Collect(c[..k]), c[k])
  {
    assert c[..k + 1][..k] == c[..k];
  }

  /** `if (failed) errors[field] = [message]`. */
  method Flag(errors: FieldErrors, field: string, failed: bool, message: string) returns (next: FieldErrors)
    ensures next == Add(errors, Check(field, Report(failed, message)))
  {
    next := errors;
    if failed {
      next := next[field := [message]];
    }
  }

  /** Collecting eight checks applies them one after the other. */
  lemma CollectEight(c0: Check, c1: Check, c2: Check, c3: Check, c4: Check, c5: Check, c6: Check, c7: Check)
    ensures Collect([c0, c1, c2, c3, c4, c5, c6, c7])
         == Add(Add(Add(Add(Add(Add(Add(Add(map[], c0), c1), c2), c3), c4), c5), c6), c7)
  {
    var c := [c0, c1, c2, c3, c4, c5, c6, c7];
    assert c[..0] == [];
    CollectPrefix(c, 0);
    CollectPrefix(c, 1);
    CollectPrefix(c, 2);
    CollectPrefix(c, 3);
    CollectPrefix(c, 4);
    CollectPrefix(c, 5);
    CollectPrefix(c, 6);
    CollectPrefix(c, 7);
    assert c[..8] == c;
  }

  /** Collecting five checks applies them one after the other. */
  lemma CollectFive(c0: Check, c1: Check, c2: Check, c3: Check, c4: Check)
    ensures Collect([c0, c1, c2, c3, c4]) == Add(Add(Add(Add(Add(map[], c0), c1), c2), c3), c4)
  {
    var c := [c0, c1, c2, c3, c4];
    assert c[..0] == [];
    CollectPrefix(c, 0);
    CollectPrefix(c, 1);
    CollectPrefix(c, 2);
    CollectPrefix(c, 3);
    CollectPrefix(c, 4);
    assert c[..5] == c;
  }

  /** Five checks collect to the empty object exactly when all five pass. */
  lemma CollectFiveEmpty(c0: Check, c1: Check, c2: Check, c3: Check, c4: Check)
    ensures Collect([c0, c1, c2, c3, c4]) == map[] <==>
      c0.failure.None? && c1.failure.None? && c2.failure.None? && c3.failure.None? && c4.failure.None?
  {
    var c := [c0, c1, c2, c3, c4];
    CollectEmpty(c);
    assert c[0] == c0 && c[1] == c1 && c[2] == c2 && c[3] == c3 && c[4] == c4;
  }
}
