/// The "success / partial success / failure" count aggregation shared by the
/// SSL, cache, optimization and bulk-settings handlers.  Each of those
/// handlers runs a fixed chain of `if field != "" { total++; if update() {
/// successCount++ } }` blocks; here the chain is the table of
/// `Operation`s the handler would attempt, walked in order by `Tally`.
module ZoneSettings {
  import opened Text
  import opened Seqs
  import opened HandlerCommon

  /// One conditional block of a settings handler: the Cloudflare setting it
  /// changes, the value it sends, and whether the request asked for it.
  datatype Operation = Operation(setting: string, value: string, requested: bool)

  /// A string field of the request: requested exactly when non-empty
  /// (the empty string means "leave unchanged").
  function FieldOperation(setting: string, value: string): Operation {
    Operation(setting, value, value != "")
  }

  predicate IsRequested(op: Operation) {
    op.requested
  }

  /// The operations the handler attempts, in order.
  function Requested(ops: seq<Operation>): seq<Operation> {
    Filter(ops, IsRequested)
  }

  /// The closing if-chain of every settings handler.
  function Aggregate(successCount: nat, total: nat, failMessage: string): (r: (bool, string))
    ensures r.0 <==> successCount > 0
    ensures successCount > 0 && successCount == total ==>
      r.1 == "Success (" + NatToString(successCount) + "/" + NatToString(total) + ")"
    ensures successCount > 0 && successCount != total ==>
      r.1 == "Partial success (" + NatToString(successCount) + "/" + NatToString(total) + ")"
    ensures successCount == 0 ==> r.1 == failMessage
  {
    if successCount == total && total > 0 then
      (true, "Success (" + NatToString(successCount) + "/" + NatToString(total) + ")")
    else if successCount > 0 then
      (true, "Partial success (" + NatToString(successCount) + "/" + NatToString(total) + ")")
    else
      (false, failMessage)
  }

  /// Walks the operation table as the handler's chain of conditionals does,
  /// counting the requested operations and those whose call succeeded.
  method Tally(ops: seq<Operation>, succeeded: Operation -> bool) returns (successCount: nat, total: nat)
    ensures total == |Requested(ops)|
    ensures successCount == |Filter(Requested(ops), succeeded)|
    ensures successCount <= total
  {
    successCount, total := 0, 0;
    var i := 0;
    while i < |ops|
      invariant 0 <= i <= |ops|
      invariant total == |Requested(ops[..i])|
      invariant successCount == |Filter(Requested(ops[..i]), succeeded)|
    {
      assert ops[..i + 1] == ops[..i] + [ops[i]];
      FilterAppend(ops[..i], [ops[i]], IsRequested);
      FilterAppend(Requested(ops[..i]), Requested([ops[i]]), succeeded);
      if ops[i].requested {
        total := total + 1;
        if succeeded(ops[i]) {
          successCount := successCount + 1;
        }
      }
      i := i + 1;
    }
    assert ops[..|ops|] == ops;
  }

  /// What a settings handler answers for one domain: the zone lookup's error,
  /// or the aggregation of its operations' outcomes.
  function Outcome(lookup: ZoneLookup, ops: seq<Operation>, succeeded: Operation -> bool,
                   failMessage: string): (r: (bool, string))
    ensures ZoneIdOf(lookup).Err? ==> r == (false, ZoneIdOf(lookup).message)
    ensures ZoneIdOf(lookup).Ok? ==>
      (r.0 <==> exists i :: 0 <= i < |ops| && ops[i].requested && succeeded(ops[i]))
  {
    match ZoneIdOf(lookup)
    case Err(m) => (false, m)
    case Ok(_) =>
      var done := Filter(Requested(ops), succeeded);
      SomeSucceeded(ops, succeeded);
      Aggregate(|done|, |Requested(ops)|, failMessage)
  }

  /// At least one operation was counted as done exactly when some requested
  /// operation's call succeeded.
  lemma SomeSucceeded(ops: seq<Operation>, succeeded: Operation -> bool)
    ensures |Filter(Requested(ops), succeeded)| > 0
        <==> exists i :: 0 <= i < |ops| && ops[i].requested && succeeded(ops[i])
  {
    var done := Filter(Requested(ops), succeeded);
    if |done| > 0 {
      FilterMembership(Requested(ops), succeeded, done[0]);
      FilterMembership(ops, IsRequested, done[0]);
    }
    if exists i :: 0 <= i < |ops| && ops[i].requested && succeeded(ops[i]) {
      var i :| 0 <= i < |ops| && ops[i].requested && succeeded(ops[i]);
      FilterMembership(ops, IsRequested, ops[i]);
      FilterMembership(Requested(ops), succeeded, ops[i]);
    }
  }

  /// The handler's per-domain body: look the zone up, stop on failure,
  /// otherwise tally the operations and aggregate.
  method ApplySettings(lookup: ZoneLookup, ops: seq<Operation>, succeeded: Operation -> bool,
                       failMessage: string) returns (success: bool, message: string)
    ensures (success, message) == Outcome(lookup, ops, succeeded, failMessage)
  {
    var zone := ZoneIdOf(lookup);
    if zone.Err? {
      return false, zone.message;
    }
    var successCount, total := Tally(ops, succeeded);
    var r := Aggregate(successCount, total, failMessage);
    success, message := r.0, r.1;
  }

  /// No operation is attempted exactly when no field of the table is requested.
  lemma {:induction false} NothingRequested(ops: seq<Operation>)
    ensures |Requested(ops)| == 0 <==> forall i :: 0 <= i < |ops| ==> !ops[i].requested
  {
    if ops != [] {
      NothingRequested(ops[1..]);
      assert forall i :: 1 <= i < |ops| ==> ops[i] == ops[1..][i - 1];
    }
  }

  /// Counting requested operations distributes over concatenation.
  lemma RequestedAppend(a: seq<Operation>, b: seq<Operation>)
    ensures |Requested(a + b)| == |Requested(a)| + |Requested(b)|
  {
    FilterAppend(a, b, IsRequested);
  }

  /// A table of four attempts nothing exactly when none of its fields is set.
  lemma NoneOfFour(ops: seq<Operation>)
    requires |ops| == 4
    ensures |Requested(ops)| == 0 <==>
      !ops[0].requested && !ops[1].requested && !ops[2].requested && !ops[3].requested
  {
    assert ops == [ops[0]] + [ops[1]] + [ops[2]] + [ops[3]];
    RequestedAppend([ops[0]] + [ops[1]] + [ops[2]], [ops[3]]);
    RequestedAppend([ops[0]] + [ops[1]], [ops[2]]);
    RequestedAppend([ops[0]], [ops[1]]);
  }

  /// The same for a table of eight, one half at a time.
  lemma NoneOfEight(ops: seq<Operation>)
    requires |ops| == 8
    ensures |Requested(ops)| == 0 <==>
      !ops[0].requested && !ops[1].requested && !ops[2].requested && !ops[3].requested
      && !ops[4].requested && !ops[5].requested && !ops[6].requested && !ops[7].requested
  {
    assert ops == ops[..4] + ops[4..];
    RequestedAppend(ops[..4], ops[4..]);
    NoneOfFour(ops[..4]);
    NoneOfFour(ops[4..]);
  }

  /// The same for a table of twelve.
  lemma NoneOfTwelve(ops: seq<Operation>)
    requires |ops| == 12
    ensures |Requested(ops)| == 0 <==>
      !ops[0].requested && !ops[1].requested && !ops[2].requested && !ops[3].requested
      && !ops[4].requested && !ops[5].requested && !ops[6].requested && !ops[7].requested
      && !ops[8].requested && !ops[9].requested && !ops[10].requested && !ops[11].requested
  {
    assert ops == ops[..8] + ops[8..];
    RequestedAppend(ops[..8], ops[8..]);
    NoneOfEight(ops[..8]);
    NoneOfFour(ops[8..]);
  }

  /// The same for a table of sixteen.
  lemma NoneOfSixteen(ops: seq<Operation>)
    requires |ops| == 16
    ensures |Requested(ops)| == 0 <==>
      !ops[0].requested && !ops[1].requested && !ops[2].requested && !ops[3].requested
      && !ops[4].requested && !ops[5].requested && !ops[6].requested && !ops[7].requested
      && !ops[8].requested && !ops[9].requested && !ops[10].requested && !ops[11].requested
      && !ops[12].requested && !ops[13].requested && !ops[14].requested && !ops[15].requested
  {
    assert ops == ops[..8] + ops[8..];
    RequestedAppend(ops[..8], ops[8..]);
    NoneOfEight(ops[..8]);
    NoneOfEight(ops[8..]);
  }

  /// With nothing requested the handler reports the failure message even
  /// though the zone was found.
  lemma NothingRequestedFails(lookup: ZoneLookup, ops: seq<Operation>, succeeded: Operation -> bool,
                              failMessage: string)
    requires ZoneIdOf(lookup).Ok?
    requires forall i :: 0 <= i < |ops| ==> !ops[i].requested
    ensures Outcome(lookup, ops, succeeded, failMessage) == (false, failMessage)
  {
    NothingRequested(ops);
  }

  /// When every requested call succeeds and at least one was requested the
  /// answer is the full "Success (t/t)".
  lemma AllSucceeded(lookup: ZoneLookup, ops: seq<Operation>, succeeded: Operation -> bool,
                     failMessage: string)
    requires ZoneIdOf(lookup).Ok?
    requires forall i :: 0 <= i < |ops| && ops[i].requested ==> succeeded(ops[i])
    requires exists i :: 0 <= i < |ops| && ops[i].requested
    ensures var t := NatToString(|Requested(ops)|);
      Outcome(lookup, ops, succeeded, failMessage) == (true, "Success (" + t + "/" + t + ")")
  {
    forall k | 0 <= k < |Requested(ops)| ensures succeeded(Requested(ops)[k]) {
      FilterMembership(ops, IsRequested, Requested(ops)[k]);
    }
    FilterAll(Requested(ops), succeeded);
    SomeSucceeded(ops, succeeded);
  }

  /// The names of the settings an operation table touches.
  function SettingNames(ops: seq<Operation>): (r: seq<string>)
    ensures |r| == |ops|
    ensures forall i :: 0 <= i < |ops| ==> r[i] == ops[i].setting
  {
    seq(|ops|, i requires 0 <= i < |ops| => ops[i].setting)
  }
}
