/** Reconciliation of explicitly annual debt-service disclosures: no partial sum, no zero-fill. */
module DebtServiceCheck {
  import opened Outcomes
  import opened Corpus
  import opened Policies
  import opened Calculations

  const SCHEDULE: seq<Metric> := [AllLoanPrincipal, AllLoanInterest, AdditionalLease]
  const TERM: seq<Metric> := [DebtService, PrincipalDue, TermInterest]

  function Reads(names: seq<Metric>, read: Reader): seq<Result<Figure>> {
    seq(|names|, i requires 0 <= i < |names| => read(names[i]))
  }

  predicate SameReceipt(a: Figure, b: Figure) {
    SameContext(a, b) && a.receipt.policyHash == b.receipt.policyHash
  }

  predicate OneReceipt(figures: seq<Figure>)
    requires figures != []
  {
    forall f | f in figures :: SameReceipt(f, figures[0])
  }

  /** The full schedule of three against the reported total. */
  function CheckSchedule(complete: seq<Figure>, read: Reader): Option<Code> {
    if |complete| != 3 then Some(MetricMissing)
    else if !OneReceipt(complete) then Some(ContextConflict)
    else
      var amounts := Numbers(complete);
      if amounts.Err? then Some(amounts.code)
      else
        var a := amounts.value;
        if |a| != 3 || a[0] < 0.0 || a[1] < 0.0 || a[2] < 0.0 || a[0] + a[1] + a[2] <= 0.0 then Some(ValueAmbiguous)
        else
          match read(DebtService)
          case Err(code) => if code == MetricMissing then None else Some(code)
          case Ok(total) =>
            if !SameReceipt(total, complete[0]) then Some(ContextConflict)
            else
              var t := AsDecimal(total.value);
              if t.Err? then Some(t.code)
              else if t.value != a[0] + a[1] + a[2] then Some(ConflictingValues)
              else None
  }

  /** The narrower term-debt figures, when no part of the schedule is disclosed. */
  function CheckTerm(values: seq<Figure>): Option<Code> {
    if |values| != 3 then None
    else if !OneReceipt(values) then Some(ContextConflict)
    else
      var amounts := Numbers(values);
      if amounts.Err? then Some(amounts.code)
      else
        var a := amounts.value;
        if |a| != 3 || a[0] <= 0.0 || a[1] < 0.0 || a[2] < 0.0 || a[0] != a[1] + a[2] then Some(ConflictingValues)
        else None
  }

  /** The code that the reconciliation raises, if any. */
  function Reconcile(read: Reader): Option<Code> {
    match Available(Reads(SCHEDULE, read))
    case Err(code) => Some(code)
    case Ok(complete) =>
      if complete != [] then CheckSchedule(complete, read)
      else
        match Available(Reads(TERM, read))
        case Err(code) => Some(code)
        case Ok(values) => CheckTerm(values)
  }

  /** A loop that extracts names, skipping what is missing. */
  method ExtractAvailable(cache: OperandCache, names: seq<Metric>) returns (r: Result<seq<Figure>>)
    requires cache.Valid()
    modifies cache`entries, cache`order, cache`performed
    ensures cache.Valid() && old(cache.order) <= cache.order
    ensures r == Available(Reads(names, cache.read))
  {
    ghost var parts := Reads(names, cache.read);
    var found: seq<Figure> := [];
    for i := 0 to |names|
      invariant cache.Valid() && old(cache.order) <= cache.order
      invariant Available(parts[..i]) == Ok(found)
    {
      AvailableStep(parts, i, found);
      var figure := cache.Extract(names[i]);
      if figure.Ok? {
        found := found + [figure.value];
      } else if figure.code != MetricMissing {
        return Err(figure.code);
      }
    }
    assert parts[..|names|] == parts;
    return Ok(found);
  }

  /** reconcile_annual_service. */
  method ReconcileAnnualService(cache: OperandCache) returns (r: Option<Code>)
    requires cache.Valid()
    modifies cache`entries, cache`order, cache`performed
    ensures cache.Valid() && old(cache.order) <= cache.order
    ensures r == Reconcile(cache.read)
  {
    var complete := ExtractAvailable(cache, SCHEDULE);
    if complete.Err? {
      return Some(complete.code);
    }
    if complete.value != [] {
      if |complete.value| != 3 {
        return Some(MetricMissing);
      }
      if !OneReceipt(complete.value) {
        return Some(ContextConflict);
      }
      NumbersFacts(complete.value);
      var amounts := Numbers(complete.value);
      if amounts.Err? {
        return Some(amounts.code);
      }
      var a := amounts.value;
      if a[0] < 0.0 || a[1] < 0.0 || a[2] < 0.0 || a[0] + a[1] + a[2] <= 0.0 {
        return Some(ValueAmbiguous);
      }
      var total := cache.Extract(DebtService);
      if total.Err? {
        return if total.code == MetricMissing then None else Some(total.code);
      }
      if !SameReceipt(total.value, complete.value[0]) {
        return Some(ContextConflict);
      }
      var t := AsDecimal(total.value.value);
      if t.Err? {
        return Some(t.code);
      }
      return if t.value != a[0] + a[1] + a[2] then Some(ConflictingValues) else None;
    }
    var values := ExtractAvailable(cache, TERM);
    if values.Err? {
      return Some(values.code);
    }
    r := CheckTerm(values.value);
  }

  // ----- what passing certifies -----

  ghost predicate AllMissing(names: seq<Metric>, read: Reader) {
    forall n | n in names :: read(n) == Err(MetricMissing)
  }

  /** The reading of a metric is the number x. */
  predicate Says(read: Reader, name: Metric, x: real) {
    read(name).Ok? && AsDecimal(read(name).value.value) == Ok(x)
  }

  lemma {:induction false} AvailableReads(names: seq<Metric>, read: Reader)
    ensures var r := Available(Reads(names, read));
            && (r.Ok? ==> forall n | n in names :: Tolerable(read(n)))
            && (r == Ok([]) ==> AllMissing(names, read))
            && (r.Ok? && |r.value| == |names| ==>
                  AllRead(names, read) && forall i | 0 <= i < |names| :: read(names[i]) == Ok(r.value[i]))
            && (r.Ok? && AllRead(names, read) ==> |r.value| == |names|)
  {
    var parts := Reads(names, read);
    AvailableFacts(parts);
    assert forall i | 0 <= i < |names| :: parts[i] == read(names[i]) && parts[i] in parts && names[i] in names;
  }

  /** If the reconciliation passes, the schedule of three is disclosed in full or not at all. */
  lemma {:induction false} NoPartialSchedule(read: Reader)
    requires Reconcile(read).None?
    ensures AllRead(SCHEDULE, read) || AllMissing(SCHEDULE, read)
    ensures Tolerable(read(DebtService))
  {
    AvailableReads(SCHEDULE, read);
    AvailableReads(TERM, read);
    assert DebtService in TERM;
  }

  /** In full, its parts are numbers, not negative and not all zero, and a reported total is their sum. */
  lemma {:induction false} ScheduleAddsUp(read: Reader) returns (principal: real, interest: real, lease: real)
    requires Reconcile(read).None? && AllRead(SCHEDULE, read)
    ensures Says(read, AllLoanPrincipal, principal) && Says(read, AllLoanInterest, interest) &&
            Says(read, AdditionalLease, lease)
    ensures principal >= 0.0 && interest >= 0.0 && lease >= 0.0 && principal + interest + lease > 0.0
    ensures read(DebtService).Ok? ==> Says(read, DebtService, principal + interest + lease)
  {
    AvailableReads(SCHEDULE, read);
    var complete := Available(Reads(SCHEDULE, read)).value;
    NumbersFacts(complete);
    var a := Numbers(complete).value;
    principal, interest, lease := a[0], a[1], a[2];
    assert read(SCHEDULE[0]) == Ok(complete[0]) && read(SCHEDULE[1]) == Ok(complete[1]) &&
           read(SCHEDULE[2]) == Ok(complete[2]);
  }

  /** Not at all, a reported total with both term components is their sum. */
  lemma {:induction false} TermAddsUp(read: Reader) returns (total: real, principal: real, interest: real)
    requires Reconcile(read).None? && AllMissing(SCHEDULE, read) && AllRead(TERM, read)
    ensures Says(read, DebtService, total) && Says(read, PrincipalDue, principal) && Says(read, TermInterest, interest)
    ensures total > 0.0 && total == principal + interest
  {
    AvailableReads(SCHEDULE, read);
    AvailableReads(TERM, read);
    NothingFound(SCHEDULE, read);
    var values := Available(Reads(TERM, read)).value;
    NumbersFacts(values);
    var a := Numbers(values).value;
    total, principal, interest := a[0], a[1], a[2];
    assert read(TERM[0]) == Ok(values[0]) && read(TERM[1]) == Ok(values[1]) && read(TERM[2]) == Ok(values[2]);
  }

  lemma {:induction false} NothingFound(names: seq<Metric>, read: Reader)
    requires AllMissing(names, read)
    ensures Available(Reads(names, read)) == Ok([])
  {
    if names != [] {
      var n := |names| - 1;
      NothingFound(names[..n], read);
      assert Reads(names, read)[..n] == Reads(names[..n], read);
      assert names[n] in names;
    }
  }
}
