/** The staged debt-service cover: read every operand once, stop on any refusal but absence, reconcile
    the debt service, then demand that every computable route agrees. */
module DscrStages {
  import opened Outcomes
  import opened Corpus
  import opened Policies
  import opened Formulas
  import opened Calculations
  import opened DebtServiceCheck

  /** The configured formulas, primary first. */
  function Choices(policy: Policy): seq<FormulaId> {
    if Dscr !in policy.calculations then []
    else [policy.calculations[Dscr]] + if Dscr in policy.alternatives then policy.alternatives[Dscr] else []
  }

  // ----- the stages, without the memo -----

  /** The operands with a coefficient on one side. */
  function Weighted(names: seq<Metric>, coefficients: seq<int>): seq<Metric> {
    if names == [] || coefficients == [] then []
    else (if coefficients[0] != 0 then [names[0]] else []) + Weighted(names[1..], coefficients[1..])
  }

  datatype Side = Numerator | Denominator

  function OnSide(id: FormulaId, side: Side): seq<Metric> {
    var f := FormulaOf(id);
    Weighted(f.operands, if side == Numerator then f.numerator else f.denominator)
  }

  function Flatten(parts: seq<seq<Metric>>): seq<Metric> {
    if parts == [] then [] else Flatten(parts[..|parts| - 1]) + parts[|parts| - 1]
  }

  function Sides(choices: seq<FormulaId>, side: Side): seq<seq<Metric>> {
    seq(|choices|, i requires 0 <= i < |choices| => OnSide(choices[i], side))
  }

  function Touched(choices: seq<FormulaId>, side: Side): seq<Metric> {
    Flatten(Sides(choices, side))
  }

  /** All numerators of all routes, then all denominators. */
  function TouchOrder(choices: seq<FormulaId>): seq<Metric> {
    Touched(choices, Numerator) + Touched(choices, Denominator)
  }

  /** The first reading that is neither a figure nor an absence. */
  function FirstRefusal(names: seq<Metric>, read: Reader): Option<Code> {
    if names == [] then None
    else if !Tolerable(read(names[0])) then Some(read(names[0]).code)
    else FirstRefusal(names[1..], read)
  }

  /** What stops a pass at once: a breach of scope, or an exception that is no abstention. */
  predicate Stops(r: Result<Figure>) {
    r == Err(ScopeViolation) || Escapes(r)
  }

  function FirstStop(names: seq<Metric>, read: Reader): Option<Code> {
    if names == [] then None
    else if Stops(read(names[0])) then Some(read(names[0]).code)
    else FirstStop(names[1..], read)
  }

  /** What stops a pass comes first; any other refusal is raised after both passes. */
  function Discovery(names: seq<Metric>, read: Reader): Option<Code> {
    if FirstStop(names, read).Some? then FirstStop(names, read) else FirstRefusal(names, read)
  }

  function Figures(results: seq<Result<Figure>>): seq<Figure> {
    if results == [] then []
    else (if results[0].Ok? then [results[0].value] else []) + Figures(results[1..])
  }

  function SumOf(values: seq<real>): real {
    if values == [] then 0.0 else values[0] + SumOf(values[1..])
  }

  /** any(value < 0): the first negative figure answers, a text before it is an exception. */
  function AnyNegative(figures: seq<Figure>): Result<bool> {
    if figures == [] then Ok(false)
    else
      var first :- AsDecimal(figures[0].value);
      if first < 0.0 then Ok(true) else AnyNegative(figures[1..])
  }

  /** One route's denominator: nothing found may be negative, and all of it together must be positive. */
  function CheckDenominator(id: FormulaId, read: Reader): Option<Code> {
    var names := OnSide(id, Denominator);
    var found := Figures(Reads(names, read));
    var negative := AnyNegative(found);
    if negative.Err? then Some(negative.code)
    else if negative.value then Some(ValueAmbiguous)
    else if |found| == |names| then
      var numbers := Numbers(found);
      if numbers.Err? then Some(numbers.code)
      else if SumOf(numbers.value) <= 0.0 then Some(ValueAmbiguous)
      else None
    else None
  }

  function FirstFault(faults: seq<Option<Code>>): Option<Code> {
    if faults == [] then None
    else
      var before := FirstFault(faults[..|faults| - 1]);
      if before.Some? then before else faults[|faults| - 1]
  }

  function DenominatorFaults(choices: seq<FormulaId>, read: Reader): seq<Option<Code>> {
    seq(|choices|, i requires 0 <= i < |choices| => CheckDenominator(choices[i], read))
  }

  function Routes(choices: seq<FormulaId>, read: Reader, policyHash: nat): seq<Result<Figure>> {
    seq(|choices|, i requires 0 <= i < |choices| => Calculate(choices[i], read, policyHash))
  }

  predicate AgreeOn(results: seq<Figure>) {
    forall f | f in results :: AsDecimal(f.value) == AsDecimal(results[0].value)
  }

  /** The cover as a function of what the direct readings say; no memo appears in it. */
  function Cover(policy: Policy, read: Reader): Result<Figure> {
    var choices := Choices(policy);
    if choices == [] then Err(MetricNotAllowed)
    else
      var discovery := Discovery(TouchOrder(choices), read);
      if discovery.Some? then Err(discovery.value)
      else
        var reconciliation := Reconcile(read);
        if reconciliation.Some? then Err(reconciliation.value)
        else
          var denominators := FirstFault(DenominatorFaults(choices, read));
          if denominators.Some? then Err(denominators.value)
          else if !Tolerable(read(Dscr)) then Err(read(Dscr).code)
          else
            var results :- Available(Routes(choices, read, policy.hash));
            if results == [] then Err(MetricMissing)
            else if !AgreeOn(results) then Err(ContextConflict)
            else Ok(results[0])
  }

  // ----- the memo's order -----

  /** Names added to a list in order, first appearances only. */
  function AddNew(acc: seq<Metric>, names: seq<Metric>): seq<Metric> {
    if names == [] then acc
    else
      var before := AddNew(acc, names[..|names| - 1]);
      var n := names[|names| - 1];
      if n in before then before else before + [n]
  }

  lemma {:induction false} AddNewTwice(acc: seq<Metric>, a: seq<Metric>, b: seq<Metric>)
    ensures AddNew(acc, a + b) == AddNew(AddNew(acc, a), b)
  {
    if b == [] {
      assert a + b == a;
    } else {
      var n := |b| - 1;
      assert (a + b)[..|a + b| - 1] == a + b[..n];
      AddNewTwice(acc, a, b[..n]);
    }
  }

  lemma {:induction false} AddNewHas(acc: seq<Metric>, names: seq<Metric>, n: Metric)
    ensures n in AddNew(acc, names) <==> n in acc || n in names
  {
    if names != [] {
      AddNewHas(acc, names[..|names| - 1], n);
      assert n in names <==> n in names[..|names| - 1] || n == names[|names| - 1];
    }
  }

  lemma {:induction false} FirstRefusalOfSum(a: seq<Metric>, b: seq<Metric>, read: Reader)
    ensures FirstRefusal(a + b, read) == if FirstRefusal(a, read).Some? then FirstRefusal(a, read)
            else FirstRefusal(b, read)
  {
    if a == [] {
      assert a + b == b;
    } else {
      assert (a + b)[1..] == a[1..] + b;
      FirstRefusalOfSum(a[1..], b, read);
    }
  }

  lemma {:induction false} FirstRefusalNone(names: seq<Metric>, read: Reader)
    ensures FirstRefusal(names, read).None? <==> forall n | n in names :: Tolerable(read(n))
    ensures FirstRefusal(names, read).Some? ==> FirstRefusal(names, read).value != MetricMissing
  {
    if names != [] {
      FirstRefusalNone(names[1..], read);
      assert forall n :: n in names <==> n == names[0] || n in names[1..];
    }
  }

  /** Repeats do not change which refusal comes first. */
  lemma {:induction false} FirstRefusalSkipsRepeats(names: seq<Metric>, read: Reader)
    ensures FirstRefusal(AddNew([], names), read) == FirstRefusal(names, read)
  {
    if names != [] {
      var m := |names| - 1;
      var before, n := AddNew([], names[..m]), names[m];
      FirstRefusalSkipsRepeats(names[..m], read);
      assert names == names[..m] + [n];
      FirstRefusalOfSum(names[..m], [n], read);
      FirstRefusalOfSum(before, [n], read);
      AddNewHas([], names[..m], n);
      FirstRefusalNone(names[..m], read);
    }
  }

  lemma {:induction false} FlattenHas(parts: seq<seq<Metric>>, n: Metric)
    ensures n in Flatten(parts) <==> exists i :: 0 <= i < |parts| && n in parts[i]
  {
    if parts != [] {
      var m := |parts| - 1;
      FlattenHas(parts[..m], n);
      assert forall i | 0 <= i < m :: parts[..m][i] == parts[i];
    }
  }

  lemma {:induction false} TouchedHas(choices: seq<FormulaId>, side: Side, i: nat, n: Metric)
    requires i < |choices| && n in OnSide(choices[i], side)
    ensures n in Touched(choices, side)
  {
    FlattenHas(Sides(choices, side), n);
    assert Sides(choices, side)[i] == OnSide(choices[i], side);
  }

  // ----- calculate_dscr -----

  lemma {:induction false} FirstStopOfSum(a: seq<Metric>, b: seq<Metric>, read: Reader)
    ensures FirstStop(a + b, read) == if FirstStop(a, read).Some? then FirstStop(a, read) else FirstStop(b, read)
  {
    if a == [] {
      assert a + b == b;
    } else {
      assert (a + b)[1..] == a[1..] + b;
      FirstStopOfSum(a[1..], b, read);
    }
  }

  lemma {:induction false} FirstStopIsRefused(names: seq<Metric>, read: Reader)
    requires FirstRefusal(names, read).None?
    ensures FirstStop(names, read).None?
  {
    if names != [] {
      FirstStopIsRefused(names[1..], read);
    }
  }

  lemma {:induction false} FlattenStep(parts: seq<seq<Metric>>, i: nat)
    requires i < |parts|
    ensures Flatten(parts[..i + 1]) == Flatten(parts[..i]) + parts[i]
  {
    assert parts[..i + 1][..i] == parts[..i];
  }

  lemma {:induction false} StopStays(parts: seq<seq<Metric>>, n: nat, read: Reader)
    requires n <= |parts| && FirstStop(Flatten(parts[..n]), read).Some?
    ensures FirstStop(Flatten(parts), read) == FirstStop(Flatten(parts[..n]), read)
    decreases |parts| - n
  {
    if n < |parts| {
      FlattenStep(parts, n);
      FirstStopOfSum(Flatten(parts[..n]), parts[n], read);
      StopStays(parts, n + 1, read);
    } else {
      assert parts[..n] == parts;
    }
  }

  lemma {:induction false} AddNewStep(acc: seq<Metric>, names: seq<Metric>, j: nat)
    requires j < |names|
    ensures var before := AddNew(acc, names[..j]);
            AddNew(acc, names[..j + 1]) == if names[j] in before then before else before + [names[j]]
  {
    assert names[..j + 1][..j] == names[..j];
  }

  lemma {:induction false} StopStep(names: seq<Metric>, j: nat, read: Reader)
    requires j < |names|
    ensures FirstStop(names[j..], read) == if Stops(read(names[j])) then Some(read(names[j]).code)
            else FirstStop(names[j + 1..], read)
  {
    assert names[j..][1..] == names[j + 1..];
  }

  /** One pass over one side of all routes: it ends at the first reading that stops it, anything else stays in the
      memo. */
  method Pass(cache: OperandCache, choices: seq<FormulaId>, side: Side) returns (stopped: Option<Code>)
    requires cache.Valid()
    modifies cache`entries, cache`order, cache`performed
    ensures cache.Valid()
    ensures stopped == FirstStop(Touched(choices, side), cache.read)
    ensures stopped.None? ==> cache.order == AddNew(old(cache.order), Touched(choices, side))
  {
    ghost var parts := Sides(choices, side);
    for i := 0 to |choices|
      invariant cache.Valid()
      invariant cache.order == AddNew(old(cache.order), Flatten(parts[..i]))
      invariant FirstStop(Flatten(parts[..i]), cache.read).None?
    {
      FlattenStep(parts, i);
      FirstStopOfSum(Flatten(parts[..i]), parts[i], cache.read);
      stopped := PassFormula(cache, OnSide(choices[i], side));
      if stopped.Some? {
        StopStays(parts, i + 1, cache.read);
        return;
      }
      AddNewTwice(old(cache.order), Flatten(parts[..i]), parts[i]);
    }
    assert parts[..|choices|] == parts;
    stopped := None;
  }

  method PassFormula(cache: OperandCache, names: seq<Metric>) returns (stopped: Option<Code>)
    requires cache.Valid()
    modifies cache`entries, cache`order, cache`performed
    ensures cache.Valid()
    ensures stopped == FirstStop(names, cache.read)
    ensures stopped.None? ==> cache.order == AddNew(old(cache.order), names)
  {
    assert names[0..] == names;
    for j := 0 to |names|
      invariant cache.Valid()
      invariant cache.order == AddNew(old(cache.order), names[..j])
      invariant FirstStop(names, cache.read) == FirstStop(names[j..], cache.read)
    {
      AddNewStep(old(cache.order), names, j);
      StopStep(names, j, cache.read);
      var r := cache.Extract(names[j]);
      if Stops(r) {
        return Some(r.code);
      }
    }
    assert names[..|names|] == names && names[|names|..] == [];
    return None;
  }

  /** The loop over the memo's values, in insertion order. */
  method RaiseCached(cache: OperandCache) returns (r: Option<Code>)
    requires cache.Valid()
    ensures r == FirstRefusal(cache.order, cache.read)
  {
    for i := 0 to |cache.order|
      invariant FirstRefusal(cache.order, cache.read) == FirstRefusal(cache.order[i..], cache.read)
    {
      var cached := cache.entries[cache.order[i]];
      if !Tolerable(cached) {
        return Some(cached.code);
      }
      assert cache.order[i..][1..] == cache.order[i + 1..];
    }
    return None;
  }

  lemma {:induction false} FiguresStep(parts: seq<Result<Figure>>, i: nat, found: seq<Figure>)
    requires i < |parts|
    ensures found + Figures(parts[i..]) ==
            (if parts[i].Ok? then found + [parts[i].value] else found) + Figures(parts[i + 1..])
  {
    assert parts[i..][1..] == parts[i + 1..];
  }

  /** The figures among some memoised readings: every lookup hits the memo. */
  method LookUp(cache: OperandCache, names: seq<Metric>) returns (found: seq<Figure>)
    requires cache.Valid()
    requires forall n | n in names :: n in cache.entries
    ensures found == Figures(Reads(names, cache.read))
  {
    found := [];
    ghost var parts := Reads(names, cache.read);
    for i := 0 to |names|
      invariant Figures(parts) == found + Figures(parts[i..])
    {
      FiguresStep(parts, i, found);
      var cached := cache.entries[names[i]];
      assert cached == parts[i];
      if cached.Ok? {
        found := found + [cached.value];
      }
    }
  }

  /** One turn of the denominator loop. */
  method CheckCachedDenominator(cache: OperandCache, id: FormulaId) returns (r: Option<Code>)
    requires cache.Valid()
    requires forall n | n in OnSide(id, Denominator) :: n in cache.entries
    ensures r == CheckDenominator(id, cache.read)
  {
    var names := OnSide(id, Denominator);
    var found := LookUp(cache, names);
    var negative := AnyNegative(found);
    if negative.Err? {
      return Some(negative.code);
    }
    if negative.value {
      return Some(ValueAmbiguous);
    }
    if |found| != |names| {
      return None;
    }
    var numbers := Numbers(found);
    if numbers.Err? {
      return Some(numbers.code);
    }
    return if SumOf(numbers.value) <= 0.0 then Some(ValueAmbiguous) else None;
  }

  method CheckCachedDenominators(cache: OperandCache, choices: seq<FormulaId>) returns (r: Option<Code>)
    requires cache.Valid()
    requires forall n | n in Touched(choices, Denominator) :: n in cache.entries
    ensures r == FirstFault(DenominatorFaults(choices, cache.read))
  {
    ghost var faults := DenominatorFaults(choices, cache.read);
    for i := 0 to |choices|
      invariant FirstFault(faults[..i]).None?
    {
      FirstFaultStep(faults, i);
      forall n | n in OnSide(choices[i], Denominator) ensures n in cache.entries {
        TouchedHas(choices, Denominator, i, n);
      }
      r := CheckCachedDenominator(cache, choices[i]);
      if r.Some? {
        FirstFaultStands(faults, i + 1);
        return;
      }
    }
    assert faults[..|choices|] == faults;
    r := None;
  }

  lemma {:induction false} FirstFaultStep(faults: seq<Option<Code>>, i: nat)
    requires i < |faults|
    ensures FirstFault(faults[..i + 1]) == if FirstFault(faults[..i]).Some? then FirstFault(faults[..i]) else faults[i]
  {
    assert faults[..i + 1][..i] == faults[..i];
  }

  lemma {:induction false} FirstFaultStands(faults: seq<Option<Code>>, n: nat)
    requires n <= |faults| && FirstFault(faults[..n]).Some?
    ensures FirstFault(faults) == FirstFault(faults[..n])
  {
    if n == |faults| {
      assert faults[..n] == faults;
    } else {
      var shorter := faults[..|faults| - 1];
      assert shorter[..n] == faults[..n];
      FirstFaultStands(shorter, n);
    }
  }

  /** Figures read before the rest is. */
  function After(figures: seq<Figure>, rest: Result<seq<Figure>>): Result<seq<Figure>> {
    if rest.Ok? then Ok(figures + rest.value) else rest
  }

  lemma {:induction false} AfterNone(rest: Result<seq<Figure>>)
    ensures After([], rest) == rest
  {
    assert rest.Ok? ==> [] + rest.value == rest.value;
  }

  lemma {:induction false} ReadAllStep(names: seq<Metric>, i: nat, figures: seq<Figure>, read: Reader)
    requires i < |names|
    ensures After(figures, ReadAll(names[i..], read)) ==
            if read(names[i]).Err? then Err(read(names[i]).code)
            else After(figures + [read(names[i]).value], ReadAll(names[i + 1..], read))
  {
    assert names[i..][1..] == names[i + 1..];
    var rest := ReadAll(names[i + 1..], read);
    if read(names[i]).Ok? && rest.Ok? {
      var first := [read(names[i]).value];
      assert figures + (first + rest.value) == (figures + first) + rest.value;
    }
  }

  /** The operands of one calculation, in order, through the memo. */
  method ReadAllCached(cache: OperandCache, names: seq<Metric>) returns (r: Result<seq<Figure>>)
    requires cache.Valid()
    modifies cache`entries, cache`order, cache`performed
    ensures cache.Valid()
    ensures r == ReadAll(names, cache.read)
  {
    var figures: seq<Figure> := [];
    AfterNone(ReadAll(names, cache.read));
    assert names[0..] == names;
    for i := 0 to |names|
      invariant cache.Valid()
      invariant ReadAll(names, cache.read) == After(figures, ReadAll(names[i..], cache.read))
    {
      ReadAllStep(names, i, figures, cache.read);
      var f := cache.Extract(names[i]);
      if f.Err? {
        return Err(f.code);
      }
      figures := figures + [f.value];
    }
    assert names[|names|..] == [] && figures + [] == figures;
    return Ok(figures);
  }

  /** calculate through the memo. */
  method CalculateCached(cache: OperandCache, id: FormulaId, policyHash: nat) returns (r: Result<Figure>)
    requires cache.Valid()
    modifies cache`entries, cache`order, cache`performed
    ensures cache.Valid()
    ensures r == Calculate(id, cache.read, policyHash)
  {
    TableIsShaped(id);
    var formula := FormulaOf(id);
    var figures :- ReadAllCached(cache, formula.operands);
    if !ContextHolds(figures, policyHash) {
      return Err(ContextConflict);
    }
    var numbers :- Numbers(figures);
    var value := Evaluate(formula, numbers);
    if value.None? {
      return Err(ValueAmbiguous);
    }
    return Ok(ResultOf(id, figures, policyHash, value.value));
  }

  method CalculateRoutes(cache: OperandCache, choices: seq<FormulaId>, policyHash: nat) returns (r: Result<seq<Figure>>)
    requires cache.Valid()
    modifies cache`entries, cache`order, cache`performed
    ensures cache.Valid()
    ensures r == Available(Routes(choices, cache.read, policyHash))
  {
    ghost var parts := Routes(choices, cache.read, policyHash);
    var results: seq<Figure> := [];
    for i := 0 to |choices|
      invariant cache.Valid()
      invariant Available(parts[..i]) == Ok(results)
    {
      AvailableStep(parts, i, results);
      var result := CalculateCached(cache, choices[i], policyHash);
      if result.Ok? {
        results := results + [result.value];
      } else if result.code != MetricMissing {
        return Err(result.code);
      }
    }
    assert parts[..|choices|] == parts;
    return Ok(results);
  }

  /** calculate_dscr on a fresh memo: its outcome is the cover without a memo, and every operand was
      read directly at most once, in the order of first use. */
  method CalculateDscr(policy: Policy, read: Reader) returns (r: Result<Figure>, cache: OperandCache)
    ensures fresh(cache) && cache.Valid() && cache.read == read
    ensures r == Cover(policy, read)
  {
    cache := new OperandCache(read);
    var choices := Choices(policy);
    if choices == [] {
      return Err(MetricNotAllowed), cache;
    }
    var stopped := Pass(cache, choices, Numerator);
    FirstStopOfSum(Touched(choices, Numerator), Touched(choices, Denominator), read);
    if stopped.Some? {
      return Err(stopped.value), cache;
    }
    stopped := Pass(cache, choices, Denominator);
    if stopped.Some? {
      return Err(stopped.value), cache;
    }
    AddNewTwice([], Touched(choices, Numerator), Touched(choices, Denominator));
    FirstRefusalSkipsRepeats(TouchOrder(choices), read);
    var raised := RaiseCached(cache);
    if raised.Some? {
      return Err(raised.value), cache;
    }
    forall n | n in Touched(choices, Denominator) ensures n in cache.entries {
      AddNewHas([], TouchOrder(choices), n);
    }
    label discovered:
    raised := ReconcileAnnualService(cache);
    if raised.Some? {
      return Err(raised.value), cache;
    }
    forall n | n in Touched(choices, Denominator) ensures n in cache.entries {
      assert n in old@discovered(cache.order);
    }
    raised := CheckCachedDenominators(cache, choices);
    if raised.Some? {
      return Err(raised.value), cache;
    }
    var disclosed := cache.Extract(Dscr);
    if !Tolerable(disclosed) {
      return Err(disclosed.code), cache;
    }
    var computed := CalculateRoutes(cache, choices, policy.hash);
    if computed.Err? {
      return Err(computed.code), cache;
    }
    var results := computed.value;
    if results == [] {
      return Err(MetricMissing), cache;
    }
    if !AgreeOn(results) {
      return Err(ContextConflict), cache;
    }
    return Ok(results[0]), cache;
  }
}
