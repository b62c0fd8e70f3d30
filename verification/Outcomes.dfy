/** Results that carry the abstention code of the evidence gate, and small helpers on sets and sequences.

    Which code arises decides the control flow: only MetricMissing lets a caller try another
    route, every other code stops it. */
module Outcomes {

  datatype Option<+T> = None | Some(value: T)

  /** The codes of EvidenceInsufficient, plus two Python exceptions that are not EvidenceInsufficient:
      InvalidDecimal (a non-numeric text handed to Decimal) and InvalidYear (int of an empty period). */
  datatype Code =
    | MetricNotAllowed
    | MetricMissing
    | LatestPeriodMissing
    | DocumentTypeMissing
    | DocumentAmbiguous
    | EntityAmbiguous
    | PeriodAmbiguous
    | ValueAmbiguous
    | UnitAmbiguous
    | BasisAmbiguous
    | RegionAmbiguous
    | CitationAmbiguous
    | ConflictingValues
    | ContextConflict
    | ScopeViolation
    | InvalidDecimal
    | InvalidYear

  /** The codes of EvidenceInsufficient, which is what the gate's callers catch. */
  predicate Abstains(code: Code) {
    code != InvalidDecimal && code != InvalidYear
  }

  datatype Result<+T> = Ok(value: T) | Err(code: Code) {
    predicate IsFailure() { Err? }

    function PropagateFailure<U>(): Result<U>
      requires Err?
    {
      Err(code)
    }

    function Extract(): T
      requires Ok?
    {
      value
    }
  }

  /** The last items of a sequence, as many as asked for. */
  function Last<T>(s: seq<T>, n: nat): seq<T> {
    if |s| <= n then s else s[|s| - n..]
  }

  /** The elements of a sequence. */
  function Elements<T(==)>(s: seq<T>): set<T> {
    set x | x in s
  }

  lemma SingletonHasOneMember<T>(s: set<T>, x: T)
    requires |s| == 1 && x in s
    ensures s == {x}
  {
    assert |s - {x}| == 0;
  }

  /** The only member of a set, if it has exactly one. */
  function Sole<T(==)>(s: set<T>): (r: Option<T>)
    ensures r.Some? <==> |s| == 1
    ensures r.Some? ==> s == {r.value}
  {
    if |s| == 1 then
      assert forall x, y | x in s && y in s :: x == y by {
        forall x, y | x in s && y in s ensures x == y { SingletonHasOneMember(s, x); }
      }
      assert |s| != 0;
      var x :| x in s;
      SingletonHasOneMember(s, x);
      Some(x)
    else
      None
  }

  lemma {:induction false} Greatest(s: set<nat>) returns (m: nat)
    requires s != {}
    ensures m in s && forall y | y in s :: y <= m
  {
    var x :| x in s;
    var rest := s - {x};
    assert s == rest + {x};
    m := x;
    if rest != {} {
      var n := Greatest(rest);
      m := if n < x then x else n;
    }
  }

  lemma {:induction false} MaximumExists(s: set<nat>)
    requires s != {}
    ensures exists m :: m in s && forall y | y in s :: y <= m
  {
    var m := Greatest(s);
  }

  /** The greatest member of a non-empty set. */
  function MaxOf(s: set<nat>): (m: nat)
    requires s != {}
    ensures m in s && forall y | y in s :: y <= m
  {
    MaximumExists(s);
    var m :| m in s && forall y | y in s :: y <= m;
    m
  }

  /** Members that are bounded by members of a subset do not move the maximum. */
  lemma {:induction false} MaxOfBounded(s: set<nat>, t: set<nat>)
    requires s != {} && s <= t
    requires forall y | y in t :: y <= MaxOf(s)
    ensures MaxOf(t) == MaxOf(s)
  {
    assert MaxOf(s) in t;
  }
}
