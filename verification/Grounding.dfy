/** Snapping a citation to the allowed evidence on its page. */
module Grounding {
  import opened Corpus
  import opened Geometry

  datatype Grounded = On(citation: Provenance) | PageNotAllowed | BoxNotAllowed

  predicate SamePage(a: Provenance, b: Provenance) {
    a.document == b.document && a.page == b.page
  }

  function MatchingPage(citation: Provenance, candidates: seq<Provenance>): seq<Provenance> {
    if candidates == [] then []
    else
      (if SamePage(candidates[0], citation) then [candidates[0]] else []) + MatchingPage(citation, candidates[1..])
  }

  /** max(candidates, key=...): the first candidate of the greatest overlap. */
  function Best(citation: Provenance, candidates: seq<Provenance>): (best: Provenance)
    requires candidates != []
    ensures best in candidates
  {
    if |candidates| == 1 then candidates[0]
    else
      var rest := Best(citation, candidates[1..]);
      if Iou(citation.box, candidates[0].box) >= Iou(citation.box, rest.box) then candidates[0] else rest
  }

  /** ground_citation. */
  function Ground(citation: Provenance, candidates: seq<Provenance>, minimum: real): Grounded {
    var matching := MatchingPage(citation, candidates);
    if matching == [] then PageNotAllowed
    else
      var best := Best(citation, matching);
      if Iou(citation.box, best.box) < minimum then BoxNotAllowed else On(best)
  }

  lemma {:induction false} MatchingPageHas(citation: Provenance, candidates: seq<Provenance>, c: Provenance)
    ensures c in MatchingPage(citation, candidates) <==> c in candidates && SamePage(c, citation)
  {
    if candidates != [] {
      MatchingPageHas(citation, candidates[1..], c);
      assert c in candidates <==> c == candidates[0] || c in candidates[1..];
    }
  }

  lemma {:induction false} BestIsGreatest(citation: Provenance, candidates: seq<Provenance>, c: Provenance)
    requires c in candidates
    ensures Iou(citation.box, c.box) <= Iou(citation.box, Best(citation, candidates).box)
  {
    if |candidates| > 1 {
      var rest := Best(citation, candidates[1..]);
      if c in candidates[1..] {
        BestIsGreatest(citation, candidates[1..], c);
      } else {
        assert c == candidates[0];
      }
    }
  }

  /** A citation is grounded exactly when some candidate on its page overlaps enough, and then on a
      candidate of its page that no other overlaps more. */
  lemma {:induction false} GroundedOnBest(citation: Provenance, candidates: seq<Provenance>, minimum: real)
    ensures Ground(citation, candidates, minimum).On? <==>
            exists c :: c in candidates && SamePage(c, citation) && Iou(citation.box, c.box) >= minimum
    ensures Ground(citation, candidates, minimum).PageNotAllowed? <==>
              forall c | c in candidates :: !SamePage(c, citation)
    ensures Ground(citation, candidates, minimum).On? ==>
              var best := Ground(citation, candidates, minimum).citation;
              && best in candidates && SamePage(best, citation) && Iou(citation.box, best.box) >= minimum
              && forall c | c in candidates && SamePage(c, citation) ::
                Iou(citation.box, c.box) <= Iou(citation.box, best.box)
  {
    var matching := MatchingPage(citation, candidates);
    forall c ensures c in matching <==> c in candidates && SamePage(c, citation) {
      MatchingPageHas(citation, candidates, c);
    }
    if matching == [] {
      forall c | c in candidates ensures !SamePage(c, citation) {
        assert c !in matching;
      }
    } else {
      assert matching[0] in matching;
      forall c | c in matching ensures Iou(citation.box, c.box) <= Iou(citation.box, Best(citation, matching).box) {
        BestIsGreatest(citation, matching, c);
      }
    }
  }

  /** A citation that is already allowed is left as it is exactly when its box has an area; a degenerate
      box overlaps nothing, itself included, and is refused. */
  lemma {:induction false} AllowedCitationIsFixed(citation: Provenance, candidates: seq<Provenance>, minimum: real)
    requires citation in candidates && 0.0 < minimum <= 1.0
    requires forall c | c in candidates :: Ordered(c.box)
    ensures Ground(citation, candidates, minimum) == On(citation) <==> Area(citation.box) > 0.0
    ensures Ground(citation, candidates, minimum) == BoxNotAllowed <==> Area(citation.box) == 0.0
  {
    var matching := MatchingPage(citation, candidates);
    MatchingPageHas(citation, candidates, citation);
    var best := Best(citation, matching);
    MatchingPageHas(citation, candidates, best);
    BestIsGreatest(citation, matching, citation);
    IouIsNormalised(citation.box, citation.box);
    IouIsNormalised(citation.box, best.box);
    IntersectionFits(citation.box, citation.box);
  }

  /** Grounding what was grounded changes nothing, if it was grounded on a box with an area. */
  lemma {:induction false} GroundingIsIdempotent(citation: Provenance, candidates: seq<Provenance>, minimum: real)
    requires 0.0 < minimum <= 1.0 && forall c | c in candidates :: Ordered(c.box)
    requires Ground(citation, candidates, minimum).On? && Area(Ground(citation, candidates, minimum).citation.box) > 0.0
    ensures Ground(Ground(citation, candidates, minimum).citation, candidates, minimum) ==
              Ground(citation, candidates, minimum)
  {
    GroundedOnBest(citation, candidates, minimum);
    AllowedCitationIsFixed(Ground(citation, candidates, minimum).citation, candidates, minimum);
  }
}
