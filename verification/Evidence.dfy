/** Retrieval hits and the test whether they carry enough evidence to answer. */
module Evidence {
  import opened Wrappers

  type NonEmpty = s: string | s != "" witness "x"

  datatype Mode = Lexical | Vector | Hybrid | HybridRerank

  datatype Citation = Citation(document: nat, version: nat, section: string)

  /** Scores are rationals; a missing score means the chunk was not in that ranking. */
  datatype Hit = Hit(chunk: nat, content: NonEmpty, citation: Citation, lexical: Option<real>, vector: Option<real>,
                     fused: real, rerank: Option<real>)

  predicate UsesLexical(mode: Mode) {
    mode != Vector
  }

  predicate UsesVector(mode: Mode) {
    mode != Lexical
  }

  /** `score or 0`, `score or -1`: a zero counts as missing. */
  function ScoreOr(score: Option<real>, missing: real): real {
    if score.None? || score.value == 0.0 then missing else score.value
  }

  predicate HasEvidence(hits: seq<Hit>, mode: Mode, minLexical: real, minVector: real) {
    && hits != []
    && ((UsesLexical(mode) && exists h :: h in hits && ScoreOr(h.lexical, 0.0) >= minLexical)
        || (UsesVector(mode) && exists h :: h in hits && ScoreOr(h.vector, -1.0) >= minVector))
  }

  // ----- What the scores decide -----

  /** A lexical score that is not zero and reaches the minimum, and none that counts below a positive one. */
  ghost predicate StrongLexical(hits: seq<Hit>, minimum: real) {
    exists h :: h in hits && h.lexical.Some? && h.lexical.value != 0.0 && h.lexical.value >= minimum
  }

  ghost predicate WeakLexical(hits: seq<Hit>, minimum: real) {
    minimum > 0.0 && forall h :: h in hits && h.lexical.Some? ==> h.lexical.value < minimum
  }

  ghost predicate StrongVector(hits: seq<Hit>, minimum: real) {
    exists h :: h in hits && h.vector.Some? && h.vector.value != 0.0 && h.vector.value >= minimum
  }

  ghost predicate WeakVector(hits: seq<Hit>, minimum: real) {
    minimum > 0.0 && forall h :: h in hits && h.vector.Some? ==> h.vector.value < minimum
  }

  /** One strong score that the mode uses is enough; no hits, or weak scores only, are not. */
  ghost predicate DecidedByScores(hits: seq<Hit>, mode: Mode, minLexical: real, minVector: real, enough: bool) {
    && (mode != Vector && StrongLexical(hits, minLexical) ==> enough)
    && (mode != Lexical && StrongVector(hits, minVector) ==> enough)
    && (hits == [] ==> !enough)
    && ((mode == Vector || WeakLexical(hits, minLexical)) && (mode == Lexical || WeakVector(hits, minVector)) ==>
          !enough)
  }

  lemma EvidenceIsDecided(hits: seq<Hit>, mode: Mode, minLexical: real, minVector: real)
    ensures DecidedByScores(hits, mode, minLexical, minVector, HasEvidence(hits, mode, minLexical, minVector))
  {
    if mode != Vector && StrongLexical(hits, minLexical) {
      var h :| h in hits && h.lexical.Some? && h.lexical.value != 0.0 && h.lexical.value >= minLexical;
      assert ScoreOr(h.lexical, 0.0) >= minLexical;
    }
    if mode != Lexical && StrongVector(hits, minVector) {
      var h :| h in hits && h.vector.Some? && h.vector.value != 0.0 && h.vector.value >= minVector;
      assert ScoreOr(h.vector, -1.0) >= minVector;
    }
  }

  /** For any minimum: a missing score counts as 0 in the lexical and as -1 in the vector ranking, and so
      does a score of zero. */
  ghost predicate Suffices(h: Hit, mode: Mode, minLexical: real, minVector: real) {
    || (mode != Vector && (if h.lexical.Some? then h.lexical.value else 0.0) >= minLexical)
    || (mode != Lexical && (if h.vector.Some? && h.vector.value != 0.0 then h.vector.value else -1.0) >= minVector)
  }

  lemma EvidenceMeaning(hits: seq<Hit>, mode: Mode, minLexical: real, minVector: real)
    ensures HasEvidence(hits, mode, minLexical, minVector)
       <==> exists h :: h in hits && Suffices(h, mode, minLexical, minVector)
  {
    if exists h :: h in hits && Suffices(h, mode, minLexical, minVector) {
      var h :| h in hits && Suffices(h, mode, minLexical, minVector);
      assert ScoreOr(h.lexical, 0.0) == if h.lexical.Some? then h.lexical.value else 0.0;
      assert ScoreOr(h.vector, -1.0) == if h.vector.Some? && h.vector.value != 0.0 then h.vector.value else -1.0;
    }
    forall h | h in hits && !Suffices(h, mode, minLexical, minVector)
      ensures mode != Vector ==> ScoreOr(h.lexical, 0.0) < minLexical
      ensures mode != Lexical ==> ScoreOr(h.vector, -1.0) < minVector
    {
    }
  }

  /** The same hits with scores that are nowhere lower. */
  ghost predicate Raised(hits: seq<Hit>, raised: seq<Hit>) {
    && |hits| == |raised|
    && forall i :: 0 <= i < |hits| ==>
         && (hits[i].lexical.Some? <==> raised[i].lexical.Some?)
         && (hits[i].lexical.Some? ==> hits[i].lexical.value <= raised[i].lexical.value)
         && (hits[i].vector.Some? <==> raised[i].vector.Some?)
         && (hits[i].vector.Some? ==> hits[i].vector.value <= raised[i].vector.value)
  }

  /** Can raising scores turn enough into not enough? */
  ghost predicate RaisingIsSafe(mode: Mode, minLexical: real, minVector: real) {
    forall hits, raised :: Raised(hits, raised) && HasEvidence(hits, mode, minLexical, minVector) ==>
      HasEvidence(raised, mode, minLexical, minVector)
  }

  lemma RaisingKeepsEvidence(hits: seq<Hit>, raised: seq<Hit>, mode: Mode, minLexical: real, minVector: real)
    requires Raised(hits, raised) && HasEvidence(hits, mode, minLexical, minVector)
    requires mode == Lexical || minVector <= -1.0 || minVector >= 0.0
    ensures HasEvidence(raised, mode, minLexical, minVector)
  {
    EvidenceMeaning(hits, mode, minLexical, minVector);
    EvidenceMeaning(raised, mode, minLexical, minVector);
    var h :| h in hits && Suffices(h, mode, minLexical, minVector);
    var i :| 0 <= i < |hits| && hits[i] == h;
    assert raised[i] in raised && Suffices(raised[i], mode, minLexical, minVector);
  }

  /** A vector score of zero counts as missing, so raising a negative one to zero can cost the evidence:
      exactly if the vector minimum lies between -1 and 0 in a mode that uses vectors. */
  lemma RaisingIsSafeIff(mode: Mode, minLexical: real, minVector: real)
    ensures RaisingIsSafe(mode, minLexical, minVector)
       <==> mode == Lexical || minVector <= -1.0 || minVector >= 0.0
  {
    if mode == Lexical || minVector <= -1.0 || minVector >= 0.0 {
      forall hits, raised | Raised(hits, raised) && HasEvidence(hits, mode, minLexical, minVector)
        ensures HasEvidence(raised, mode, minLexical, minVector)
      {
        RaisingKeepsEvidence(hits, raised, mode, minLexical, minVector);
      }
    } else {
      var low := (if minLexical < 0.0 then minLexical else 0.0) - 1.0;
      var hit := Hit(0, "x", Citation(0, 1, ""), Some(low), Some(minVector), 0.0, None);
      var raised := hit.(vector := Some(0.0));
      EvidenceMeaning([hit], mode, minLexical, minVector);
      EvidenceMeaning([raised], mode, minLexical, minVector);
      assert hit in [hit] && Suffices(hit, mode, minLexical, minVector);
      assert Raised([hit], [raised]);
    }
  }
}
