/** What each answer about a file is worth to its score and to its verdict, in points. */
module ScoreTheorems {
  import opened Prelude
  import opened Heuristics
  import opened StaticAnalysis

  // ----- The structure of a PE file

  /** What each finding adds: 40 for a section that can be read, written and executed, 25 for one of
      high entropy, and 20 for less than three imports. A known packer makes the entropy worth 30
      more and the imports 10 less. */
  lemma FindingsInPoints(file: Bytes, pe: Pe, entropy: Bytes -> real)
    ensures var r := ReportOf(file, pe, entropy);
            && r.packer == pe.packer
            && (r.hasRwx <==> exists s :: s in pe.sections && s.characteristics & 0xE000_0000 == 0xE000_0000)
            && (r.highEntropy <==>
                exists s :: s in pe.sections && s.start < |file| && s.start + s.size <= |file|
                  && entropy(file[s.start..s.start + s.size]) > 7.2)
            && r.score == (if r.hasRwx then 40 else 0)
                          + (if !r.highEntropy then 0 else if pe.packer.Some? then 55 else 25)
                          + (if pe.imports >= 3 then 0 else if pe.packer.Some? then 10 else 20)
  {
    assert AnyRwx(pe.sections) <==> exists s :: s in pe.sections && IsRwx(s);
    assert AnyHighEntropy(file, pe.sections, entropy)
        <==> exists s :: s in pe.sections && HighEntropy(file, s, entropy);
  }

  /** Naming a packer can excuse a file: it lowers the score exactly if the imports are hidden and no
      section has a high entropy. */
  lemma PackerExcusesIff(file: Bytes, pe: Pe, name: string, entropy: Bytes -> real)
    ensures var (packed, plain) := (ReportOf(file, pe.(packer := Some(name)), entropy),
                                    ReportOf(file, pe.(packer := None), entropy));
            && (packed.score < plain.score <==> pe.imports < 3 && !plain.highEntropy)
            && plain.score - 10 <= packed.score <= plain.score + 30
  {
    var packed, plain := pe.(packer := Some(name)), pe.(packer := None);
    FindingsInPoints(file, packed, entropy);
    FindingsInPoints(file, plain, entropy);
  }

  // ----- The score

  /** The signature database's word on a file: its number if the file's MD5 is known to it, or 0. */
  function Word(inp: Inputs): int {
    if inp.md5.Some? && inp.record.Some? && inp.record.value.isMd5 then inp.record.value.verdict as int else 0
  }

  function CertificatePoints(c: Certificate): int {
    if !c.isSigned then 0 else if c.isTrusted then -40 else if c.isRevoked then 100 else 5
  }

  predicate MlSpeaks(inp: Inputs) { inp.mlEngine && inp.pe.Some? && inp.mlProbability > 0.9 }

  /** What the model and the structure add, which are asked last. */
  function LatePoints(inp: Inputs): int {
    match inp.pe
    case None => 0
    case Some(pe) => (if MlSpeaks(inp) then 40 else 0) + ReportOf(inp.file, pe, inp.entropy).score
  }

  /** The signature's word and the certificate, as a 32-bit sum: forgiving a file whose signature says
      almost -2^31 wraps around. */
  function EarlySum(inp: Inputs): int {
    var sum := Word(inp) + CertificatePoints(inp.certificate);
    if sum < -0x8000_0000 then sum + 0x1_0000_0000 else sum
  }

  /** The whole score in points: a known file over 80 is asked nothing more, nor is one that its
      certificate takes over 80; everything else is asked all. It is allowed up to 80. */
  lemma ScoreInPoints(inp: Inputs)
    ensures var ((d, allow), score) := (Analyze(inp), Points(inp));
            d.threatScore as int == score && (allow <==> score <= 80)
  {
    var (d0, o0) := SignatureStage(EMPTY, inp);
    assert d0.threatScore as int == Word(inp) && (o0 == Block <==> Word(inp) > 80);
    if o0 == Continue {
      var (d1, o1) := AuthenticodeStage(d0, inp);
      assert d1.threatScore as int == EarlySum(inp) && (o1 == Block <==> EarlySum(inp) > 80);
      if o1 == Continue {
        assert Analyze(inp) == StagesFrom(2, d1, inp);
        LateInPoints(d1, inp);
      }
    }
  }

  function Points(inp: Inputs): int {
    if Word(inp) > 80 then Word(inp)
    else if EarlySum(inp) > 80 then EarlySum(inp)
    else EarlySum(inp) + LatePoints(inp)
  }

  lemma LateInPoints(d: Details, inp: Inputs)
    requires d.threatScore as int <= 80
    ensures var (e, allow) := StagesFrom(2, d, inp);
            e.threatScore as int == d.threatScore as int + LatePoints(inp) && (allow <==> e.threatScore as int <= 80)
  {
    var (d2, _) := MlStage(d, inp);
    assert StagesFrom(3, d2, inp).0 == HeuristicStage(d2, inp).0;
    if inp.pe.Some? {
      ScoreRange(inp.file, inp.pe.value, inp.entropy);
    }
    hide ReportOf;
  }

  // ----- The certificate

  /** All four stages look at the file, whichever certificate it has of the two. */
  predicate AllLook(inp: Inputs, c: Certificate) {
    Word(inp) <= 80 && EarlySum(inp.(certificate := c)) <= 80 && !Wraps(inp)
  }

  /** Forgiving this file would wrap around. */
  predicate Wraps(inp: Inputs) { Word(inp) < -0x8000_0000 + 40 }

  function Scored(inp: Inputs, c: Certificate): int { Analyze(inp.(certificate := c)).0.threatScore as int }

  predicate Allowed(inp: Inputs, c: Certificate) { Analyze(inp.(certificate := c)).1 }

  /** Where all stages look, a trusted certificate is worth -40 points, a revoked one 100, and any
      other 5. */
  lemma CertificateInPoints(inp: Inputs, c: Certificate, unsigned: Certificate)
    requires AllLook(inp, c) && c.isSigned && !unsigned.isSigned
    ensures c.isTrusted ==> Scored(inp, c) == Scored(inp, unsigned) - 40
    ensures !c.isTrusted && c.isRevoked ==> Scored(inp, c) == Scored(inp, unsigned) + 100
    ensures !c.isTrusted && !c.isRevoked ==> Scored(inp, c) == Scored(inp, unsigned) + 5
  {
    ScoreInPoints(inp.(certificate := c));
    ScoreInPoints(inp.(certificate := unsigned));
    hide Analyze;
  }

  /** From the best certificate to the worst: trusted, none, untrusted, revoked. */
  function Rank(c: Certificate): nat {
    if !c.isSigned then 1 else if c.isTrusted then 0 else if c.isRevoked then 3 else 2
  }

  /** A better certificate never blocks a file, ... */
  lemma BetterCertificateHelps(inp: Inputs, better: Certificate, worse: Certificate)
    requires Rank(better) <= Rank(worse) && Allowed(inp, worse) && !Wraps(inp)
    ensures Allowed(inp, better)
  {
    ScoreInPoints(inp.(certificate := better));
    ScoreInPoints(inp.(certificate := worse));
    hide Analyze, ReportOf;
    assert LatePoints(inp.(certificate := better)) == LatePoints(inp.(certificate := worse)) >= 0 by {
      LatePointsRange(inp);
    }
  }

  lemma LatePointsRange(inp: Inputs)
    ensures 0 <= LatePoints(inp) <= 145 && (inp.pe.None? ==> LatePoints(inp) == 0)
  {
    if inp.pe.Some? {
      ScoreRange(inp.file, inp.pe.value, inp.entropy);
    }
    hide ReportOf;
  }

  /** ... exactly unless forgiving the file wraps around: then trust blocks what was allowed without. */
  lemma BetterCertificateHelpsIff(inp: Inputs)
    ensures Wraps(inp) <==> exists better, worse :: Rank(better) <= Rank(worse)
                                                      && Allowed(inp, worse) && !Allowed(inp, better)
  {
    if Wraps(inp) {
      var trusted, unsigned := Certificate(true, true, false, None), Certificate(false, false, false, None);
      ScoreInPoints(inp.(certificate := trusted));
      ScoreInPoints(inp.(certificate := unsigned));
      LatePointsRange(inp.(certificate := unsigned));
      hide Analyze, LatePoints;
      assert Rank(trusted) <= Rank(unsigned) && Allowed(inp, unsigned) && !Allowed(inp, trusted);
    } else {
      forall better, worse | Rank(better) <= Rank(worse) && Allowed(inp, worse)
        ensures Allowed(inp, better)
      {
        BetterCertificateHelps(inp, better, worse);
      }
    }
  }

  // ----- The model

  /** The model adds 40 points exactly if there is an engine, the file is a PE, its probability is
      above 0.9 and neither signature nor certificate has blocked the file; otherwise it changes
      neither score nor verdict. */
  lemma ModelInPoints(inp: Inputs)
    ensures var ((d, allow), (plain, plainAllow)) := (Analyze(inp), Analyze(inp.(mlEngine := false)));
            if inp.mlEngine && inp.pe.Some? && inp.mlProbability > 0.9 && Word(inp) <= 80 && EarlySum(inp) <= 80 then
              d.threatScore as int == plain.threatScore as int + 40 && (allow ==> plainAllow)
            else
              d.threatScore == plain.threatScore && allow == plainAllow
  {
    ScoreInPoints(inp);
    ScoreInPoints(inp.(mlEngine := false));
    hide Analyze, ReportOf;
  }

  // ----- What is recorded

  /** The details name what was found by every stage that looked, and nothing of the others. */
  lemma DetailsInPoints(inp: Inputs)
    ensures var (d, c, known) := (Analyze(inp).0, inp.certificate, Word(inp) > 80);
            && d.md5 == inp.md5
            && (d.signatureMatch.Some? <==> inp.md5.Some? && inp.record.Some? && inp.record.value.isMd5)
            && (d.signatureMatch.Some? ==>
                  var (m, sig) := (d.signatureMatch.value, inp.record.value);
                  m.hash == sig.hash && m.verdictScore == sig.verdict && m.metadata == sig.meta)
            && (d.authenticode.Some? <==> c.isSigned && !known)
            && (d.authenticode.Some? ==>
                  var a := d.authenticode.value;
                  && a.signer == c.signer && a.modifier == CertificatePoints(c)
                  && a.isTrusted == c.isTrusted && a.isRevoked == (c.isRevoked && !c.isTrusted))
  {
    var (d0, o0) := SignatureStage(EMPTY, inp);
    if o0 == Continue {
      var (d1, o1) := AuthenticodeStage(d0, inp);
      if o1 == Continue {
        LateDetails(d1, inp);
      }
    }
  }

  lemma LateDetails(d: Details, inp: Inputs)
    ensures var e := StagesFrom(2, d, inp).0;
            && e.md5 == d.md5 && e.signatureMatch == d.signatureMatch && e.authenticode == d.authenticode
            && (e.heuristics.Some? <==> d.heuristics.Some? || inp.pe.Some?)
            && (inp.pe.Some? ==> e.heuristics == Some(ReportOf(inp.file, inp.pe.value, inp.entropy)))
            && (MlSpeaks(inp) ==> e.ml == Some(MlPrediction(inp.mlProbability, 40)))
            && (!MlSpeaks(inp) ==> e.ml == d.ml)
  {
    var (d2, _) := MlStage(d, inp);
    assert StagesFrom(3, d2, inp).0 == HeuristicStage(d2, inp).0;
    hide ReportOf;
  }

  /** The model's and the structure's findings are recorded exactly if all stages look at the file. */
  lemma LateDetailsInPoints(inp: Inputs)
    ensures var (d, all) := (Analyze(inp).0, Word(inp) <= 80 && EarlySum(inp) <= 80);
            && d.ml == (if all && MlSpeaks(inp) then Some(MlPrediction(inp.mlProbability, 40)) else None)
            && d.heuristics == (if !all || inp.pe.None? then None
                                else Some(ReportOf(inp.file, inp.pe.value, inp.entropy)))
  {
    var (d0, o0) := SignatureStage(EMPTY, inp);
    assert o0 == Block <==> Word(inp) > 80;
    if o0 == Continue {
      var (d1, o1) := AuthenticodeStage(d0, inp);
      assert o1 == Block <==> EarlySum(inp) > 80;
      if o1 == Continue {
        LateDetails(d1, inp);
      }
    }
    hide ReportOf;
  }
}
