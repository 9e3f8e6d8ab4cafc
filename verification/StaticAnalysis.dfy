/** The score of a PE file's structure. */
module Heuristics {
  import opened Prelude

  const KNOWN_PACKER_SCORE: int := 30
  const ENTROPY_SCORE: int := 25
  const RWX_SCORE: int := 40
  const HIDDEN_IMPORTS_SCORE: int := 20
  const ENTROPY_THRESHOLD: real := 7.2
  const RWX: bv32 := 0xE000_0000

  type Bytes = seq<bv8>

  datatype Section = Section(start: nat, size: nat, characteristics: bv32)

  /** What the parser and the packer engine say of a file. */
  datatype Pe = Pe(sections: seq<Section>, imports: nat, packer: Option<string>)

  datatype Report = Report(packer: Option<string>, hasRwx: bool, highEntropy: bool, score: int)

  predicate HighEntropy(file: Bytes, s: Section, entropy: Bytes -> real) {
    s.start < |file| && s.start + s.size <= |file| && entropy(file[s.start..s.start + s.size]) > ENTROPY_THRESHOLD
  }

  predicate IsRwx(s: Section) { s.characteristics & RWX == RWX }

  predicate AnyHighEntropy(file: Bytes, sections: seq<Section>, entropy: Bytes -> real) {
    exists s :: s in sections && HighEntropy(file, s, entropy)
  }

  predicate AnyRwx(sections: seq<Section>) { exists s :: s in sections && IsRwx(s) }

  lemma AnyOfNext(file: Bytes, sections: seq<Section>, i: nat, entropy: Bytes -> real)
    requires i < |sections|
    ensures AnyHighEntropy(file, sections[..i + 1], entropy)
            <==> AnyHighEntropy(file, sections[..i], entropy) || HighEntropy(file, sections[i], entropy)
    ensures AnyRwx(sections[..i + 1]) <==> AnyRwx(sections[..i]) || IsRwx(sections[i])
  {
    assert forall s :: s in sections[..i + 1] <==> s in sections[..i] || s == sections[i];
  }

  /** The score as a function of what was found, however often and in whatever order. */
  function Score(packed: bool, highEntropy: bool, rwx: bool, imports: nat): int {
    (if highEntropy then ENTROPY_SCORE + (if packed then KNOWN_PACKER_SCORE else 0) else 0)
    + (if rwx then RWX_SCORE else 0)
    + (if imports < 3 then HIDDEN_IMPORTS_SCORE - (if packed then 10 else 0) else 0)
  }

  function ReportOf(file: Bytes, pe: Pe, entropy: Bytes -> real): Report {
    var high := AnyHighEntropy(file, pe.sections, entropy);
    var rwx := AnyRwx(pe.sections);
    Report(pe.packer, rwx, high, Score(pe.packer.Some?, high, rwx, pe.imports))
  }

  method AnalyzePe(file: Bytes, pe: Pe, entropy: Bytes -> real) returns (report: Report)
    ensures report == ReportOf(file, pe, entropy)
    ensures report.packer == pe.packer
    ensures report.hasRwx <==> exists s :: s in pe.sections && s.characteristics & 0xE000_0000 == 0xE000_0000
    ensures report.highEntropy <==>
            exists s :: s in pe.sections && s.start < |file| && s.start + s.size <= |file|
              && entropy(file[s.start..s.start + s.size]) > 7.2
    ensures report.score == (if report.hasRwx then 40 else 0)
                            + (if !report.highEntropy then 0 else if pe.packer.Some? then 55 else 25)
                            + (if pe.imports >= 3 then 0 else if pe.packer.Some? then 10 else 20)
  {
    var packed := pe.packer.Some?;
    var highEntropy, hasRwx, addedEntropy, addedRwx := false, false, false, false;
    var score := 0;
    for i := 0 to |pe.sections|
      invariant highEntropy == addedEntropy == AnyHighEntropy(file, pe.sections[..i], entropy)
      invariant hasRwx == addedRwx == AnyRwx(pe.sections[..i])
      invariant score == Score(packed, highEntropy, hasRwx, 3)
    {
      var section := pe.sections[i];
      AnyOfNext(file, pe.sections, i, entropy);
      if section.start < |file| && section.start + section.size <= |file| {
        if entropy(file[section.start..section.start + section.size]) > ENTROPY_THRESHOLD {
          highEntropy := true;
          if !addedEntropy {
            if packed {
              score := score + KNOWN_PACKER_SCORE;
            }
            score := score + ENTROPY_SCORE;
            addedEntropy := true;
          }
        }
      }
      if section.characteristics & RWX == RWX {
        hasRwx := true;
        if !addedRwx {
          addedRwx := true;
          score := score + RWX_SCORE;
        }
      }
    }
    assert pe.sections[..|pe.sections|] == pe.sections;
    if pe.imports != 0 {
      if pe.imports < 3 {
        score := score + if packed then HIDDEN_IMPORTS_SCORE - 10 else HIDDEN_IMPORTS_SCORE;
      }
    } else {
      score := score + if packed then HIDDEN_IMPORTS_SCORE - 10 else HIDDEN_IMPORTS_SCORE;
    }
    report := Report(pe.packer, hasRwx, highEntropy, score);
  }

  /** The score lies between 0 and 105, and reaches 105 exactly for a packed file with everything
      against it. */
  lemma ScoreRange(file: Bytes, pe: Pe, entropy: Bytes -> real)
    ensures var r := ReportOf(file, pe, entropy);
            && 0 <= r.score <= 105
            && (r.score == 105 <==> r.packer.Some? && r.highEntropy && r.hasRwx && pe.imports < 3)
            && (r.score == 0 <==> !r.highEntropy && !r.hasRwx && pe.imports >= 3)
  {
    var r := ReportOf(file, pe, entropy);
    if r.packer.Some? {
      assert r.score == Score(true, r.highEntropy, r.hasRwx, pe.imports);
    }
  }

  /** Permuting or repeating sections changes nothing. */
  lemma SectionsAreASet(file: Bytes, pe: Pe, sections: seq<Section>, entropy: Bytes -> real)
    requires forall s :: s in sections <==> s in pe.sections
    ensures ReportOf(file, pe, entropy) == ReportOf(file, pe.(sections := sections), entropy)
  {
  }
}

/** The staged scorer: four stages add to a threat score until one of them blocks. */
module StaticAnalysis {
  import opened Prelude
  import opened Heuristics

  const BLOCK_THRESHOLD: int := 80
  const SUSPICIOUS_THRESHOLD: int := 50
  const CODE_SIGN_FORGIVENESS: int := -40
  const CODE_SIGN_UNTRUSTED: int := 5
  const CODE_SIGN_REVOKED: int := 100
  const ML_MALICIOUS: int := 40
  const ML_CERTAINTY: real := 0.9

  newtype i32 = x: int | -0x8000_0000 <= x < 0x8000_0000

  /** 32-bit addition, which wraps. */
  function Add(a: i32, b: int): (c: i32)
    ensures -0x8000_0000 <= a as int + b < 0x8000_0000 ==> c as int == a as int + b
    ensures (c as int - a as int - b) % 0x1_0000_0000 == 0
  {
    var sum := a as int + b;
    ((sum + 0x8000_0000) % 0x1_0000_0000 - 0x8000_0000) as i32
  }

  datatype SignatureRecord = SignatureRecord(hash: string, isMd5: bool, verdict: i32, meta: string)

  datatype Certificate = Certificate(isSigned: bool, isTrusted: bool, isRevoked: bool, signer: Option<string>)

  /** Everything the stages ask of the world about one file. */
  datatype Inputs = Inputs(
    md5: Option<string>, record: Option<SignatureRecord>, certificate: Certificate,
    mlEngine: bool, mlProbability: real, file: Bytes, pe: Option<Pe>, entropy: Bytes -> real)

  datatype SignatureMatch = SignatureMatch(hash: string, verdictScore: i32, metadata: string)
  datatype Authenticode = Authenticode(isTrusted: bool, isRevoked: bool, signer: Option<string>, modifier: int)
  datatype MlPrediction = MlPrediction(probability: real, modifier: int)

  datatype Details = Details(
    threatScore: i32, md5: Option<string>, signatureMatch: Option<SignatureMatch>,
    authenticode: Option<Authenticode>, heuristics: Option<Report>, ml: Option<MlPrediction>)

  const EMPTY: Details := Details(0, None, None, None, None, None)

  datatype Outcome = Continue | Block

  predicate Over(score: i32) { score as int > BLOCK_THRESHOLD }

  function Check(d: Details): (Details, Outcome) { (d, if Over(d.threatScore) then Block else Continue) }

  // ----- The stages, as functions of the details so far

  function SignatureStage(d: Details, inp: Inputs): (Details, Outcome) {
    if inp.md5.None? then (d, Continue)
    else
      var d := d.(md5 := inp.md5);
      match inp.record
      case Some(sig) =>
        if sig.isMd5 then
          Check(d.(signatureMatch := Some(SignatureMatch(sig.hash, sig.verdict, sig.meta)),
                   threatScore := Add(d.threatScore, sig.verdict as int)))
        else (d, Continue)
      case None => (d, Continue)
  }

  function CertificateModifier(c: Certificate): int {
    if c.isTrusted then CODE_SIGN_FORGIVENESS else if c.isRevoked then CODE_SIGN_REVOKED else CODE_SIGN_UNTRUSTED
  }

  function AuthenticodeStage(d: Details, inp: Inputs): (Details, Outcome) {
    var c := inp.certificate;
    if c.isSigned then
      var m := CertificateModifier(c);
      Check(d.(threatScore := Add(d.threatScore, m),
               authenticode := Some(Authenticode(c.isTrusted, !c.isTrusted && c.isRevoked, c.signer, m))))
    else Check(d)
  }

  /** The only stage that may add to the score without looking at the threshold. */
  function MlStage(d: Details, inp: Inputs): (Details, Outcome) {
    if inp.mlEngine && inp.pe.Some? && inp.mlProbability > ML_CERTAINTY then
      (d.(threatScore := Add(d.threatScore, ML_MALICIOUS),
          ml := Some(MlPrediction(inp.mlProbability, ML_MALICIOUS))), Continue)
    else (d, Continue)
  }

  function HeuristicStage(d: Details, inp: Inputs): (Details, Outcome) {
    match inp.pe
    case None => (d, Continue)
    case Some(pe) =>
      var report := ReportOf(inp.file, pe, inp.entropy);
      Check(d.(threatScore := Add(d.threatScore, report.score), heuristics := Some(report)))
  }

  const STAGES: nat := 4

  function Stage(k: nat, d: Details, inp: Inputs): (Details, Outcome)
    requires k < STAGES
  {
    match k
    case 0 => SignatureStage(d, inp)
    case 1 => AuthenticodeStage(d, inp)
    case 2 => MlStage(d, inp)
    case 3 => HeuristicStage(d, inp)
  }

  /** The stages from the `k`th on, with early exit: the details, and whether none blocked. */
  function StagesFrom(k: nat, d: Details, inp: Inputs): (Details, bool)
    requires k <= STAGES
    decreases STAGES - k
  {
    if k == STAGES then (d, true)
    else
      match Stage(k, d, inp)
      case (d', Block) => (d', false)
      case (d', Continue) => StagesFrom(k + 1, d', inp)
  }

  function Analyze(inp: Inputs): (Details, bool) { StagesFrom(0, EMPTY, inp) }

  // ----- The stages carried out on the result record

  class Analysis {
    var threatScore: i32
    var md5: Option<string>
    var signatureMatch: Option<SignatureMatch>
    var authenticode: Option<Authenticode>
    var heuristics: Option<Report>
    var ml: Option<MlPrediction>
    var verdictAllow: bool

    ghost function View(): Details reads this {
      Details(threatScore, md5, signatureMatch, authenticode, heuristics, ml)
    }

    constructor ()
      ensures View() == EMPTY && verdictAllow
    {
      threatScore, md5, signatureMatch := 0, None, None;
      authenticode, heuristics, ml, verdictAllow := None, None, None, true;
    }

    method CheckSignature(inp: Inputs) returns (outcome: Outcome)
      modifies this
      ensures (View(), outcome) == SignatureStage(old(View()), inp) && verdictAllow == old(verdictAllow)
    {
      outcome := Continue;
      if inp.md5.Some? {
        md5 := inp.md5;
        if inp.record.Some? && inp.record.value.isMd5 {
          var sig := inp.record.value;
          signatureMatch := Some(SignatureMatch(sig.hash, sig.verdict, sig.meta));
          threatScore := Add(threatScore, sig.verdict as int);
          if threatScore as int > BLOCK_THRESHOLD {
            outcome := Block;
          }
        }
      }
    }

    method CheckAuthenticode(inp: Inputs) returns (outcome: Outcome)
      modifies this
      ensures (View(), outcome) == AuthenticodeStage(old(View()), inp) && verdictAllow == old(verdictAllow)
      ensures var c := inp.certificate;
              threatScore == if !c.isSigned then old(threatScore)
                             else Add(old(threatScore), if c.isTrusted then -40 else if c.isRevoked then 100 else 5)
      ensures outcome == Block <==> threatScore as int > 80
    {
      var sig := inp.certificate;
      if sig.isSigned {
        if sig.isTrusted {
          threatScore := Add(threatScore, CODE_SIGN_FORGIVENESS);
          authenticode := Some(Authenticode(true, false, sig.signer, CODE_SIGN_FORGIVENESS));
        } else if sig.isRevoked {
          threatScore := Add(threatScore, CODE_SIGN_REVOKED);
          authenticode := Some(Authenticode(false, true, sig.signer, CODE_SIGN_REVOKED));
        } else {
          threatScore := Add(threatScore, CODE_SIGN_UNTRUSTED);
          authenticode := Some(Authenticode(false, false, sig.signer, CODE_SIGN_UNTRUSTED));
        }
      }
      outcome := if threatScore as int > BLOCK_THRESHOLD then Block else Continue;
    }

    method CheckMl(inp: Inputs) returns (outcome: Outcome)
      modifies this
      ensures (View(), outcome) == MlStage(old(View()), inp) && verdictAllow == old(verdictAllow)
      ensures threatScore == if inp.mlEngine && inp.pe.Some? && inp.mlProbability > 0.9
                             then Add(old(threatScore), 40) else old(threatScore)
    {
      outcome := Continue;
      if !inp.mlEngine || inp.pe.None? {
        return;
      }
      if inp.mlProbability > ML_CERTAINTY {
        threatScore := Add(threatScore, ML_MALICIOUS);
        ml := Some(MlPrediction(inp.mlProbability, ML_MALICIOUS));
      }
    }

    method CheckHeuristics(inp: Inputs) returns (outcome: Outcome)
      modifies this
      ensures (View(), outcome) == HeuristicStage(old(View()), inp) && verdictAllow == old(verdictAllow)
    {
      outcome := Continue;
      if inp.pe.None? {
        return;
      }
      var report := AnalyzePe(inp.file, inp.pe.value, inp.entropy);
      threatScore := Add(threatScore, report.score);
      heuristics := Some(report);
      if threatScore as int > BLOCK_THRESHOLD {
        outcome := Block;
      }
    }

    /** The loop of `analyze_event` over its stages. */
    method RunStages(inp: Inputs)
      requires View() == EMPTY && verdictAllow
      modifies this
      ensures (View(), verdictAllow) == Analyze(inp)
    {
      var k := 0;
      while k < STAGES
        invariant k <= STAGES
        invariant verdictAllow && StagesFrom(k, View(), inp) == Analyze(inp)
      {
        var outcome;
        match k {
          case 0 => outcome := CheckSignature(inp);
          case 1 => outcome := CheckAuthenticode(inp);
          case 2 => outcome := CheckMl(inp);
          case _ => outcome := CheckHeuristics(inp);
        }
        if outcome == Block {
          verdictAllow := false;
          return;
        }
        k := k + 1;
      }
    }
  }

  // ----- The verdict and the score

  /** The verdict later recomputed from a cached score is the fresh one, for every file and every
      signature score: no path ends over the threshold without having blocked, although the ML
      stage adds without checking. */
  lemma CachedVerdictIsFresh(inp: Inputs)
    ensures var (d, allow) := Analyze(inp); allow <==> !Over(d.threatScore)
  {
    var (d0, o0) := SignatureStage(EMPTY, inp);
    if o0 == Continue {
      var (d1, o1) := AuthenticodeStage(d0, inp);
      if o1 == Continue {
        AfterAuthenticode(d1, inp);
      }
    }
  }

  /** Where the ML stage can score, the heuristic stage runs after it and checks. */
  lemma AfterAuthenticode(d: Details, inp: Inputs)
    requires !Over(d.threatScore)
    ensures var (e, allow) := StagesFrom(2, d, inp); allow <==> !Over(e.threatScore)
  {
    var (d2, _) := MlStage(d, inp);
    assert inp.pe.None? ==> d2 == d;
    var (d3, _) := HeuristicStage(d2, inp);
    assert StagesFrom(3, d2, inp).0 == d3;
  }

  /** The modifiers recorded in the details. */
  function Recorded(d: Details): int {
    (match d.signatureMatch case Some(m) => m.verdictScore as int case None => 0)
    + (match d.authenticode case Some(a) => a.modifier case None => 0)
    + (match d.ml case Some(m) => m.modifier case None => 0)
    + (match d.heuristics case Some(h) => h.score case None => 0)
  }

  /** The stages from the `k`th on have left nothing yet, and the score is the sum on 32 bits. */
  ghost predicate Accounted(k: nat, d: Details) {
    && (k <= 0 ==> d.signatureMatch.None?) && (k <= 1 ==> d.authenticode.None?)
    && (k <= 2 ==> d.ml.None?) && (k <= 3 ==> d.heuristics.None?)
    && (d.threatScore as int - Recorded(d)) % 0x1_0000_0000 == 0
  }

  lemma AddKeepsSum(a: i32, sum: int, b: int)
    requires (a as int - sum) % 0x1_0000_0000 == 0
    ensures (Add(a, b) as int - (sum + b)) % 0x1_0000_0000 == 0
  {
    var c := Add(a, b) as int;
    assert c - (sum + b) == (c - a as int - b) + (a as int - sum);
  }

  lemma StageAccounts(k: nat, d: Details, inp: Inputs)
    requires k < STAGES && Accounted(k, d)
    ensures Accounted(k + 1, Stage(k, d, inp).0)
  {
    var d' := Stage(k, d, inp).0;
    AddKeepsSum(d.threatScore, Recorded(d), Recorded(d') - Recorded(d));
  }

  /** The score is the sum of the recorded modifiers, on 32 bits, wherever the stages stop. */
  lemma {:induction false} ScoreIsSum(k: nat, d: Details, inp: Inputs)
    requires k <= STAGES && Accounted(k, d)
    ensures var e := StagesFrom(k, d, inp).0; (e.threatScore as int - Recorded(e)) % 0x1_0000_0000 == 0
    decreases STAGES - k
  {
    hide Stage, Recorded;
    if k < STAGES {
      StageAccounts(k, d, inp);
      if Stage(k, d, inp).1 == Continue {
        ScoreIsSum(k + 1, Stage(k, d, inp).0, inp);
      }
    }
  }

  /** Each modifier is small, so their sum does not come near 32 bits. */
  ghost predicate Small(d: Details) {
    && (d.signatureMatch.Some? ==> 0 <= d.signatureMatch.value.verdictScore <= 100)
    && (d.authenticode.Some? ==> -40 <= d.authenticode.value.modifier <= 100)
    && (d.ml.Some? ==> d.ml.value.modifier == ML_MALICIOUS)
    && (d.heuristics.Some? ==> 0 <= d.heuristics.value.score <= 105)
  }

  ghost predicate Documented(inp: Inputs) { inp.record.Some? ==> 0 <= inp.record.value.verdict <= 100 }

  lemma EarlyStageIsSmall(d: Details, inp: Inputs)
    requires Small(d) && Documented(inp)
    ensures Small(SignatureStage(d, inp).0) && Small(AuthenticodeStage(d, inp).0)
  {
  }

  lemma LateStageIsSmall(d: Details, inp: Inputs)
    requires Small(d)
    ensures Small(MlStage(d, inp).0) && Small(HeuristicStage(d, inp).0)
  {
    if inp.pe.Some? {
      ScoreRange(inp.file, inp.pe.value, inp.entropy);
    }
    hide ReportOf;
  }

  lemma StageIsSmall(k: nat, d: Details, inp: Inputs)
    requires k < STAGES && Small(d) && Documented(inp)
    ensures Small(Stage(k, d, inp).0)
  {
    EarlyStageIsSmall(d, inp);
    LateStageIsSmall(d, inp);
    hide SignatureStage, AuthenticodeStage, MlStage, HeuristicStage, Small;
  }

  lemma {:induction false} ModifiersAreSmall(k: nat, d: Details, inp: Inputs)
    requires k <= STAGES && Small(d) && Documented(inp)
    ensures Small(StagesFrom(k, d, inp).0)
    decreases STAGES - k
  {
    hide Stage, Small;
    if k < STAGES {
      StageIsSmall(k, d, inp);
      if Stage(k, d, inp).1 == Continue {
        ModifiersAreSmall(k + 1, Stage(k, d, inp).0, inp);
      }
    }
  }

  /** With signature scores between 0 and 100, as the database documents them, the sum is exact and
      lies between -40 and 225. */
  lemma ScoreAccounting(inp: Inputs)
    requires Documented(inp)
    ensures var d := Analyze(inp).0; d.threatScore as int == Recorded(d) && -40 <= d.threatScore as int <= 225
  {
    hide StagesFrom;
    ScoreIsSum(0, EMPTY, inp);
    ModifiersAreSmall(0, EMPTY, inp);
    ScoreInRange(inp);
    SumIsExact(Analyze(inp).0);
  }

  lemma SumIsExact(d: Details)
    requires Small(d) && -40 <= d.threatScore as int <= 225
    requires (d.threatScore as int - Recorded(d)) % 0x1_0000_0000 == 0
    ensures d.threatScore as int == Recorded(d)
  {
    assert -40 <= Recorded(d) <= 345;
  }

  lemma ScoreInRange(inp: Inputs)
    requires Documented(inp)
    ensures -40 <= Analyze(inp).0.threatScore as int <= 225
  {
    var (d0, o0) := SignatureStage(EMPTY, inp);
    if o0 == Continue {
      var (d1, o1) := AuthenticodeStage(d0, inp);
      if o1 == Continue {
        LateScoreInRange(d1, inp);
      }
    }
    hide ReportOf;
  }

  lemma LateScoreInRange(d: Details, inp: Inputs)
    requires -40 <= d.threatScore as int <= 80
    ensures -40 <= StagesFrom(2, d, inp).0.threatScore as int <= 225
  {
    var (d2, _) := MlStage(d, inp);
    assert StagesFrom(3, d2, inp).0 == HeuristicStage(d2, inp).0;
    if inp.pe.Some? {
      ScoreRange(inp.file, inp.pe.value, inp.entropy);
    }
  }

  // ----- The summary

  datatype FileVerdict = Benign | Suspicious | Malicious

  function Summarize(score: i32): FileVerdict {
    if score as int >= BLOCK_THRESHOLD then Malicious
    else if score as int >= SUSPICIOUS_THRESHOLD then Suspicious
    else Benign
  }

  /** The summary calls a file malicious that was allowed exactly if it scored the threshold. */
  lemma SummaryAgreesExceptAtThreshold(inp: Inputs)
    ensures var (d, allow) := Analyze(inp);
            && ((Summarize(d.threatScore) == Malicious <==> !allow) <==> d.threatScore as int != 80)
            && (Summarize(d.threatScore) == Suspicious <==> 50 <= d.threatScore as int < 80)
  {
    CachedVerdictIsFresh(inp);
  }
}
