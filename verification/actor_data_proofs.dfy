/**
 * Properties of the derived-stat engine, stated against an independent
 * description of the formulas: a weight table per mastery and sub-skill,
 * and the mathematical floor characterised by inequalities rather than
 * by Dafny's `/`.
 */
module ActorDataProofs {
  import opened ActorData

  /** An input of a sub-skill formula: a primary value or a mastery value. */
  datatype Source = FromPrimary(p: PrimaryCode) | FromMastery(m: MasteryCode)

  /** `q` is the floor of `num / d`. */
  ghost predicate IsFloorOf(q: int, num: int, d: int) {
    d * q <= num < d * q + d
  }

  // ---------------------------------------------------------------------------
  // The weight tables

  /** Weight of primary `p` in mastery `k`. */
  function MasteryWeight(k: MasteryCode, p: PrimaryCode): nat {
    match k
    case Cor => (match p case Con => 2 case Agi => 2 case Sav => 1 case _ => 0)
    case Esp => (match p case Mag => 2 case Men => 2 case Sav => 1 case _ => 0)
    case Soc => (match p case Sav => 1 case Cha => 4 case _ => 0)
  }

  const MasteryDivisor: nat := 5

  /** Weight of an input in sub-skill `c`. */
  function SkillWeight(c: SkillCode, s: Source): nat {
    match c
    case Pug => (match s case FromPrimary(Con) => 2 case FromMastery(Cor) => 1 case _ => 0)
    case Cac => (match s case FromPrimary(Con) => 1 case FromMastery(Cor) => 2 case _ => 0)
    case Pre => (match s case FromMastery(Esp) => 1 case FromMastery(Cor) => 3 case _ => 0)
    case Esq => (match s case FromMastery(Cor) => 1 case FromPrimary(Agi) => 2 case _ => 0)
    case Par => (match s case FromMastery(Cor) => 1 case _ => 0)
    case Dis => (match s case FromMastery(Soc) => 1 case FromPrimary(Agi) => 2 case _ => 0)
    case Obs => (match s case FromMastery(Soc) => 1 case FromPrimary(Men) => 3 case _ => 0)
    case Per => (match s case FromMastery(Esp) => 1 case FromPrimary(Mag) => 3 case _ => 0)
    case Psy => (match s case FromPrimary(Mag) => 1 case FromPrimary(Men) => 1
                         case FromMastery(Esp) => 2 case _ => 0)
    case Int => (match s case FromPrimary(Con) => 1 case FromMastery(Soc) => 2 case _ => 0)
    case Com => (match s case FromMastery(Soc) => 1 case _ => 0)
    case Aut => (match s case FromMastery(Soc) => 1 case FromPrimary(Cha) => 1 case _ => 0)
    case Med => (match s case FromPrimary(Sav) => 1 case FromMastery(Esp) => 1 case _ => 0)
    case Pil => (match s case FromMastery(Soc) => 1 case FromMastery(Esp) => 1 case _ => 0)
    case Art => (match s case FromMastery(Soc) => 1 case FromMastery(Esp) => 1 case _ => 0)
    case Vit => (match s case FromPrimary(Agi) => 1 case FromMastery(Cor) => 1 case _ => 0)
    case Ins => (match s case FromPrimary(Men) => 1 case FromMastery(Esp) => 1 case _ => 0)
    case SF => (match s case FromPrimary(Sav) => 1 case FromMastery(Esp) => 1 case _ => 0)
    case Reg => (match s case FromPrimary(Con) => 1 case FromMastery(Esp) => 1 case _ => 0)
    case Rec => (match s case FromPrimary(Mag) => 1 case FromMastery(Esp) => 1 case _ => 0)
  }

  /** Divisor of sub-skill `c` (1 for `par` and `com`, which take a mastery as is). */
  function SkillDivisor(c: SkillCode): nat {
    match c
    case Pug => 3 case Cac => 3 case Pre => 4 case Esq => 3 case Par => 1
    case Dis => 3 case Obs => 4 case Per => 4 case Psy => 4 case Int => 3
    case Com => 1 case _ => 2
  }

  function MasteryNumerator(k: MasteryCode, g: GdsStats): int {
    MasteryWeight(k, Con) * g.con.value + MasteryWeight(k, Agi) * g.agi.value
    + MasteryWeight(k, Cha) * g.cha.value + MasteryWeight(k, Sav) * g.sav.value
    + MasteryWeight(k, Mag) * g.mag.value + MasteryWeight(k, Men) * g.men.value
  }

  function SkillNumerator(c: SkillCode, g: GdsStats, m: Maitrises): int {
    SkillWeight(c, FromPrimary(Con)) * g.con.value + SkillWeight(c, FromPrimary(Agi)) * g.agi.value
    + SkillWeight(c, FromPrimary(Cha)) * g.cha.value + SkillWeight(c, FromPrimary(Sav)) * g.sav.value
    + SkillWeight(c, FromPrimary(Mag)) * g.mag.value + SkillWeight(c, FromPrimary(Men)) * g.men.value
    + SkillWeight(c, FromMastery(Cor)) * m.cor.value + SkillWeight(c, FromMastery(Esp)) * m.esp.value
    + SkillWeight(c, FromMastery(Soc)) * m.soc.value
  }

  /** Every formula is a weighted average: its weights add up to its divisor. */
  lemma WeightsSumToDivisor(c: SkillCode, k: MasteryCode)
    ensures SkillWeight(c, FromPrimary(Con)) + SkillWeight(c, FromPrimary(Agi))
            + SkillWeight(c, FromPrimary(Cha)) + SkillWeight(c, FromPrimary(Sav))
            + SkillWeight(c, FromPrimary(Mag)) + SkillWeight(c, FromPrimary(Men))
            + SkillWeight(c, FromMastery(Cor)) + SkillWeight(c, FromMastery(Esp))
            + SkillWeight(c, FromMastery(Soc)) == SkillDivisor(c)
    ensures MasteryWeight(k, Con) + MasteryWeight(k, Agi) + MasteryWeight(k, Cha)
            + MasteryWeight(k, Sav) + MasteryWeight(k, Mag) + MasteryWeight(k, Men)
            == MasteryDivisor
  {
  }

  // ---------------------------------------------------------------------------
  // The engine agrees with the tables

  /** Stage form of `MasteriesMatchTable`. */
  lemma MaitrisesStageMatchesTable(g: GdsStats, m: Maitrises, k: MasteryCode)
    ensures IsFloorOf(MasteryOf(PrepareMaitrises(g, m), k).value - MasteryOf(m, k).b_m,
                      MasteryNumerator(k, g), MasteryDivisor)
  {
  }

  /** Stage form of `SkillsMatchTable`. */
  lemma SkillStagesMatchTable(g: GdsStats, m: Maitrises, t1: SsStats1, t2: SsStats2, c: SkillCode)
    ensures IsFloorOf(SkillIn(PrepareSsStats1(g, m, t1), PrepareSsStats2(g, m, t2), c).value
                        - SkillIn(t1, t2, c).mod - SkillIn(t1, t2, c).b_m,
                      SkillNumerator(c, g, m), SkillDivisor(c))
  {
    TableQuotient(g, m, t1, t2, c);
    FloorOfQuotient(SkillNumerator(c, g, m), SkillDivisor(c));
  }

  /** The sub-skill formula for `c` divides its table numerator by its table divisor; one
      lemma per sub-skill below. */
  ghost predicate IsTableQuotient(g: GdsStats, m: Maitrises, t1: SsStats1, t2: SsStats2, c: SkillCode) {
    var x := SkillIn(t1, t2, c);
    SkillIn(PrepareSsStats1(g, m, t1), PrepareSsStats2(g, m, t2), c).value - x.mod - x.b_m
    == SkillNumerator(c, g, m) / SkillDivisor(c)
  }

  lemma TableQuotient(g: GdsStats, m: Maitrises, t1: SsStats1, t2: SsStats2, c: SkillCode)
    ensures IsTableQuotient(g, m, t1, t2, c)
  {
    match c
    case Pug => QuotientPug(g, m, t1, t2);
    case Cac => QuotientCac(g, m, t1, t2);
    case Pre => QuotientPre(g, m, t1, t2);
    case Esq => QuotientEsq(g, m, t1, t2);
    case Par => QuotientPar(g, m, t1, t2);
    case Dis => QuotientDis(g, m, t1, t2);
    case Obs => QuotientObs(g, m, t1, t2);
    case Per => QuotientPer(g, m, t1, t2);
    case Psy => QuotientPsy(g, m, t1, t2);
    case Int => QuotientInt(g, m, t1, t2);
    case Com => QuotientCom(g, m, t1, t2);
    case Aut => QuotientAut(g, m, t1, t2);
    case Med => QuotientMed(g, m, t1, t2);
    case Pil => QuotientPil(g, m, t1, t2);
    case Art => QuotientArt(g, m, t1, t2);
    case Vit => QuotientVit(g, m, t1, t2);
    case Ins => QuotientIns(g, m, t1, t2);
    case SF => QuotientSF(g, m, t1, t2);
    case Reg => QuotientReg(g, m, t1, t2);
    case Rec => QuotientRec(g, m, t1, t2);
  }

  lemma QuotientPug(g: GdsStats, m: Maitrises, t1: SsStats1, t2: SsStats2)
    ensures IsTableQuotient(g, m, t1, t2, Pug)
  {
  }

  lemma QuotientCac(g: GdsStats, m: Maitrises, t1: SsStats1, t2: SsStats2)
    ensures IsTableQuotient(g, m, t1, t2, Cac)
  {
  }

  lemma QuotientPre(g: GdsStats, m: Maitrises, t1: SsStats1, t2: SsStats2)
    ensures IsTableQuotient(g, m, t1, t2, Pre)
  {
  }

  lemma QuotientEsq(g: GdsStats, m: Maitrises, t1: SsStats1, t2: SsStats2)
    ensures IsTableQuotient(g, m, t1, t2, Esq)
  {
  }

  lemma QuotientPar(g: GdsStats, m: Maitrises, t1: SsStats1, t2: SsStats2)
    ensures IsTableQuotient(g, m, t1, t2, Par)
  {
  }

  lemma QuotientDis(g: GdsStats, m: Maitrises, t1: SsStats1, t2: SsStats2)
    ensures IsTableQuotient(g, m, t1, t2, Dis)
  {
  }

  lemma QuotientObs(g: GdsStats, m: Maitrises, t1: SsStats1, t2: SsStats2)
    ensures IsTableQuotient(g, m, t1, t2, Obs)
  {
  }

  lemma QuotientPer(g: GdsStats, m: Maitrises, t1: SsStats1, t2: SsStats2)
    ensures IsTableQuotient(g, m, t1, t2, Per)
  {
  }

  lemma QuotientPsy(g: GdsStats, m: Maitrises, t1: SsStats1, t2: SsStats2)
    ensures IsTableQuotient(g, m, t1, t2, Psy)
  {
  }

  lemma QuotientInt(g: GdsStats, m: Maitrises, t1: SsStats1, t2: SsStats2)
    ensures IsTableQuotient(g, m, t1, t2, Int)
  {
  }

  lemma QuotientCom(g: GdsStats, m: Maitrises, t1: SsStats1, t2: SsStats2)
    ensures IsTableQuotient(g, m, t1, t2, Com)
  {
  }

  lemma QuotientAut(g: GdsStats, m: Maitrises, t1: SsStats1, t2: SsStats2)
    ensures IsTableQuotient(g, m, t1, t2, Aut)
  {
  }

  lemma QuotientMed(g: GdsStats, m: Maitrises, t1: SsStats1, t2: SsStats2)
    ensures IsTableQuotient(g, m, t1, t2, Med)
  {
  }

  lemma QuotientPil(g: GdsStats, m: Maitrises, t1: SsStats1, t2: SsStats2)
    ensures IsTableQuotient(g, m, t1, t2, Pil)
  {
  }

  lemma QuotientArt(g: GdsStats, m: Maitrises, t1: SsStats1, t2: SsStats2)
    ensures IsTableQuotient(g, m, t1, t2, Art)
  {
  }

  lemma QuotientVit(g: GdsStats, m: Maitrises, t1: SsStats1, t2: SsStats2)
    ensures IsTableQuotient(g, m, t1, t2, Vit)
  {
  }

  lemma QuotientIns(g: GdsStats, m: Maitrises, t1: SsStats1, t2: SsStats2)
    ensures IsTableQuotient(g, m, t1, t2, Ins)
  {
  }

  lemma QuotientSF(g: GdsStats, m: Maitrises, t1: SsStats1, t2: SsStats2)
    ensures IsTableQuotient(g, m, t1, t2, SF)
  {
  }

  lemma QuotientReg(g: GdsStats, m: Maitrises, t1: SsStats1, t2: SsStats2)
    ensures IsTableQuotient(g, m, t1, t2, Reg)
  {
  }

  lemma QuotientRec(g: GdsStats, m: Maitrises, t1: SsStats1, t2: SsStats2)
    ensures IsTableQuotient(g, m, t1, t2, Rec)
  {
  }

  lemma FloorOfQuotient(n: int, d: int)
    requires d > 0
    ensures IsFloorOf(n / d, n, d)
  {
  }

  /** Each mastery is the floor of its weighted average plus its own `b_m`. */
  lemma MasteriesMatchTable(s: CharacterSystem, k: MasteryCode)
    ensures var r := PrepareCharacterData(s);
            IsFloorOf(MasteryOf(r.maitrises, k).value - MasteryOf(s.maitrises, k).b_m,
                      MasteryNumerator(k, s.gds_stats), MasteryDivisor)
  {
    var g := PrepareBrut(s.gds_stats);
    MaitrisesStageMatchesTable(g, s.maitrises, k);
    assert MasteryNumerator(k, g) == MasteryNumerator(k, s.gds_stats) by {
      assert PrimaryOf(g, Con).value == PrimaryOf(s.gds_stats, Con).value;
      assert PrimaryOf(g, Agi).value == PrimaryOf(s.gds_stats, Agi).value;
      assert PrimaryOf(g, Cha).value == PrimaryOf(s.gds_stats, Cha).value;
      assert PrimaryOf(g, Sav).value == PrimaryOf(s.gds_stats, Sav).value;
      assert PrimaryOf(g, Mag).value == PrimaryOf(s.gds_stats, Mag).value;
      assert PrimaryOf(g, Men).value == PrimaryOf(s.gds_stats, Men).value;
    }
  }

  /** Each sub-skill is the floor of its weighted average plus `mod` and `b_m`. */
  lemma SkillsMatchTable(s: CharacterSystem, c: SkillCode)
    ensures var r := PrepareCharacterData(s);
            IsFloorOf(SkillOf(r, c).value - SkillOf(s, c).mod - SkillOf(s, c).b_m,
                      SkillNumerator(c, r.gds_stats, r.maitrises), SkillDivisor(c))
  {
    var g := PrepareBrut(s.gds_stats);
    var m := PrepareMaitrises(g, s.maitrises);
    var t1, t2 := PrepareSsStats1(g, m, s.ss_stats1), PrepareSsStats2(g, m, s.ss_stats2);
    var r := PrepareCharacterData(s);
    SkillStagesMatchTable(g, m, s.ss_stats1, s.ss_stats2, c);
    PreparedSkill(s, c);
    FloorTransfer(SkillIn(t1, t2, c).value - SkillOf(s, c).mod - SkillOf(s, c).b_m,
                  SkillOf(r, c).value - SkillOf(s, c).mod - SkillOf(s, c).b_m,
                  SkillNumerator(c, g, m), SkillNumerator(c, r.gds_stats, r.maitrises), SkillDivisor(c));
  }

  /** A prepared sub-skill and its numerator, in terms of the stages. */
  lemma PreparedSkill(s: CharacterSystem, c: SkillCode)
    ensures var r, g := PrepareCharacterData(s), PrepareBrut(s.gds_stats);
            var m := PrepareMaitrises(g, s.maitrises);
            && SkillOf(r, c) == SkillIn(PrepareSsStats1(g, m, s.ss_stats1), PrepareSsStats2(g, m, s.ss_stats2), c)
            && SkillNumerator(c, r.gds_stats, r.maitrises) == SkillNumerator(c, g, m)
  {
    PreparedTiers(s);
  }

  lemma FloorTransfer(q: int, q': int, n: int, n': int, d: int)
    requires IsFloorOf(q, n, d) && q == q' && n == n'
    ensures IsFloorOf(q', n', d)
  {
  }

  /** The tiers of a prepared tree are the stage results, in evaluation order. */
  lemma PreparedTiers(s: CharacterSystem)
    ensures var r, g := PrepareCharacterData(s), PrepareBrut(s.gds_stats);
            var m := PrepareMaitrises(g, s.maitrises);
            && r.gds_stats == g && r.maitrises == m
            && r.ss_stats1 == PrepareSsStats1(g, m, s.ss_stats1)
            && r.ss_stats2 == PrepareSsStats2(g, m, s.ss_stats2)
  {
  }

  /** `par` and `com` copy their mastery exactly. */
  lemma ParAndComCopyTheirMastery(s: CharacterSystem)
    ensures var r := PrepareCharacterData(s);
            && r.ss_stats1.par.value == r.maitrises.cor.value + s.ss_stats1.par.mod + s.ss_stats1.par.b_m
            && r.ss_stats2.com.value == r.maitrises.soc.value + s.ss_stats2.com.mod + s.ss_stats2.com.b_m
  {
    SkillsMatchTable(s, Par);
    SkillsMatchTable(s, Com);
  }

  /** The worked example: con 70, agi 50, sav 40 and no modifier give cor 56. */
  lemma CorExample(s: CharacterSystem)
    requires s.gds_stats.con.value == 70 && s.gds_stats.con.b_m == 0
    requires s.gds_stats.agi.value == 50 && s.gds_stats.sav.value == 40
    requires s.maitrises.cor.b_m == 0
    ensures var r := PrepareCharacterData(s);
            r.maitrises.cor.value == 56 && r.gds_stats.con.brut == 70 && r.rdp.deg == 1
  {
  }

  /** The resistance thresholds at their boundaries. */
  lemma ResistanceBoundaries()
    ensures ResistanceLevel(29) == -1 && ResistanceLevel(30) == -1
    ensures ResistanceLevel(31) == 0 && ResistanceLevel(69) == 0
    ensures ResistanceLevel(70) == 1
  {
  }

  // ---------------------------------------------------------------------------
  // NPC experience

  /** Reference for NPC experience: each step of challenge rating away from 0 adds the
      next odd multiple of 100 (100, 300, 500, ...). */
  function XpBySteps(n: nat): nat {
    if n == 0 then 0 else XpBySteps(n - 1) + 100 * (2 * (n - 1) + 1)
  }

  /** Experience depends on the rating's size only, and one more step adds `100 * (2 * cr + 1)`. */
  lemma NpcXpSteps(cr: int)
    ensures PrepareNpcData(-cr) == PrepareNpcData(cr)
    ensures PrepareNpcData(cr + 1) - PrepareNpcData(cr) == 100 * (2 * cr + 1)
  {
    assert (cr + 1) * (cr + 1) == cr * cr + 2 * cr + 1;
  }

  /** The engine's experience is the step-wise reference sum. */
  lemma {:induction false} NpcXpMatchesSteps(cr: int)
    ensures PrepareNpcData(cr) == XpBySteps(if cr < 0 then -cr else cr)
    decreases if cr < 0 then -cr else cr, if cr < 0 then 1 else 0
  {
    if cr < 0 {
      NpcXpSteps(-cr);
      NpcXpMatchesSteps(-cr);
    } else if cr > 0 {
      NpcXpMatchesSteps(cr - 1);
      NpcXpSteps(cr - 1);
    }
  }

  /** If every primary value is `x` and no mastery has a modifier, every mastery is `x`
      and every sub-skill is `x` plus its own `mod` and `b_m`. */
  lemma UniformInputs(s: CharacterSystem, x: int, c: SkillCode, k: MasteryCode)
    requires forall p :: PrimaryOf(s.gds_stats, p).value == x
    requires forall j :: MasteryOf(s.maitrises, j).b_m == 0
    ensures var r := PrepareCharacterData(s);
            && MasteryOf(r.maitrises, k).value == x
            && SkillOf(r, c).value == x + SkillOf(s, c).mod + SkillOf(s, c).b_m
  {
    var g := PrepareBrut(s.gds_stats);
    assert UniformPrimaries(g, x) by {
      assert PrimaryOf(s.gds_stats, Con).value == x && PrimaryOf(s.gds_stats, Agi).value == x;
      assert PrimaryOf(s.gds_stats, Cha).value == x && PrimaryOf(s.gds_stats, Sav).value == x;
      assert PrimaryOf(s.gds_stats, Mag).value == x && PrimaryOf(s.gds_stats, Men).value == x;
    }
    assert s.maitrises.cor.b_m == 0 && s.maitrises.esp.b_m == 0 && s.maitrises.soc.b_m == 0 by {
      assert MasteryOf(s.maitrises, Cor).b_m == 0 && MasteryOf(s.maitrises, Esp).b_m == 0;
      assert MasteryOf(s.maitrises, Soc).b_m == 0;
    }
    UniformStages(g, s.maitrises, s.ss_stats1, s.ss_stats2, x, c, k);
    PreparedTiers(s);
    PreparedSkill(s, c);
  }

  ghost predicate UniformPrimaries(g: GdsStats, x: int) {
    g.con.value == x && g.agi.value == x && g.cha.value == x
    && g.sav.value == x && g.mag.value == x && g.men.value == x
  }

  /** Stage form of `UniformInputs`. */
  lemma UniformStages(g: GdsStats, m0: Maitrises, t1: SsStats1, t2: SsStats2, x: int, c: SkillCode, k: MasteryCode)
    requires UniformPrimaries(g, x)
    requires m0.cor.b_m == 0 && m0.esp.b_m == 0 && m0.soc.b_m == 0
    ensures var m := PrepareMaitrises(g, m0);
            && MasteryOf(m, k).value == x
            && SkillIn(PrepareSsStats1(g, m, t1), PrepareSsStats2(g, m, t2), c).value
               == x + SkillIn(t1, t2, c).mod + SkillIn(t1, t2, c).b_m
  {
    var m := PrepareMaitrises(g, m0);
    assert m.cor.value == x && m.esp.value == x && m.soc.value == x;
  }

  // ---------------------------------------------------------------------------
  // Layering, determinism, idempotence

  /** Two primary tiers with the same `value`s (their `b_m` and `brut` may differ). */
  ghost predicate SameValues(g: GdsStats, g': GdsStats) {
    forall p :: PrimaryOf(g, p).value == PrimaryOf(g', p).value
  }

  /** Masteries and sub-skills read primary `value` only, never `b_m` or `brut`. */
  lemma TiersReadPrimaryValuesOnly(g: GdsStats, g': GdsStats, m: Maitrises, t1: SsStats1, t2: SsStats2)
    requires SameValues(g, g')
    ensures PrepareMaitrises(g, m) == PrepareMaitrises(g', m)
    ensures PrepareSsStats1(g, m, t1) == PrepareSsStats1(g', m, t1)
    ensures PrepareSsStats2(g, m, t2) == PrepareSsStats2(g', m, t2)
  {
    assert PrimaryOf(g, Con) == g.con && PrimaryOf(g', Con) == g'.con;
    assert PrimaryOf(g, Agi) == g.agi && PrimaryOf(g', Agi) == g'.agi;
    assert PrimaryOf(g, Cha) == g.cha && PrimaryOf(g', Cha) == g'.cha;
    assert PrimaryOf(g, Sav) == g.sav && PrimaryOf(g', Sav) == g'.sav;
    assert PrimaryOf(g, Mag) == g.mag && PrimaryOf(g', Mag) == g'.mag;
    assert PrimaryOf(g, Men) == g.men && PrimaryOf(g', Men) == g'.men;
  }

  /** Changing a primary's `b_m` changes that primary's `brut` and nothing else. */
  lemma PrimaryModifierOnlyMovesBrut(s: CharacterSystem, p: PrimaryCode, bm: int)
    ensures var x := PrimaryOf(s.gds_stats, p);
            var s' := s.(gds_stats := WithPrimary(s.gds_stats, p, x.(b_m := bm)));
            var r := PrepareCharacterData(s);
            PrepareCharacterData(s') ==
              r.(gds_stats := WithPrimary(r.gds_stats, p, x.(b_m := bm, brut := x.value + bm)))
  {
    var x := PrimaryOf(s.gds_stats, p);
    var g' := WithPrimary(s.gds_stats, p, x.(b_m := bm));
    var s' := s.(gds_stats := g');
    var g0, g1 := PrepareBrut(s.gds_stats), PrepareBrut(g');
    BrutOfChangedModifier(s.gds_stats, p, bm);
    TiersReadPrimaryValuesOnly(g0, g1, s.maitrises, s.ss_stats1, s.ss_stats2);
    var m0 := PrepareMaitrises(g0, s.maitrises);
    TiersReadPrimaryValuesOnly(g0, g1, m0, s.ss_stats1, s.ss_stats2);
    assert g0.con.value == g1.con.value && g0.mag.value == g1.mag.value by {
      assert PrimaryOf(g0, Con).value == PrimaryOf(g1, Con).value;
      assert PrimaryOf(g0, Mag).value == PrimaryOf(g1, Mag).value;
    }
    SameTiersSameResult(s, s');
  }

  /** Stage form of `PrimaryModifierOnlyMovesBrut` for the primary tier. */
  lemma BrutOfChangedModifier(g: GdsStats, p: PrimaryCode, bm: int)
    ensures var x := PrimaryOf(g, p);
            var g0, g1 := PrepareBrut(g), PrepareBrut(WithPrimary(g, p, x.(b_m := bm)));
            && g1 == WithPrimary(g0, p, x.(b_m := bm, brut := x.value + bm))
            && SameValues(g0, g1)
  {
    var x := PrimaryOf(g, p);
    var g' := WithPrimary(g, p, x.(b_m := bm));
    var g0, g1 := PrepareBrut(g), PrepareBrut(g');
    assert g1 == WithPrimary(g0, p, x.(b_m := bm, brut := x.value + bm)) by {
      match p
      case Con => case Agi => case Cha => case Sav => case Mag => case Men =>
    }
    forall q ensures PrimaryOf(g0, q).value == PrimaryOf(g1, q).value {
      assert PrimaryOf(g', q).value == PrimaryOf(g, q).value;
    }
  }

  /** Two trees whose later tiers come out the same and whose `con` and `mag` agree
      differ, once prepared, in their primary tier only. */
  lemma SameTiersSameResult(s: CharacterSystem, s': CharacterSystem)
    requires s'.maitrises == s.maitrises && s'.ss_stats1 == s.ss_stats1 && s'.ss_stats2 == s.ss_stats2
    requires var g, g' := PrepareBrut(s.gds_stats), PrepareBrut(s'.gds_stats);
             && PrepareMaitrises(g', s.maitrises) == PrepareMaitrises(g, s.maitrises)
             && PrepareSsStats1(g', PrepareMaitrises(g, s.maitrises), s.ss_stats1)
                == PrepareSsStats1(g, PrepareMaitrises(g, s.maitrises), s.ss_stats1)
             && PrepareSsStats2(g', PrepareMaitrises(g, s.maitrises), s.ss_stats2)
                == PrepareSsStats2(g, PrepareMaitrises(g, s.maitrises), s.ss_stats2)
             && g'.con.value == g.con.value && g'.mag.value == g.mag.value
    ensures PrepareCharacterData(s') == PrepareCharacterData(s).(gds_stats := PrepareBrut(s'.gds_stats))
  {
  }

  /** The output depends on the raw inputs only. */
  lemma Deterministic(s: CharacterSystem, s': CharacterSystem)
    requires Inputs(s) == Inputs(s')
    ensures PrepareCharacterData(s) == PrepareCharacterData(s')
  {
    assert BareGdsStats(s.gds_stats) == BareGdsStats(s'.gds_stats);
    var g := PrepareBrut(s.gds_stats);
    assert g == PrepareBrut(s'.gds_stats);
    assert BareMaitrises(s.maitrises) == BareMaitrises(s'.maitrises);
    var m := PrepareMaitrises(g, s.maitrises);
    assert m == PrepareMaitrises(g, s'.maitrises);
    assert BareSsStats1(s.ss_stats1) == BareSsStats1(s'.ss_stats1);
    assert PrepareSsStats1(g, m, s.ss_stats1) == PrepareSsStats1(g, m, s'.ss_stats1);
    assert BareSsStats2(s.ss_stats2) == BareSsStats2(s'.ss_stats2);
    assert PrepareSsStats2(g, m, s.ss_stats2) == PrepareSsStats2(g, m, s'.ss_stats2);
  }

  /** Recomputing with unchanged inputs yields the identical tree. */
  lemma Idempotent(s: CharacterSystem)
    ensures PrepareCharacterData(PrepareCharacterData(s)) == PrepareCharacterData(s)
  {
    Deterministic(PrepareCharacterData(s), s);
  }

  // ---------------------------------------------------------------------------
  // Monotonicity

  lemma FloorMonotone(q1: int, n1: int, q2: int, n2: int, d: int)
    requires d > 0 && n1 <= n2
    requires IsFloorOf(q1, n1, d) && IsFloorOf(q2, n2, d)
    ensures q1 <= q2
  {
    if q1 > q2 {
      MulMonotone(d, q2 + 1, q1);
      assert false;
    }
  }

  lemma {:induction false} MulMonotone(d: nat, a: int, b: int)
    requires a <= b
    ensures d * a <= d * b
  {
    if d > 0 {
      MulMonotone(d - 1, a, b);
      assert d * a == (d - 1) * a + a;
      assert d * b == (d - 1) * b + b;
    }
  }

  ghost predicate PrimariesLe(g: GdsStats, g': GdsStats) {
    forall p :: PrimaryOf(g, p).value <= PrimaryOf(g', p).value
  }

  ghost predicate MasteriesLe(m: Maitrises, m': Maitrises) {
    forall k :: MasteryOf(m, k).value <= MasteryOf(m', k).value
  }

  lemma MasteryNumeratorMonotone(k: MasteryCode, g: GdsStats, g': GdsStats)
    requires PrimariesLe(g, g')
    ensures MasteryNumerator(k, g) <= MasteryNumerator(k, g')
  {
    assert PrimaryOf(g, Con).value <= PrimaryOf(g', Con).value;
    assert PrimaryOf(g, Agi).value <= PrimaryOf(g', Agi).value;
    assert PrimaryOf(g, Cha).value <= PrimaryOf(g', Cha).value;
    assert PrimaryOf(g, Sav).value <= PrimaryOf(g', Sav).value;
    assert PrimaryOf(g, Mag).value <= PrimaryOf(g', Mag).value;
    assert PrimaryOf(g, Men).value <= PrimaryOf(g', Men).value;
  }

  lemma SkillNumeratorMonotone(c: SkillCode, g: GdsStats, m: Maitrises, g': GdsStats, m': Maitrises)
    requires PrimariesLe(g, g') && MasteriesLe(m, m')
    ensures SkillNumerator(c, g, m) <= SkillNumerator(c, g', m')
  {
    assert PrimaryOf(g, Con).value <= PrimaryOf(g', Con).value;
    assert PrimaryOf(g, Agi).value <= PrimaryOf(g', Agi).value;
    assert PrimaryOf(g, Cha).value <= PrimaryOf(g', Cha).value;
    assert PrimaryOf(g, Sav).value <= PrimaryOf(g', Sav).value;
    assert PrimaryOf(g, Mag).value <= PrimaryOf(g', Mag).value;
    assert PrimaryOf(g, Men).value <= PrimaryOf(g', Men).value;
    assert MasteryOf(m, Cor).value <= MasteryOf(m', Cor).value;
    assert MasteryOf(m, Esp).value <= MasteryOf(m', Esp).value;
    assert MasteryOf(m, Soc).value <= MasteryOf(m', Soc).value;
    MulMonotone(SkillWeight(c, FromPrimary(Con)), g.con.value, g'.con.value);
    MulMonotone(SkillWeight(c, FromPrimary(Agi)), g.agi.value, g'.agi.value);
    MulMonotone(SkillWeight(c, FromPrimary(Cha)), g.cha.value, g'.cha.value);
    MulMonotone(SkillWeight(c, FromPrimary(Sav)), g.sav.value, g'.sav.value);
    MulMonotone(SkillWeight(c, FromPrimary(Mag)), g.mag.value, g'.mag.value);
    MulMonotone(SkillWeight(c, FromPrimary(Men)), g.men.value, g'.men.value);
    MulMonotone(SkillWeight(c, FromMastery(Cor)), m.cor.value, m'.cor.value);
    MulMonotone(SkillWeight(c, FromMastery(Esp)), m.esp.value, m'.esp.value);
    MulMonotone(SkillWeight(c, FromMastery(Soc)), m.soc.value, m'.soc.value);
  }

  /** Stage form of `MonotoneInPrimaryValues` for the masteries. */
  lemma MaitrisesStageMonotone(g: GdsStats, g': GdsStats, m0: Maitrises)
    requires PrimariesLe(g, g')
    ensures MasteriesLe(PrepareMaitrises(g, m0), PrepareMaitrises(g', m0))
  {
    var m, m' := PrepareMaitrises(g, m0), PrepareMaitrises(g', m0);
    forall k
      ensures MasteryOf(m, k).value <= MasteryOf(m', k).value
    {
      MaitrisesStageMatchesTable(g, m0, k);
      MaitrisesStageMatchesTable(g', m0, k);
      MasteryNumeratorMonotone(k, g, g');
      FloorMonotone(MasteryOf(m, k).value - MasteryOf(m0, k).b_m, MasteryNumerator(k, g),
                    MasteryOf(m', k).value - MasteryOf(m0, k).b_m, MasteryNumerator(k, g'),
                    MasteryDivisor);
    }
  }

  /** Stage form of `MonotoneInPrimaryValues` for one sub-skill. */
  lemma SkillStageMonotone(g: GdsStats, g': GdsStats, m: Maitrises, m': Maitrises,
                           t1: SsStats1, t2: SsStats2, c: SkillCode)
    requires PrimariesLe(g, g') && MasteriesLe(m, m')
    ensures SkillIn(PrepareSsStats1(g, m, t1), PrepareSsStats2(g, m, t2), c).value
            <= SkillIn(PrepareSsStats1(g', m', t1), PrepareSsStats2(g', m', t2), c).value
  {
    SkillStagesMatchTable(g, m, t1, t2, c);
    SkillStagesMatchTable(g', m', t1, t2, c);
    SkillNumeratorMonotone(c, g, m, g', m');
    var base := SkillIn(t1, t2, c).mod + SkillIn(t1, t2, c).b_m;
    FloorMonotone(SkillIn(PrepareSsStats1(g, m, t1), PrepareSsStats2(g, m, t2), c).value - base,
                  SkillNumerator(c, g, m),
                  SkillIn(PrepareSsStats1(g', m', t1), PrepareSsStats2(g', m', t2), c).value - base,
                  SkillNumerator(c, g', m'), SkillDivisor(c));
  }

  /** Raising primary values, all else equal, never lowers a mastery or a sub-skill. */
  lemma MonotoneInPrimaryValues(s: CharacterSystem, s': CharacterSystem)
    requires s'.maitrises == s.maitrises && s'.ss_stats1 == s.ss_stats1 && s'.ss_stats2 == s.ss_stats2
    requires PrimariesLe(s.gds_stats, s'.gds_stats)
    ensures var r, r' := PrepareCharacterData(s), PrepareCharacterData(s');
            && MasteriesLe(r.maitrises, r'.maitrises)
            && forall c :: SkillOf(r, c).value <= SkillOf(r', c).value
  {
    var g, g' := PrepareBrut(s.gds_stats), PrepareBrut(s'.gds_stats);
    assert PrimariesLe(g, g') by {
      forall p ensures PrimaryOf(g, p).value <= PrimaryOf(g', p).value {
        assert PrimaryOf(s.gds_stats, p).value <= PrimaryOf(s'.gds_stats, p).value;
      }
    }
    var m0, t1, t2 := s.maitrises, s.ss_stats1, s.ss_stats2;
    var m, m' := PrepareMaitrises(g, m0), PrepareMaitrises(g', m0);
    MaitrisesStageMonotone(g, g', m0);
    var r, r' := PrepareCharacterData(s), PrepareCharacterData(s');
    assert r.maitrises == m && r'.maitrises == m';
    assert r.ss_stats1 == PrepareSsStats1(g, m, t1) && r.ss_stats2 == PrepareSsStats2(g, m, t2);
    assert r'.ss_stats1 == PrepareSsStats1(g', m', t1) && r'.ss_stats2 == PrepareSsStats2(g', m', t2);
    forall c
      ensures SkillOf(r, c).value <= SkillOf(r', c).value
    {
      SkillStageMonotone(g, g', m, m', t1, t2, c);
    }
  }

  // ---------------------------------------------------------------------------
  // Aggregates

  /** Sum of the values of the listed sub-skills. */
  function SumValues(s: CharacterSystem, cs: seq<SkillCode>): int {
    if cs == [] then 0 else SkillOf(s, cs[0]).value + SumValues(s, cs[1..])
  }

  /** Sum of the `mod`s of the listed sub-skills. */
  function SumMods(s: CharacterSystem, cs: seq<SkillCode>): int {
    if cs == [] then 0 else SkillOf(s, cs[0]).mod + SumMods(s, cs[1..])
  }

  lemma {:induction false} SumsSplit(s: CharacterSystem, a: seq<SkillCode>, b: seq<SkillCode>)
    ensures SumValues(s, a + b) == SumValues(s, a) + SumValues(s, b)
    ensures SumMods(s, a + b) == SumMods(s, a) + SumMods(s, b)
  {
    if a == [] {
      assert a + b == b;
    } else {
      assert (a + b)[0] == a[0];
      assert (a + b)[1..] == a[1..] + b;
      SumsSplit(s, a[1..], b);
    }
  }

  lemma SumOfFive(s: CharacterSystem, a: SkillCode, b: SkillCode, c: SkillCode, d: SkillCode, e: SkillCode)
    ensures SumValues(s, [a, b, c, d, e]) == SkillOf(s, a).value + SkillOf(s, b).value
            + SkillOf(s, c).value + SkillOf(s, d).value + SkillOf(s, e).value
    ensures SumMods(s, [a, b, c, d, e]) == SkillOf(s, a).mod + SkillOf(s, b).mod
            + SkillOf(s, c).mod + SkillOf(s, d).mod + SkillOf(s, e).mod
  {
    assert [a, b, c, d, e][1..] == [b, c, d, e];
    assert [b, c, d, e][1..] == [c, d, e];
    assert [c, d, e][1..] == [d, e];
    assert [d, e][1..] == [e];
    assert [e][1..] == [];
    assert SumValues(s, [e]) == SkillOf(s, e).value;
    assert SumValues(s, [d, e]) == SkillOf(s, d).value + SumValues(s, [e]);
    assert SumValues(s, [c, d, e]) == SkillOf(s, c).value + SumValues(s, [d, e]);
    assert SumValues(s, [b, c, d, e]) == SkillOf(s, b).value + SumValues(s, [c, d, e]);
    assert SumMods(s, [e]) == SkillOf(s, e).mod;
    assert SumMods(s, [d, e]) == SkillOf(s, d).mod + SumMods(s, [e]);
    assert SumMods(s, [c, d, e]) == SkillOf(s, c).mod + SumMods(s, [d, e]);
    assert SumMods(s, [b, c, d, e]) == SkillOf(s, b).mod + SumMods(s, [c, d, e]);
  }

  /** The sub-skill codes in the order actor.mjs adds them, in blocks of five. */
  lemma AllSkillsInBlocks()
    ensures AllSkills == [Pug, Cac, Pre, Esq, Par] + [Dis, Obs, Per, Psy, Int]
                         + [Com, Aut, Med, Pil, Art] + [Vit, Ins, SF, Reg, Rec]
  {
  }

  /** The sums over all twenty sub-skills, block by block. */
  lemma SumsByBlocks(s: CharacterSystem)
    ensures SumValues(s, AllSkills)
            == SumValues(s, [Pug, Cac, Pre, Esq, Par]) + SumValues(s, [Dis, Obs, Per, Psy, Int])
               + SumValues(s, [Com, Aut, Med, Pil, Art]) + SumValues(s, [Vit, Ins, SF, Reg, Rec])
    ensures SumMods(s, AllSkills)
            == SumMods(s, [Pug, Cac, Pre, Esq, Par]) + SumMods(s, [Dis, Obs, Per, Psy, Int])
               + SumMods(s, [Com, Aut, Med, Pil, Art]) + SumMods(s, [Vit, Ins, SF, Reg, Rec])
  {
    var a, b, c, d := [Pug, Cac, Pre, Esq, Par], [Dis, Obs, Per, Psy, Int],
                      [Com, Aut, Med, Pil, Art], [Vit, Ins, SF, Reg, Rec];
    AllSkillsInBlocks();
    SumsSplit(s, a + b + c, d);
    SumsSplit(s, a + b, c);
    SumsSplit(s, a, b);
  }

  lemma FirstBlock(s: CharacterSystem)
    ensures SumValues(s, [Pug, Cac, Pre, Esq, Par])
            == s.ss_stats1.pug.value + s.ss_stats1.cac.value + s.ss_stats1.pre.value + s.ss_stats1.esq.value + s.ss_stats1.par.value
    ensures SumMods(s, [Pug, Cac, Pre, Esq, Par])
            == s.ss_stats1.pug.mod + s.ss_stats1.cac.mod + s.ss_stats1.pre.mod + s.ss_stats1.esq.mod + s.ss_stats1.par.mod
  {
    SumOfFive(s, Pug, Cac, Pre, Esq, Par);
  }

  lemma SecondBlock(s: CharacterSystem)
    ensures SumValues(s, [Dis, Obs, Per, Psy, Int])
            == s.ss_stats1.dis.value + s.ss_stats1.obs.value + s.ss_stats1.per.value + s.ss_stats1.psy.value + s.ss_stats1.int_.value
    ensures SumMods(s, [Dis, Obs, Per, Psy, Int])
            == s.ss_stats1.dis.mod + s.ss_stats1.obs.mod + s.ss_stats1.per.mod + s.ss_stats1.psy.mod + s.ss_stats1.int_.mod
  {
    SumOfFive(s, Dis, Obs, Per, Psy, Int);
  }

  lemma ThirdBlock(s: CharacterSystem)
    ensures SumValues(s, [Com, Aut, Med, Pil, Art])
            == s.ss_stats2.com.value + s.ss_stats2.aut.value + s.ss_stats2.med.value + s.ss_stats2.pil.value + s.ss_stats2.art.value
    ensures SumMods(s, [Com, Aut, Med, Pil, Art])
            == s.ss_stats2.com.mod + s.ss_stats2.aut.mod + s.ss_stats2.med.mod + s.ss_stats2.pil.mod + s.ss_stats2.art.mod
  {
    SumOfFive(s, Com, Aut, Med, Pil, Art);
  }

  lemma FourthBlock(s: CharacterSystem)
    ensures SumValues(s, [Vit, Ins, SF, Reg, Rec])
            == s.ss_stats2.vit.value + s.ss_stats2.ins.value + s.ss_stats2.s_f.value + s.ss_stats2.reg.value + s.ss_stats2.rec.value
    ensures SumMods(s, [Vit, Ins, SF, Reg, Rec])
            == s.ss_stats2.vit.mod + s.ss_stats2.ins.mod + s.ss_stats2.s_f.mod + s.ss_stats2.reg.mod + s.ss_stats2.rec.mod
  {
    SumOfFive(s, Vit, Ins, SF, Reg, Rec);
  }

  /** The written-out sums of actor.mjs, block by block. */
  lemma WrittenOutSumsByBlocks(s: CharacterSystem)
    ensures SkillValueTotal(s.ss_stats1, s.ss_stats2)
            == SumValues(s, [Pug, Cac, Pre, Esq, Par]) + SumValues(s, [Dis, Obs, Per, Psy, Int])
               + SumValues(s, [Com, Aut, Med, Pil, Art]) + SumValues(s, [Vit, Ins, SF, Reg, Rec])
    ensures SkillModTotal(s.ss_stats1, s.ss_stats2)
            == SumMods(s, [Pug, Cac, Pre, Esq, Par]) + SumMods(s, [Dis, Obs, Per, Psy, Int])
               + SumMods(s, [Com, Aut, Med, Pil, Art]) + SumMods(s, [Vit, Ins, SF, Reg, Rec])
  {
    FirstBlock(s);
    SecondBlock(s);
    ThirdBlock(s);
    FourthBlock(s);
  }

  /** `valuation` is the sum of all twenty sub-skill values minus 900, and
      `totalmod` the sum of their `mod`s, recomputed from the engine's own output. */
  lemma AggregatesAreSums(s: CharacterSystem)
    ensures var r := PrepareCharacterData(s);
            && r.valuation == SumValues(r, AllSkills) - ValuationBaseline
            && r.totalmod == SumMods(r, AllSkills)
  {
    var r := PrepareCharacterData(s);
    SumsByBlocks(r);
    WrittenOutSumsByBlocks(r);
  }
}
