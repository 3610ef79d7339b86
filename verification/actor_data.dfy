/**
 * The derived-stat engine of a Shinzo actor (`ShinzoActor.prepareDerivedData`).
 *
 * A character sheet is a fixed four-tier tree:
 *   - six primary attributes (`gds_stats`), each with a raw `value`, a flat
 *     modifier `b_m` and the derived `brut`;
 *   - three masteries (`maitrises`: cor, esp, soc), floored weighted averages
 *     of primary values plus their own `b_m`;
 *   - twenty sub-skills (`ss_stats1`, `ss_stats2`), floored weighted averages
 *     of primary and mastery values plus `mod` and `b_m`;
 *   - the aggregates: resistance flags, `valuation` and `totalmod`.
 *
 * Every divisor is positive, so JavaScript's `Math.floor(x / d + m)` on
 * integers is Dafny's Euclidean `x / d + m`.
 */
module ActorData {

  /** The primary attribute codes (`gds_stats`). */
  datatype PrimaryCode = Con | Agi | Cha | Sav | Mag | Men

  /** The mastery codes (`maitrises`). */
  datatype MasteryCode = Cor | Esp | Soc

  /** The sub-skill codes; the first ten live in `ss_stats1`, the rest in `ss_stats2`. */
  datatype SkillCode =
    | Pug | Cac | Pre | Esq | Par | Dis | Obs | Per | Psy | Int
    | Com | Aut | Med | Pil | Art | Vit | Ins | SF | Reg | Rec

  datatype Primary = Primary(value: int, b_m: int, brut: int)
  datatype Mastery = Mastery(value: int, b_m: int)
  datatype SubSkill = SubSkill(value: int, mod: int, b_m: int)

  datatype GdsStats = GdsStats(con: Primary, agi: Primary, cha: Primary,
                               sav: Primary, mag: Primary, men: Primary)

  datatype Maitrises = Maitrises(cor: Mastery, esp: Mastery, soc: Mastery)

  /** The first sub-skill tier; `int` is a Dafny keyword, hence `int_`. */
  datatype SsStats1 = SsStats1(pug: SubSkill, cac: SubSkill, pre: SubSkill, esq: SubSkill,
                               par: SubSkill, dis: SubSkill, obs: SubSkill, per: SubSkill,
                               psy: SubSkill, int_: SubSkill)

  datatype SsStats2 = SsStats2(com: SubSkill, aut: SubSkill, med: SubSkill, pil: SubSkill,
                               art: SubSkill, vit: SubSkill, ins: SubSkill, s_f: SubSkill,
                               reg: SubSkill, rec: SubSkill)

  /** Physical (`rdp`) and magical (`rdm`) degradation/resistance flags. */
  datatype Resistances = Resistances(deg: int, res: int)

  /** The `system` data of a character actor, restricted to the stat tree. */
  datatype CharacterSystem = CharacterSystem(
    gds_stats: GdsStats,
    maitrises: Maitrises,
    ss_stats1: SsStats1,
    ss_stats2: SsStats2,
    totalmod: int,
    rdp: Resistances,
    rdm: Resistances,
    valuation: int)

  /** An actor, by type: only `character` and `npc` have derived data. */
  datatype Actor =
    | Character(system: CharacterSystem)
    | Npc(cr: int, xp: int)
    | OtherActor(kind: string)

  /** The baseline subtracted from the sum of sub-skills in `valuation`. */
  const ValuationBaseline: int := 900

  const AllPrimaries: seq<PrimaryCode> := [Con, Agi, Cha, Sav, Mag, Men]
  const AllMasteries: seq<MasteryCode> := [Cor, Esp, Soc]
  const AllSkills: seq<SkillCode> :=
    [Pug, Cac, Pre, Esq, Par, Dis, Obs, Per, Psy, Int,
     Com, Aut, Med, Pil, Art, Vit, Ins, SF, Reg, Rec]

  // ---------------------------------------------------------------------------
  // Access by code

  function PrimaryOf(g: GdsStats, p: PrimaryCode): Primary {
    match p
    case Con => g.con
    case Agi => g.agi
    case Cha => g.cha
    case Sav => g.sav
    case Mag => g.mag
    case Men => g.men
  }

  /** `g` with the primary `p` replaced by `x`. */
  function WithPrimary(g: GdsStats, p: PrimaryCode, x: Primary): (r: GdsStats)
    ensures PrimaryOf(r, p) == x
    ensures forall q :: q != p ==> PrimaryOf(r, q) == PrimaryOf(g, q)
  {
    match p
    case Con => g.(con := x)
    case Agi => g.(agi := x)
    case Cha => g.(cha := x)
    case Sav => g.(sav := x)
    case Mag => g.(mag := x)
    case Men => g.(men := x)
  }

  function MasteryOf(m: Maitrises, c: MasteryCode): Mastery {
    match c
    case Cor => m.cor
    case Esp => m.esp
    case Soc => m.soc
  }

  function SkillOf(s: CharacterSystem, c: SkillCode): SubSkill {
    SkillIn(s.ss_stats1, s.ss_stats2, c)
  }

  function SkillIn(t1: SsStats1, t2: SsStats2, c: SkillCode): SubSkill {
    match c
    case Pug => t1.pug
    case Cac => t1.cac
    case Pre => t1.pre
    case Esq => t1.esq
    case Par => t1.par
    case Dis => t1.dis
    case Obs => t1.obs
    case Per => t1.per
    case Psy => t1.psy
    case Int => t1.int_
    case Com => t2.com
    case Aut => t2.aut
    case Med => t2.med
    case Pil => t2.pil
    case Art => t2.art
    case Vit => t2.vit
    case Ins => t2.ins
    case SF => t2.s_f
    case Reg => t2.reg
    case Rec => t2.rec
  }

  // ---------------------------------------------------------------------------
  // The engine, tier by tier, in the order actor.mjs evaluates it

  /** Tier 1: `brut = floor(value + b_m)`, the identity floor on integers. */
  function PrepareBrut(g: GdsStats): (r: GdsStats)
    ensures forall p :: PrimaryOf(r, p).value == PrimaryOf(g, p).value
    ensures forall p :: PrimaryOf(r, p).b_m == PrimaryOf(g, p).b_m
    ensures forall p :: PrimaryOf(r, p).brut == PrimaryOf(g, p).value + PrimaryOf(g, p).b_m
  {
    GdsStats(
      g.con.(brut := g.con.value + g.con.b_m),
      g.agi.(brut := g.agi.value + g.agi.b_m),
      g.cha.(brut := g.cha.value + g.cha.b_m),
      g.sav.(brut := g.sav.value + g.sav.b_m),
      g.mag.(brut := g.mag.value + g.mag.b_m),
      g.men.(brut := g.men.value + g.men.b_m))
  }

  /** Tier 2: the three masteries, from primary `value`s only. */
  function PrepareMaitrises(g: GdsStats, m: Maitrises): (r: Maitrises)
    ensures BareMaitrises(r) == BareMaitrises(m)
  {
    var con, agi, cha, sav, mag, men :=
      g.con.value, g.agi.value, g.cha.value, g.sav.value, g.mag.value, g.men.value;
    Maitrises(
      m.cor.(value := (2 * con + 2 * agi + sav) / 5 + m.cor.b_m),
      m.esp.(value := (2 * mag + 2 * men + sav) / 5 + m.esp.b_m),
      m.soc.(value := (sav + 4 * cha) / 5 + m.soc.b_m))
  }

  /** `x` with its value set to `base + mod + b_m`. */
  function Finish(x: SubSkill, base: int): SubSkill {
    x.(value := base + x.mod + x.b_m)
  }

  /** Tier 3a: `ss_stats1`, reading primary values and the new masteries. */
  function PrepareSsStats1(g: GdsStats, m: Maitrises, t: SsStats1): (r: SsStats1)
    ensures BareSsStats1(r) == BareSsStats1(t)
  {
    var con, agi, mag, men := g.con.value, g.agi.value, g.mag.value, g.men.value;
    var cor, esp, soc := m.cor.value, m.esp.value, m.soc.value;
    SsStats1(
      Finish(t.pug, (2 * con + cor) / 3),
      Finish(t.cac, (con + 2 * cor) / 3),
      Finish(t.pre, (esp + 3 * cor) / 4),
      Finish(t.esq, (cor + 2 * agi) / 3),
      Finish(t.par, cor),
      Finish(t.dis, (soc + 2 * agi) / 3),
      Finish(t.obs, (soc + 3 * men) / 4),
      Finish(t.per, (esp + 3 * mag) / 4),
      Finish(t.psy, (mag + men + 2 * esp) / 4),
      Finish(t.int_, (con + 2 * soc) / 3))
  }

  /** Tier 3b: `ss_stats2`, reading primary values and the new masteries. */
  function PrepareSsStats2(g: GdsStats, m: Maitrises, t: SsStats2): (r: SsStats2)
    ensures BareSsStats2(r) == BareSsStats2(t)
  {
    var con, agi, cha, sav, mag, men :=
      g.con.value, g.agi.value, g.cha.value, g.sav.value, g.mag.value, g.men.value;
    var cor, esp, soc := m.cor.value, m.esp.value, m.soc.value;
    SsStats2(
      Finish(t.com, soc),
      Finish(t.aut, (soc + cha) / 2),
      Finish(t.med, (sav + esp) / 2),
      Finish(t.pil, (soc + esp) / 2),
      Finish(t.art, (soc + esp) / 2),
      Finish(t.vit, (agi + cor) / 2),
      Finish(t.ins, (men + esp) / 2),
      Finish(t.s_f, (sav + esp) / 2),
      Finish(t.reg, (con + esp) / 2),
      Finish(t.rec, (mag + esp) / 2))
  }

  /** The tri-state flag for one attribute: 1 from 70 up, -1 up to 30, else 0. */
  function ResistanceLevel(v: int): (r: int)
    ensures -1 <= r <= 1
    ensures r == 1 <==> v >= 70
    ensures r == -1 <==> v <= 30
    ensures r == 0 <==> 30 < v < 70
  {
    if v >= 70 then 1
    else if v <= 30 then -1
    else 0
  }

  /** Both flags of a pair are set from the same attribute, so they agree. */
  function PrepareResistances(v: int): (r: Resistances)
    ensures r.deg == r.res
    ensures r.deg == ResistanceLevel(v)
  {
    var level := ResistanceLevel(v);
    Resistances(level, level)
  }

  /** The sum of the twenty sub-skill values, written out as actor.mjs does. */
  function SkillValueTotal(t1: SsStats1, t2: SsStats2): int {
    t1.pug.value + t1.cac.value + t1.pre.value + t1.esq.value + t1.par.value
    + t1.dis.value + t1.obs.value + t1.per.value + t1.psy.value + t1.int_.value
    + t2.com.value + t2.aut.value + t2.med.value + t2.pil.value + t2.art.value
    + t2.vit.value + t2.ins.value + t2.s_f.value + t2.reg.value + t2.rec.value
  }

  /** The sum of the twenty sub-skill `mod`s, written out as actor.mjs does. */
  function SkillModTotal(t1: SsStats1, t2: SsStats2): int {
    t1.pug.mod + t1.cac.mod + t1.pre.mod + t1.esq.mod + t1.par.mod
    + t1.dis.mod + t1.obs.mod + t1.per.mod + t1.psy.mod + t1.int_.mod
    + t2.com.mod + t2.aut.mod + t2.med.mod + t2.pil.mod + t2.art.mod
    + t2.vit.mod + t2.ins.mod + t2.s_f.mod + t2.reg.mod + t2.rec.mod
  }

  /** `_prepareCharacterData`: recompute every derived field of the tree. */
  function PrepareCharacterData(s: CharacterSystem): (r: CharacterSystem)
    ensures Inputs(r) == Inputs(s)
    ensures forall p :: PrimaryOf(r.gds_stats, p).brut
                        == PrimaryOf(s.gds_stats, p).value + PrimaryOf(s.gds_stats, p).b_m
    ensures r.rdp.deg == r.rdp.res && -1 <= r.rdp.deg <= 1
    ensures r.rdm.deg == r.rdm.res && -1 <= r.rdm.deg <= 1
    ensures r.rdp.deg == 1 <==> s.gds_stats.con.value >= 70
    ensures r.rdp.deg == -1 <==> s.gds_stats.con.value <= 30
    ensures r.rdm.deg == 1 <==> s.gds_stats.mag.value >= 70
    ensures r.rdm.deg == -1 <==> s.gds_stats.mag.value <= 30
  {
    var g := PrepareBrut(s.gds_stats);
    var m := PrepareMaitrises(g, s.maitrises);
    var t1 := PrepareSsStats1(g, m, s.ss_stats1);
    var t2 := PrepareSsStats2(g, m, s.ss_stats2);
    CharacterSystem(
      g, m, t1, t2,
      SkillModTotal(t1, t2),
      PrepareResistances(g.con.value),
      PrepareResistances(g.mag.value),
      SkillValueTotal(t1, t2) - ValuationBaseline)
  }

  /** `_prepareNpcData`: experience from challenge rating. */
  function PrepareNpcData(cr: int): (xp: int)
    ensures xp >= 0 && xp % 100 == 0
    ensures xp == 0 <==> cr == 0
  {
    cr * cr * 100
  }

  /** `prepareDerivedData`: each actor type gets its own preparation, others none. */
  function PrepareDerivedData(a: Actor): (r: Actor)
    ensures a.Character? <==> r.Character?
    ensures a.Npc? <==> r.Npc?
    ensures a.OtherActor? ==> r == a
    ensures a.Npc? ==> r.cr == a.cr && r.xp == PrepareNpcData(a.cr)
    ensures a.Character? ==> Inputs(r.system) == Inputs(a.system)
  {
    match a
    case Character(s) => Character(PrepareCharacterData(s))
    case Npc(cr, _) => Npc(cr, PrepareNpcData(cr))
    case OtherActor(_) => a
  }

  // ---------------------------------------------------------------------------
  // Raw inputs: the fields no formula writes

  /** The tree with every derived field zeroed: what the engine is allowed to read. */
  function Inputs(s: CharacterSystem): CharacterSystem {
    CharacterSystem(
      BareGdsStats(s.gds_stats), BareMaitrises(s.maitrises),
      BareSsStats1(s.ss_stats1), BareSsStats2(s.ss_stats2),
      0, Resistances(0, 0), Resistances(0, 0), 0)
  }

  function BareGdsStats(g: GdsStats): GdsStats {
    GdsStats(g.con.(brut := 0), g.agi.(brut := 0), g.cha.(brut := 0),
             g.sav.(brut := 0), g.mag.(brut := 0), g.men.(brut := 0))
  }

  function BareMaitrises(m: Maitrises): Maitrises {
    Maitrises(m.cor.(value := 0), m.esp.(value := 0), m.soc.(value := 0))
  }

  function BareSsStats1(t: SsStats1): SsStats1 {
    SsStats1(t.pug.(value := 0), t.cac.(value := 0), t.pre.(value := 0),
             t.esq.(value := 0), t.par.(value := 0), t.dis.(value := 0),
             t.obs.(value := 0), t.per.(value := 0), t.psy.(value := 0),
             t.int_.(value := 0))
  }

  function BareSsStats2(t: SsStats2): SsStats2 {
    SsStats2(t.com.(value := 0), t.aut.(value := 0), t.med.(value := 0),
             t.pil.(value := 0), t.art.(value := 0), t.vit.(value := 0),
             t.ins.(value := 0), t.s_f.(value := 0), t.reg.(value := 0),
             t.rec.(value := 0))
  }
}
