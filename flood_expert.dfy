/** The flood-damage expert system (app.py, analyze_flood_damage): a fixed
    table of rules, one per recognised symptom, each contributing fixed
    advice to the fields of a report, followed by two defaults. */
module FloodExpert {

  // The four recognised symptom names.
  const WaterLogging: string := "water_logging"
  const YellowLeaves: string := "yellow_leaves"
  const RootRot: string := "root_rot"
  const SoilErosion: string := "soil_erosion"

  const Recognised: seq<string> := [WaterLogging, YellowLeaves, RootRot, SoilErosion]

  const FloodProblem: string := "Flood damage detected."

  /** Every fixed line of advice the system can put in a report. The exact
      wording of each is given by Text. */
  datatype Advice =
    // water logging
    | HypoxiaReason | DrainAction | AerateAction | DrainagePrevention
    | AvoidMaize | PlantRice | PlantJute
    // yellow leaves
    | LeachingReason | NitrogenAction | Urea | FoliarNpk
    // root rot
    | FungalReason | FungicideAction | AvoidRootVegetables
    // soil erosion
    | TopsoilReason | CompostAction | CoverCropPrevention
    // defaults
    | MonitorMoisture | RemoveDebris | PlantMungbean | PlantPulses | PlantSpinach

  function Text(a: Advice): string
  {
    match a
    case HypoxiaReason => "Water stagnation caused oxygen deprivation in roots (Hypoxia)."
    case DrainAction => "Drain excess water immediately using trenches or pumps."
    case AerateAction => "Aerate the soil by light tilling once it dries slightly."
    case DrainagePrevention => "Install better drainage systems or raised beds."
    case AvoidMaize => "Maize (highly sensitive to waterlogging)"
    case PlantRice => "Rice (if water persists)"
    case PlantJute => "Jute"
    case LeachingReason => "Nitrogen leaching due to excess water (Chlorosis)."
    case NitrogenAction => "Apply Nitrogen-rich fertilizers (Urea or Ammonium Sulphate)."
    case Urea => "Urea"
    case FoliarNpk => "NPK 20-20-20 (foliar spray)"
    case FungalReason => "Fungal infection due to prolonged wetness."
    case FungicideAction => "Apply fungicides (e.g., Copper Oxychloride) near the root zone."
    case AvoidRootVegetables => "Root vegetables (Carrots, Potatoes)"
    case TopsoilReason => "Topsoil washed away, losing organic matter."
    case CompostAction => "Add organic compost or manure to restore structure."
    case CoverCropPrevention => "Plant cover crops (like Clover or Vetch) to hold soil."
    case MonitorMoisture => "Monitor soil moisture levels daily."
    case RemoveDebris => "Remove debris and dead plant material to prevent disease."
    case PlantMungbean => "Mungbean"
    case PlantPulses => "Short-duration Pulses"
    case PlantSpinach => "Spinach"
  }

  // The defaults used when a list is still empty after the rules.
  const DefaultActions: seq<Advice> := [MonitorMoisture, RemoveDebris]
  const DefaultCrops: seq<Advice> := [PlantMungbean, PlantPulses, PlantSpinach]

  /** The report: the problem statement and six lists of advice, in the
      report's own field order. */
  datatype Report = Report(
    problem: string,
    reasons: seq<Advice>,
    immediateActions: seq<Advice>,
    prevention: seq<Advice>,
    fertilizers: seq<Advice>,
    cropsToPlant: seq<Advice>,
    cropsToAvoid: seq<Advice>)

  /** The report before any rule has fired. */
  const EmptyReport: Report := Report(FloodProblem, [], [], [], [], [], [])

  /** One rule of the table: the symptom that fires it and what it appends to
      each list of the report. */
  datatype Rule = Rule(
    symptom: string,
    reasons: seq<Advice>,
    actions: seq<Advice>,
    prevention: seq<Advice>,
    fertilizers: seq<Advice>,
    plant: seq<Advice>,
    avoid: seq<Advice>)

  // The four rules, one per recognised symptom.
  const WaterLoggingRule: Rule :=
    Rule(WaterLogging, [HypoxiaReason], [DrainAction, AerateAction], [DrainagePrevention],
         [], [PlantRice, PlantJute], [AvoidMaize])
  const YellowLeavesRule: Rule :=
    Rule(YellowLeaves, [LeachingReason], [NitrogenAction], [], [Urea, FoliarNpk], [], [])
  const RootRotRule: Rule :=
    Rule(RootRot, [FungalReason], [FungicideAction], [], [], [], [AvoidRootVegetables])
  const SoilErosionRule: Rule :=
    Rule(SoilErosion, [TopsoilReason], [CompostAction], [CoverCropPrevention], [], [], [])

  /** The rule table, in the order in which the rules are applied. */
  const Rules: seq<Rule> := [WaterLoggingRule, YellowLeavesRule, RootRotRule, SoilErosionRule]

  /** Apply one rule: when its symptom is a member of `symptoms`, append its
      advice to every list; otherwise leave the report as it is. */
  function Fire(rep: Report, rule: Rule, symptoms: seq<string>): (r: Report)
    ensures r.problem == rep.problem
  {
    if rule.symptom in symptoms then
      rep.(reasons := rep.reasons + rule.reasons,
           immediateActions := rep.immediateActions + rule.actions,
           prevention := rep.prevention + rule.prevention,
           fertilizers := rep.fertilizers + rule.fertilizers,
           cropsToPlant := rep.cropsToPlant + rule.plant,
           cropsToAvoid := rep.cropsToAvoid + rule.avoid)
    else rep
  }

  /** Apply the rules one after the other. */
  function ApplyRules(rep: Report, rules: seq<Rule>, symptoms: seq<string>): Report
    decreases |rules|
  {
    if rules == [] then rep else ApplyRules(Fire(rep, rules[0], symptoms), rules[1..], symptoms)
  }

  function OrDefault(xs: seq<Advice>, default: seq<Advice>): seq<Advice>
  {
    if xs == [] then default else xs
  }

  /** The two defaults: an empty action list and an empty planting list are
      replaced by the default advice. */
  function WithDefaults(rep: Report): Report
  {
    rep.(immediateActions := OrDefault(rep.immediateActions, DefaultActions),
         cropsToPlant := OrDefault(rep.cropsToPlant, DefaultCrops))
  }

  /** The report the expert system is meant to produce: the rule table
      applied in order to the empty report, then the defaults. */
  function Diagnose(symptoms: seq<string>): Report
  {
    WithDefaults(ApplyRules(EmptyReport, Rules, symptoms))
  }

  /** analyze_flood_damage: start from an empty report, append the advice of
      each symptom present list by list, then apply the two defaults. The
      free-text description is accepted and not used. */
  method AnalyzeFloodDamage(symptoms: seq<string>, description: string) returns (report: Report)
    ensures report == Diagnose(symptoms)
  {
    report := EmptyReport;

    ghost var before := report;
    if WaterLogging in symptoms {
      report := report.(reasons := report.reasons + [HypoxiaReason]);
      report := report.(immediateActions := report.immediateActions + [DrainAction]);
      report := report.(immediateActions := report.immediateActions + [AerateAction]);
      report := report.(prevention := report.prevention + [DrainagePrevention]);
      report := report.(cropsToAvoid := report.cropsToAvoid + [AvoidMaize]);
      report := report.(cropsToPlant := report.cropsToPlant + [PlantRice]);
      report := report.(cropsToPlant := report.cropsToPlant + [PlantJute]);
    }
    assert report == Fire(before, WaterLoggingRule, symptoms);

    before := report;
    if YellowLeaves in symptoms {
      report := report.(reasons := report.reasons + [LeachingReason]);
      report := report.(immediateActions := report.immediateActions + [NitrogenAction]);
      report := report.(fertilizers := report.fertilizers + [Urea]);
      report := report.(fertilizers := report.fertilizers + [FoliarNpk]);
    }
    assert report == Fire(before, YellowLeavesRule, symptoms);

    before := report;
    if RootRot in symptoms {
      report := report.(reasons := report.reasons + [FungalReason]);
      report := report.(immediateActions := report.immediateActions + [FungicideAction]);
      report := report.(cropsToAvoid := report.cropsToAvoid + [AvoidRootVegetables]);
    }
    assert report == Fire(before, RootRotRule, symptoms);

    before := report;
    if SoilErosion in symptoms {
      report := report.(reasons := report.reasons + [TopsoilReason]);
      report := report.(immediateActions := report.immediateActions + [CompostAction]);
      report := report.(prevention := report.prevention + [CoverCropPrevention]);
    }
    assert report == Fire(before, SoilErosionRule, symptoms);

    if report.immediateActions == [] {
      report := report.(immediateActions := report.immediateActions + [MonitorMoisture]);
      report := report.(immediateActions := report.immediateActions + [RemoveDebris]);
    }

    if report.cropsToPlant == [] {
      report := report.(cropsToPlant := DefaultCrops);
    }

    ApplyTable(EmptyReport, symptoms);
  }

  /** Applying the table is firing its four rules in order. */
  lemma ApplyTable(rep: Report, symptoms: seq<string>)
    ensures ApplyRules(rep, Rules, symptoms) ==
            Fire(Fire(Fire(Fire(rep, WaterLoggingRule, symptoms), YellowLeavesRule, symptoms),
                      RootRotRule, symptoms), SoilErosionRule, symptoms)
  {
    var s := symptoms;
    var rest1, rest2, rest3 := Rules[1..], Rules[2..], Rules[3..];
    assert rest1[0] == YellowLeavesRule && rest2[0] == RootRotRule && rest3[0] == SoilErosionRule;
    assert rest1[1..] == rest2 && rest2[1..] == rest3 && rest3[1..] == [];
    var r1 := Fire(rep, WaterLoggingRule, s);
    var r2 := Fire(r1, YellowLeavesRule, s);
    var r3 := Fire(r2, RootRotRule, s);
    var r4 := Fire(r3, SoilErosionRule, s);
    assert ApplyRules(r4, [], s) == r4;
    assert ApplyRules(r3, rest3, s) == r4;
    assert ApplyRules(r2, rest2, s) == r4;
    assert ApplyRules(r1, rest1, s) == r4;
  }

  /** What firing one rule does to each list. */
  lemma FireLists(rep: Report, rule: Rule, symptoms: seq<string>)
    ensures var fires := rule.symptom in symptoms;
            var r := Fire(rep, rule, symptoms);
            && r.problem == rep.problem
            && r.reasons == rep.reasons + (if fires then rule.reasons else [])
            && r.immediateActions == rep.immediateActions + (if fires then rule.actions else [])
            && r.prevention == rep.prevention + (if fires then rule.prevention else [])
            && r.fertilizers == rep.fertilizers + (if fires then rule.fertilizers else [])
            && r.cropsToPlant == rep.cropsToPlant + (if fires then rule.plant else [])
            && r.cropsToAvoid == rep.cropsToAvoid + (if fires then rule.avoid else [])
  {
    if rule.symptom !in symptoms {
      assert rep.reasons + [] == rep.reasons && rep.immediateActions + [] == rep.immediateActions;
      assert rep.prevention + [] == rep.prevention && rep.fertilizers + [] == rep.fertilizers;
      assert rep.cropsToPlant + [] == rep.cropsToPlant && rep.cropsToAvoid + [] == rep.cropsToAvoid;
    }
  }

  /** No recognised symptom is a member of `symptoms`. */
  predicate NoneRecognised(symptoms: seq<string>)
  {
    forall x :: x in Recognised ==> x !in symptoms
  }

  /** Whatever the input, the report names the flood problem and always has
      something to do and something to plant. */
  lemma DiagnoseAlwaysActionable(symptoms: seq<string>)
    ensures Diagnose(symptoms).problem == FloodProblem
    ensures Diagnose(symptoms).immediateActions != []
    ensures Diagnose(symptoms).cropsToPlant != []
  {
    var s := symptoms;
    ApplyTable(EmptyReport, s);
    var r1 := Fire(EmptyReport, WaterLoggingRule, s);
    var r2 := Fire(r1, YellowLeavesRule, s);
    var r3 := Fire(r2, RootRotRule, s);
    FireLists(EmptyReport, WaterLoggingRule, s);
    FireLists(r1, YellowLeavesRule, s);
    FireLists(r2, RootRotRule, s);
    FireLists(r3, SoilErosionRule, s);
  }

  /** With no recognised symptom the report is exactly the defaults. */
  lemma DiagnoseNoSymptoms(symptoms: seq<string>)
    requires NoneRecognised(symptoms)
    ensures Diagnose(symptoms) ==
            Report(FloodProblem, [], DefaultActions, [], [], DefaultCrops, [])
  {
    assert WaterLogging !in symptoms && YellowLeaves !in symptoms;
    assert RootRot !in symptoms && SoilErosion !in symptoms;
    var s := symptoms;
    ApplyTable(EmptyReport, s);
    var r1 := Fire(EmptyReport, WaterLoggingRule, s);
    var r2 := Fire(r1, YellowLeavesRule, s);
    var r3 := Fire(r2, RootRotRule, s);
    FireLists(EmptyReport, WaterLoggingRule, s);
    FireLists(r1, YellowLeavesRule, s);
    FireLists(r2, RootRotRule, s);
    FireLists(r3, SoilErosionRule, s);
  }

  /** The default actions appear exactly when no recognised symptom is
      present: every rule adds an action of its own. */
  lemma DefaultActionsIffNoneRecognised(symptoms: seq<string>)
    ensures Diagnose(symptoms).immediateActions == DefaultActions <==> NoneRecognised(symptoms)
  {
    var s := symptoms;
    ApplyTable(EmptyReport, s);
    var r1 := Fire(EmptyReport, WaterLoggingRule, s);
    var r2 := Fire(r1, YellowLeavesRule, s);
    var r3 := Fire(r2, RootRotRule, s);
    FireLists(EmptyReport, WaterLoggingRule, s);
    FireLists(r1, YellowLeavesRule, s);
    FireLists(r2, RootRotRule, s);
    FireLists(r3, SoilErosionRule, s);
    if NoneRecognised(symptoms) {
      assert WaterLogging !in symptoms && YellowLeaves !in symptoms;
      assert RootRot !in symptoms && SoilErosion !in symptoms;
    } else {
      var acts := ApplyRules(EmptyReport, Rules, symptoms).immediateActions;
      assert acts != [] && acts[0] != MonitorMoisture;
    }
  }

  /** One reason per recognised symptom present, in the fixed order water
      logging, yellow leaves, root rot, soil erosion. */
  lemma ReasonsInFixedOrder(symptoms: seq<string>)
    ensures Diagnose(symptoms).reasons ==
            (if WaterLogging in symptoms then [HypoxiaReason] else []) +
            (if YellowLeaves in symptoms then [LeachingReason] else []) +
            (if RootRot in symptoms then [FungalReason] else []) +
            (if SoilErosion in symptoms then [TopsoilReason] else [])
  {
    var s := symptoms;
    ApplyTable(EmptyReport, s);
    var r1 := Fire(EmptyReport, WaterLoggingRule, s);
    var r2 := Fire(r1, YellowLeavesRule, s);
    var r3 := Fire(r2, RootRotRule, s);
    FireLists(EmptyReport, WaterLoggingRule, s);
    FireLists(r1, YellowLeavesRule, s);
    FireLists(r2, RootRotRule, s);
    FireLists(r3, SoilErosionRule, s);
  }

  /** Fertilizers are recommended exactly when the leaves are yellow. */
  lemma FertilizersIffYellowLeaves(symptoms: seq<string>)
    ensures Diagnose(symptoms).fertilizers ==
            if YellowLeaves in symptoms then [Urea, FoliarNpk] else []
    ensures Diagnose(symptoms).fertilizers != [] <==> YellowLeaves in symptoms
  {
    var s := symptoms;
    ApplyTable(EmptyReport, s);
    var r1 := Fire(EmptyReport, WaterLoggingRule, s);
    var r2 := Fire(r1, YellowLeavesRule, s);
    var r3 := Fire(r2, RootRotRule, s);
    FireLists(EmptyReport, WaterLoggingRule, s);
    FireLists(r1, YellowLeavesRule, s);
    FireLists(r2, RootRotRule, s);
    FireLists(r3, SoilErosionRule, s);
  }

  /** Rice and jute are suggested exactly when the field is waterlogged;
      otherwise the default crops are. */
  lemma CropsToPlantRule(symptoms: seq<string>)
    ensures Diagnose(symptoms).cropsToPlant ==
            if WaterLogging in symptoms then [PlantRice, PlantJute] else DefaultCrops
  {
    var s := symptoms;
    ApplyTable(EmptyReport, s);
    var r1 := Fire(EmptyReport, WaterLoggingRule, s);
    var r2 := Fire(r1, YellowLeavesRule, s);
    var r3 := Fire(r2, RootRotRule, s);
    FireLists(EmptyReport, WaterLoggingRule, s);
    FireLists(r1, YellowLeavesRule, s);
    FireLists(r2, RootRotRule, s);
    FireLists(r3, SoilErosionRule, s);
  }

  /** Applying rules depends only on which of their symptoms are members. */
  lemma {:induction false} ApplyRulesCongruent(rep: Report, rules: seq<Rule>,
                                               a: seq<string>, b: seq<string>)
    requires forall r :: r in rules ==> (r.symptom in a <==> r.symptom in b)
    ensures ApplyRules(rep, rules, a) == ApplyRules(rep, rules, b)
    decreases |rules|
  {
    if rules != [] {
      assert rules[0] in rules;
      assert Fire(rep, rules[0], a) == Fire(rep, rules[0], b);
      ApplyRulesCongruent(Fire(rep, rules[0], a), rules[1..], a, b);
    }
  }

  /** The report depends only on which recognised symptoms are present:
      unknown symptoms make no difference. */
  lemma DiagnoseDependsOnlyOnRecognised(a: seq<string>, b: seq<string>)
    requires forall x :: x in Recognised ==> (x in a <==> x in b)
    ensures Diagnose(a) == Diagnose(b)
  {
    forall r | r in Rules
      ensures r.symptom in a <==> r.symptom in b
    {
      assert r.symptom in Recognised;
    }
    ApplyRulesCongruent(EmptyReport, Rules, a, b);
  }

  /** Listing the same symptoms in another order, or with repetitions,
      gives the same report. */
  lemma DiagnoseIgnoresOrderAndDuplicates(a: seq<string>, b: seq<string>)
    requires forall x :: x in a <==> x in b
    ensures Diagnose(a) == Diagnose(b)
  {
    DiagnoseDependsOnlyOnRecognised(a, b);
  }
}
