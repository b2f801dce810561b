/** The statement builders: medications, fulfillments (fills), the medication
    list, the fill list and the problem list. Each builder follows the source's
    sequence of adds and is proved to have the effect of a closed-form
    description; the property lemmas at the end of the module read the
    promised edges off those descriptions. */
module Entities {
  import opened Wrappers
  import opened Fields
  import opened Graph
  import opened Composites

  /** `RXN_URI % ""`, `SNOMED_URI % ""` and `MED_PROV_URI % ""`: the code URIs are
      these prefixes followed by the rendered identifier. */
  const RxnUri := "http://purl.bioontology.org/ontology/RXNORM/"
  const SnomedUri := "http://purl.bioontology.org/ontology/SNOMEDCT/"
  const MedProvUri := "http://smartplatforms.org/terms/codes/MedicationProvenance#"

  /** The fields of a stored medication the builders read; `uri` is what `m.uri()` returns. */
  datatype Medication = Medication(
    id: int, uri: string,
    drugNameIdentifier: Field, drugNameTitle: Field,
    startDate: Field, instructions: Field,
    quantityValue: Field, quantityUnit: Field,
    frequencyValue: Field, frequencyUnit: Field,
    endDate: Field,
    provenanceIdentifier: Field, provenanceTitle: Field, provenanceSystem: Field)

  /** A stored fill. `uri` is what `fill.uri('fullfillments')` returns; `obj`
      holds the `pharmacy_*` and `provider_*` attributes the sub-node builders read. */
  datatype Fill = Fill(
    uri: string, date: Field, dispenseDaysSupply: Field, pbm: Field,
    quantityDispensedValue: Field, quantityDispensedUnit: Field,
    medication: Option<Medication>, obj: Record)

  /** A stored problem; `uri` is what `prob.uri()` returns. */
  datatype Problem = Problem(
    uri: string, startDate: Field, endDate: Field, notes: Field,
    nameIdentifier: Field, nameTitle: Field)

  // ---------------------------------------------------------------- step effects

  /** The effect of a step the source performs only when `c` holds. */
  function When(c: bool, e: Effect): Effect
  {
    if c then e else NoEffect
  }

  /** Plain adds: no blank node minted, no node returned. */
  function Plain(ts: set<Triple>): Effect
  {
    Effect(ts, 0, None)
  }

  /** The effect of `g.add((p, pred, self.codedValue(...)))`: the coded value and
      an edge to it, to None when `codedValue` returns None. */
  function CodedLinkEffect(start: nat, p: Node, pred: Node, codeClass: Node, uri: string,
                           title: Field, system: Field, identifier: Field): Effect
  {
    var cv := CodedValueEffect(start, codeClass, uri, title, system, identifier);
    Effect(cv.added + {Triple(p, pred, Target(cv.node))}, cv.blanks, None)
  }

  /** The effect of `g.add((p, pred, self.valueAndUnit(value, units)))`. */
  function ValueLinkEffect(start: nat, p: Node, pred: Node, value: Field, units: Field): Effect
  {
    var vu := ValueAndUnitEffect(start, value, units);
    Effect(vu.added + {Triple(p, pred, Target(vu.node))}, vu.blanks, None)
  }

  function LinkCoded(b: Built, pred: Node, codeClass: Node, uri: string, title: Field, system: Field, identifier: Field): (r: Built)
    requires b.node.Some?
    ensures r.node == b.node
    ensures r.pg == Apply(b.pg, CodedLinkEffect(b.pg.next, b.node.value, pred, codeClass, uri, title, system, identifier))
  {
    var cv := CodedValue(b.pg, codeClass, uri, title, system, identifier);
    Built(cv.pg.Add(Triple(b.node.value, pred, Target(cv.node))), b.node)
  }

  function LinkValueAndUnit(b: Built, pred: Node, value: Field, units: Field): (r: Built)
    requires b.node.Some?
    ensures r.node == b.node
    ensures r.pg == Apply(b.pg, ValueLinkEffect(b.pg.next, b.node.value, pred, value, units))
  {
    var vu := ValueAndUnit(b.pg, value, units);
    Built(vu.pg.Add(Triple(b.node.value, pred, Target(vu.node))), b.node)
  }

  /** `sub = self.pharmacy(obj, prefix); if sub: g.add((p, sp:pharmacy, sub))` */
  function LinkPharmacy(b: Built, obj: Record, prefix: string): (r: Built)
    requires b.node.Some?
    ensures r.node == b.node
    ensures r.pg == Apply(b.pg, Linked(b.node.value, Term(Sp, "pharmacy"), PharmacyEffect(b.pg.next, obj, prefix)))
  {
    var ph := Pharmacy(b.pg, obj, prefix);
    LinkStep(b.pg, ph, PharmacyEffect(b.pg.next, obj, prefix), b.node.value, Term(Sp, "pharmacy"));
    Built(ph.pg.AddIf(ph.node.Some?, Triple(b.node.value, Term(Sp, "pharmacy"), Target(ph.node))), b.node)
  }

  /** `sub = self.provider(obj, prefix); if sub: g.add((p, sp:provider, sub))` */
  function LinkProvider(b: Built, obj: Record, prefix: string): (r: Built)
    requires b.node.Some?
    ensures r.node == b.node
    ensures r.pg == Apply(b.pg, Linked(b.node.value, Term(Sp, "provider"), ProviderEffect(b.pg.next, obj, prefix)))
  {
    var pv := Provider(b.pg, obj, prefix);
    LinkStep(b.pg, pv, ProviderEffect(b.pg.next, obj, prefix), b.node.value, Term(Sp, "provider"));
    Built(pv.pg.AddIf(pv.node.Some?, Triple(b.node.value, Term(Sp, "provider"), Target(pv.node))), b.node)
  }

  lemma ApplyNothing(pg: PatientGraph)
    ensures Apply(pg, NoEffect) == pg
  {
  }

  /** `addStatement` as an effect. */
  lemma StatementStep(pg: PatientGraph, s: Node)
    ensures AddStatement(pg, s) == Apply(pg, Plain({Triple(s, BelongsTo, pg.patient)}))
  {
  }

  lemma AddIfStep(pg: PatientGraph, c: bool, t: Triple)
    ensures pg.AddIf(c, t) == Apply(pg, When(c, Plain({t})))
  {
  }

  function LinkValueAndUnitIf(b: Built, c: bool, pred: Node, value: Field, units: Field): (r: Built)
    requires b.node.Some?
    ensures r.node == b.node
    ensures r.pg == Apply(b.pg, When(c, ValueLinkEffect(b.pg.next, b.node.value, pred, value, units)))
  {
    ApplyNothing(b.pg);
    if c then LinkValueAndUnit(b, pred, value, units) else b
  }

  function LinkCodedIf(b: Built, c: bool, pred: Node, codeClass: Node, uri: string, title: Field, system: Field, identifier: Field): (r: Built)
    requires b.node.Some?
    ensures r.node == b.node
    ensures r.pg == Apply(b.pg, When(c, CodedLinkEffect(b.pg.next, b.node.value, pred, codeClass, uri, title, system, identifier)))
  {
    ApplyNothing(b.pg);
    if c then LinkCoded(b, pred, codeClass, uri, title, system, identifier) else b
  }

  // ---------------------------------------------------------------- medication

  /** The edges `medication` always attaches to its node `n`: type, drug name, start date, instructions. */
  function MedicationHeadEffect(start: nat, m: Medication): (e: Effect)
  {
    var n := Uri(m.uri);
    var e0 := Effect({Triple(n, RdfType, Term(Sp, "Medication"))}, 0, Some(n));
    var e1 := Then(e0, CodedLinkEffect(After(start, e0), n, Term(Sp, "drugName"), Term(SpCode, "RxNorm_Semantic"),
                                       RxnUri + Render(m.drugNameIdentifier), m.drugNameTitle, Str(RxnUri), m.drugNameIdentifier));
    Then(e1, Plain({Triple(n, Term(Sp, "startDate"), Lit(m.startDate)),
                    Triple(n, Term(Sp, "instructions"), Lit(m.instructions))}))
  }

  predicate HasQuantity(m: Medication) { Truthy(m.quantityValue) && Truthy(m.quantityUnit) }
  predicate HasFrequency(m: Medication) { Truthy(m.frequencyValue) && Truthy(m.frequencyUnit) }
  predicate HasProvenance(m: Medication)
  {
    Truthy(m.provenanceIdentifier) && Truthy(m.provenanceTitle) && Truthy(m.provenanceSystem)
  }

  /** The edges `medication` attaches to `n` only under a condition: quantity,
      frequency, end date and provenance. */
  function MedicationTailEffect(start: nat, n: Node, m: Medication): (e: Effect)
  {
    var f3 := When(HasQuantity(m), ValueLinkEffect(start, n, Term(Sp, "quantity"), m.quantityValue, m.quantityUnit));
    var f4 := Then(f3, When(HasFrequency(m), ValueLinkEffect(After(start, f3), n, Term(Sp, "frequency"), m.frequencyValue, m.frequencyUnit)));
    var f5 := Then(f4, When(Truthy(m.endDate), Plain({Triple(n, Term(Sp, "endDate"), Lit(m.endDate))})));
    Then(f5, When(HasProvenance(m),
                  CodedLinkEffect(After(start, f5), n, Term(Sp, "provenance"), Term(SpCode, "MedicationProvenance"),
                                  MedProvUri + Render(m.provenanceIdentifier), m.provenanceTitle, Str(MedProvUri), m.provenanceIdentifier)))
  }

  function MedicationEffect(start: nat, m: Medication): (e: Effect)
  {
    var head := MedicationHeadEffect(start, m);
    Then(head, MedicationTailEffect(After(start, head), Uri(m.uri), m))
  }

  function MedicationHead(pg: PatientGraph, m: Medication): (r: Built)
    ensures r.node == Some(Uri(m.uri))
    ensures Produces(pg, r, MedicationHeadEffect(pg.next, m))
  {
    var n := Uri(m.uri);
    var b0 := Built(pg.Add(Triple(n, RdfType, Term(Sp, "Medication"))), Some(n));
    var b1 := LinkCoded(b0, Term(Sp, "drugName"), Term(SpCode, "RxNorm_Semantic"),
                        RxnUri + Render(m.drugNameIdentifier), m.drugNameTitle, Str(RxnUri), m.drugNameIdentifier);
    var b2 := Built(b1.pg.Add(Triple(n, Term(Sp, "startDate"), Lit(m.startDate)))
                         .Add(Triple(n, Term(Sp, "instructions"), Lit(m.instructions))), b1.node);
    var e0 := Effect({Triple(n, RdfType, Term(Sp, "Medication"))}, 0, Some(n));
    var f1 := CodedLinkEffect(After(pg.next, e0), n, Term(Sp, "drugName"), Term(SpCode, "RxNorm_Semantic"),
                              RxnUri + Render(m.drugNameIdentifier), m.drugNameTitle, Str(RxnUri), m.drugNameIdentifier);
    ThenStep(pg, b0, e0, b1.pg, f1);
    ThenStep(pg, b1, Then(e0, f1), b2.pg, Plain({Triple(n, Term(Sp, "startDate"), Lit(m.startDate)),
                                                  Triple(n, Term(Sp, "instructions"), Lit(m.instructions))}));
    b2
  }

  function MedicationTail(b: Built, m: Medication): (r: Built)
    requires b.node.Some?
    ensures r.node == b.node
    ensures r.pg == Apply(b.pg, MedicationTailEffect(b.pg.next, b.node.value, m))
  {
    var n := b.node.value;
    var start := b.pg.next;
    var b3 := LinkValueAndUnitIf(b, HasQuantity(m), Term(Sp, "quantity"), m.quantityValue, m.quantityUnit);
    var f3 := When(HasQuantity(m), ValueLinkEffect(start, n, Term(Sp, "quantity"), m.quantityValue, m.quantityUnit));
    var b4 := LinkValueAndUnitIf(b3, HasFrequency(m), Term(Sp, "frequency"), m.frequencyValue, m.frequencyUnit);
    var g4 := When(HasFrequency(m), ValueLinkEffect(After(start, f3), n, Term(Sp, "frequency"), m.frequencyValue, m.frequencyUnit));
    ApplyThen(b.pg, f3, g4);
    var f4 := Then(f3, g4);
    var b5 := Built(b4.pg.AddIf(Truthy(m.endDate), Triple(n, Term(Sp, "endDate"), Lit(m.endDate))), b4.node);
    var g5 := When(Truthy(m.endDate), Plain({Triple(n, Term(Sp, "endDate"), Lit(m.endDate))}));
    AddIfStep(b4.pg, Truthy(m.endDate), Triple(n, Term(Sp, "endDate"), Lit(m.endDate)));
    ApplyThen(b.pg, f4, g5);
    var f5 := Then(f4, g5);
    var b6 := LinkCodedIf(b5, HasProvenance(m), Term(Sp, "provenance"), Term(SpCode, "MedicationProvenance"),
                          MedProvUri + Render(m.provenanceIdentifier), m.provenanceTitle, Str(MedProvUri), m.provenanceIdentifier);
    ApplyThen(b.pg, f5, When(HasProvenance(m),
                             CodedLinkEffect(After(start, f5), n, Term(Sp, "provenance"), Term(SpCode, "MedicationProvenance"),
                                             MedProvUri + Render(m.provenanceIdentifier), m.provenanceTitle, Str(MedProvUri), m.provenanceIdentifier)));
    b6
  }

  /** `medication(m)` for a present medication: the node `URIRef(m.uri())` typed
      sp:Medication, always with a drug name, start date and instructions; a
      quantity and a frequency only when both their value and unit are truthy;
      an end date only when it is truthy; a provenance only when its identifier,
      title and system are all truthy. */
  function MedicationNode(pg: PatientGraph, m: Medication): (r: Built)
    ensures r.node == Some(Uri(m.uri))
    ensures Produces(pg, r, MedicationEffect(pg.next, m))
  {
    var head := MedicationHead(pg, m);
    var r := MedicationTail(head, m);
    ThenStep(pg, head, MedicationHeadEffect(pg.next, m), r.pg,
             MedicationTailEffect(After(pg.next, MedicationHeadEffect(pg.next, m)), Uri(m.uri), m));
    r
  }

  // ---------------------------------------------------------------- fill

  predicate HasQuantityDispensed(fill: Fill)
  {
    Truthy(fill.quantityDispensedValue) && Truthy(fill.quantityDispensedUnit)
  }

  /** The literal edges of a fulfillment node: type, date and days of supply
      always, the PBM only when it is truthy. */
  function FillLiterals(rf: Node, fill: Fill): set<Triple>
  {
    {Triple(rf, RdfType, Term(Sp, "Fulfillment")),
     Triple(rf, Term(Dcterms, "date"), Lit(fill.date)),
     Triple(rf, Term(Sp, "dispenseDaysSupply"), Lit(fill.dispenseDaysSupply))}
      + (if Truthy(fill.pbm) then {Triple(rf, Term(Sp, "pbm"), Lit(fill.pbm))} else {})
  }

  /** The edges between a fulfillment `rf` and its medication, and its statement
      edge: `medNode -> rf` when `medNode` is truthy; `rf -> medication` when the
      fill has a medication, to the medication's URI when `uriOnly`, otherwise to
      `medNode` (None when absent). */
  function FillLinks(rf: Node, patient: Node, fill: Fill, medNode: Option<Node>, uriOnly: bool): set<Triple>
  {
    (if medNode.Some? && NodeTruthy(medNode.value) then {Triple(medNode.value, Term(Sp, "fulfillment"), rf)} else {})
      + (if fill.medication.Some? then
           {Triple(rf, Term(Sp, "medication"), if uriOnly then Uri(fill.medication.value.uri) else Target(medNode))}
         else {})
      + {Triple(rf, BelongsTo, patient)}
  }

  /** What `addFill` adds before its medication links: literals, pharmacy, provider and quantity dispensed. */
  function FillHeadEffect(start: nat, fill: Fill): (e: Effect)
  {
    var rf := Uri(fill.uri);
    var e0 := Effect(FillLiterals(rf, fill), 0, Some(rf));
    var e1 := Then(e0, Linked(rf, Term(Sp, "pharmacy"), PharmacyEffect(After(start, e0), fill.obj, "pharmacy")));
    var e2 := Then(e1, Linked(rf, Term(Sp, "provider"), ProviderEffect(After(start, e1), fill.obj, "provider")));
    Then(e2, When(HasQuantityDispensed(fill),
                  ValueLinkEffect(After(start, e2), rf, Term(Sp, "quantityDispensed"),
                                  fill.quantityDispensedValue, fill.quantityDispensedUnit)))
  }

  function FillEffect(start: nat, patient: Node, fill: Fill, medNode: Option<Node>, uriOnly: bool): (e: Effect)
  {
    Then(FillHeadEffect(start, fill), Plain(FillLinks(Uri(fill.uri), patient, fill, medNode, uriOnly)))
  }

  function FillHead(pg: PatientGraph, fill: Fill): (r: Built)
    ensures r.node == Some(Uri(fill.uri))
    ensures Produces(pg, r, FillHeadEffect(pg.next, fill))
  {
    var rf := Uri(fill.uri);
    var b0 := Built(pg.Add(Triple(rf, RdfType, Term(Sp, "Fulfillment")))
                      .Add(Triple(rf, Term(Dcterms, "date"), Lit(fill.date)))
                      .Add(Triple(rf, Term(Sp, "dispenseDaysSupply"), Lit(fill.dispenseDaysSupply)))
                      .AddIf(Truthy(fill.pbm), Triple(rf, Term(Sp, "pbm"), Lit(fill.pbm))), Some(rf));
    var e0 := Effect(FillLiterals(rf, fill), 0, Some(rf));
    assert Produces(pg, b0, e0);
    var b1 := LinkPharmacy(b0, fill.obj, "pharmacy");
    var f1 := Linked(rf, Term(Sp, "pharmacy"), PharmacyEffect(After(pg.next, e0), fill.obj, "pharmacy"));
    ThenStep(pg, b0, e0, b1.pg, f1);
    var e1 := Then(e0, f1);
    var b2 := LinkProvider(b1, fill.obj, "provider");
    var f2 := Linked(rf, Term(Sp, "provider"), ProviderEffect(After(pg.next, e1), fill.obj, "provider"));
    ThenStep(pg, b1, e1, b2.pg, f2);
    var e2 := Then(e1, f2);
    var b3 := LinkValueAndUnitIf(b2, HasQuantityDispensed(fill), Term(Sp, "quantityDispensed"),
                                 fill.quantityDispensedValue, fill.quantityDispensedUnit);
    ThenStep(pg, b2, e2, b3.pg, When(HasQuantityDispensed(fill),
                                     ValueLinkEffect(After(pg.next, e2), rf, Term(Sp, "quantityDispensed"),
                                                     fill.quantityDispensedValue, fill.quantityDispensedUnit)));
    b3
  }

  /** The end of `addFill`: the links between the fulfillment and its medication, then `addStatement`. */
  function FillTail(g: PatientGraph, rf: Node, fill: Fill, medNode: Option<Node>, uriOnly: bool): (r: PatientGraph)
    ensures r == Apply(g, Plain(FillLinks(rf, g.patient, fill, medNode, uriOnly)))
  {
    var g4 := if medNode.Some? && NodeTruthy(medNode.value) then g.Add(Triple(medNode.value, Term(Sp, "fulfillment"), rf)) else g;
    var g5 := if fill.medication.Some? && uriOnly then g4.Add(Triple(rf, Term(Sp, "medication"), Uri(fill.medication.value.uri)))
              else if fill.medication.Some? && !uriOnly then g4.Add(Triple(rf, Term(Sp, "medication"), Target(medNode)))
              else g4;
    AddStatement(g5, rf)
  }

  /** `addFill(fill, medNode, med_uri_only)`: a fulfillment node `URIRef(fill.uri(...))`
      with its literals, pharmacy, provider and quantity dispensed, the links to
      and from its medication, and its statement edge to the patient. */
  function AddFill(pg: PatientGraph, fill: Fill, medNode: Option<Node>, uriOnly: bool): (r: PatientGraph)
    ensures r == Apply(pg, FillEffect(pg.next, pg.patient, fill, medNode, uriOnly))
  {
    var head := FillHead(pg, fill);
    var r := FillTail(head.pg, Uri(fill.uri), fill, medNode, uriOnly);
    ApplyThen(pg, FillHeadEffect(pg.next, fill), Plain(FillLinks(Uri(fill.uri), pg.patient, fill, medNode, uriOnly)));
    r
  }

  /** `addFill` keeps every triple already there and adds the medication links. */
  lemma AddFillLinks(pg: PatientGraph, fill: Fill, medNode: Option<Node>, uriOnly: bool)
    ensures var r := AddFill(pg, fill, medNode, uriOnly);
      Grows(pg, r) && FillLinks(Uri(fill.uri), pg.patient, fill, medNode, uriOnly) <= r.triples
  {
  }

  /** The fills of one medication, added in order. */
  function FillsEffect(start: nat, patient: Node, fills: seq<Fill>, medNode: Option<Node>, uriOnly: bool): (e: Effect)
    decreases |fills|
  {
    if |fills| == 0 then NoEffect
    else
      var e := FillEffect(start, patient, fills[0], medNode, uriOnly);
      Then(e, FillsEffect(After(start, e), patient, fills[1..], medNode, uriOnly))
  }

  /** The inner loop of `addMedList`: `for fill in fills: addFill(fill, medNode)`. */
  function AddFills(pg: PatientGraph, fills: seq<Fill>, medNode: Option<Node>, uriOnly: bool): (r: PatientGraph)
    ensures r == Apply(pg, FillsEffect(pg.next, pg.patient, fills, medNode, uriOnly))
    decreases |fills|
  {
    if |fills| == 0 then
      ApplyNothing(pg);
      pg
    else
      var g := AddFill(pg, fills[0], medNode, uriOnly);
      var r := AddFills(g, fills[1..], medNode, uriOnly);
      var e := FillEffect(pg.next, pg.patient, fills[0], medNode, uriOnly);
      ApplyThen(pg, e, FillsEffect(After(pg.next, e), pg.patient, fills[1..], medNode, uriOnly));
      r
  }

  // ---------------------------------------------------------------- medication list

  /** One iteration of `addMedList`: the medication, its statement edge, its fills. */
  function MedEntryEffect(start: nat, patient: Node, m: Medication, fills: seq<Fill>): (e: Effect)
  {
    var n := Uri(m.uri);
    var e0 := MedicationEffect(start, m);
    var e1 := Then(e0, Plain({Triple(n, BelongsTo, patient)}));
    Then(e1, FillsEffect(After(start, e1), patient, fills, Some(n), true))
  }

  function AddMedEntry(pg: PatientGraph, m: Medication, fills: seq<Fill>): (r: PatientGraph)
    ensures r == Apply(pg, MedEntryEffect(pg.next, pg.patient, m, fills))
  {
    var n := Uri(m.uri);
    var med := MedicationNode(pg, m);
    var g := AddStatement(med.pg, n);
    var e0 := MedicationEffect(pg.next, m);
    StatementStep(med.pg, n);
    ApplyThen(pg, e0, Plain({Triple(n, BelongsTo, pg.patient)}));
    var e1 := Then(e0, Plain({Triple(n, BelongsTo, pg.patient)}));
    var r := AddFills(g, fills, Some(n), true);
    ApplyThen(pg, e1, FillsEffect(After(pg.next, e1), pg.patient, fills, Some(n), true));
    r
  }

  function MedListEffect(start: nat, patient: Node, meds: seq<Medication>, fulfillments: Medication -> seq<Fill>): (e: Effect)
    decreases |meds|
  {
    if |meds| == 0 then NoEffect
    else
      var e := MedEntryEffect(start, patient, meds[0], fulfillments(meds[0]));
      Then(e, MedListEffect(After(start, e), patient, meds[1..], fulfillments))
  }

  /** `addMedList(meds)`: each medication node, its statement edge, and each of
      its fulfillments linked to it by URI. `fulfillments(m)` is the sequence
      `m.fulfillments.all()` yields. */
  function AddMedList(pg: PatientGraph, meds: seq<Medication>, fulfillments: Medication -> seq<Fill>): (r: PatientGraph)
    ensures r == Apply(pg, MedListEffect(pg.next, pg.patient, meds, fulfillments))
    decreases |meds|
  {
    if |meds| == 0 then
      ApplyNothing(pg);
      pg
    else
      var g := AddMedEntry(pg, meds[0], fulfillments(meds[0]));
      var r := AddMedList(g, meds[1..], fulfillments);
      var e := MedEntryEffect(pg.next, pg.patient, meds[0], fulfillments(meds[0]));
      ApplyThen(pg, e, MedListEffect(After(pg.next, e), pg.patient, meds[1..], fulfillments));
      r
  }

  // ---------------------------------------------------------------- fill list

  /** The state of `addFillList`'s loop: the graph, the `addedMeds` dictionary
      from medication id to medication node, and the medications a node was
      built for, in the order they were built. */
  datatype FillListRun = FillListRun(pg: PatientGraph, cache: map<int, Node>, built: seq<Medication>)

  /** Every fill has a medication; `addFillList` reads `f.medication.id` unguarded. */
  predicate HasMedications(fills: seq<Fill>)
  {
    forall i | 0 <= i < |fills| :: fills[i].medication.Some?
  }

  /** `addedMeds.get(id, None)` is a truthy node. */
  predicate Reusable(cache: map<int, Node>, id: int)
  {
    id in cache && NodeTruthy(cache[id])
  }

  /** The ids of the fills' medications. */
  function MedIds(fills: seq<Fill>): set<int>
    requires HasMedications(fills)
  {
    set i | 0 <= i < |fills| :: fills[i].medication.value.id
  }

  lemma MedIdsCons(fills: seq<Fill>)
    requires HasMedications(fills) && |fills| > 0
    ensures MedIds(fills) == {fills[0].medication.value.id} + MedIds(fills[1..])
  {
    forall id | id in MedIds(fills) ensures id in {fills[0].medication.value.id} + MedIds(fills[1..]) {
      var i :| 0 <= i < |fills| && fills[i].medication.value.id == id;
      if i > 0 { assert fills[1..][i - 1] == fills[i]; }
    }
  }

  /** The node a fill links to in the run after its iteration: its medication's cached node. */
  function MedNodeOf(run: FillListRun, f: Fill): Node
    requires f.medication.Some?
  {
    if f.medication.value.id in run.cache then run.cache[f.medication.value.id] else Nil
  }

  /** The fill links to the node cached for its medication, and back when that node is truthy. */
  predicate FillLinked(run: FillListRun, f: Fill)
    requires f.medication.Some?
  {
    && Triple(Uri(f.uri), Term(Sp, "medication"), MedNodeOf(run, f)) in run.pg.triples
    && (NodeTruthy(MedNodeOf(run, f)) ==> Triple(MedNodeOf(run, f), Term(Sp, "fulfillment"), Uri(f.uri)) in run.pg.triples)
  }

  /** What an iteration that builds the medication adds: the medication, its
      statement edge, then the fill linked to the medication's node. */
  function BuildEffect(start: nat, patient: Node, f: Fill): (e: Effect)
    requires f.medication.Some?
  {
    var m := f.medication.value;
    var n := Uri(m.uri);
    var e0 := MedicationEffect(start, m);
    var e1 := Then(e0, Plain({Triple(n, BelongsTo, patient)}));
    Then(e1, FillEffect(After(start, e1), patient, f, Some(n), false))
  }

  /** What one iteration of `addFillList` adds, given `addedMeds` before it: the
      fill alone when the cached node is truthy, otherwise the medication too. */
  function StepEffect(start: nat, patient: Node, cache: map<int, Node>, f: Fill): (e: Effect)
    requires f.medication.Some?
  {
    var id := f.medication.value.id;
    if Reusable(cache, id) then FillEffect(start, patient, f, Some(cache[id]), false)
    else BuildEffect(start, patient, f)
  }

  /** `addedMeds` after one iteration. */
  function NextCache(cache: map<int, Node>, f: Fill): (c: map<int, Node>)
    requires f.medication.Some?
  {
    var m := f.medication.value;
    if Reusable(cache, m.id) then cache else cache[m.id := Uri(m.uri)]
  }

  /** What the loop of `addFillList` adds over `fills`, starting from `cache`. */
  function FillListEffect(start: nat, patient: Node, cache: map<int, Node>, fills: seq<Fill>): (e: Effect)
    requires HasMedications(fills)
    decreases |fills|
  {
    if |fills| == 0 then NoEffect
    else
      var e := StepEffect(start, patient, cache, fills[0]);
      Then(e, FillListEffect(After(start, e), patient, NextCache(cache, fills[0]), fills[1..]))
  }

  /** An iteration that finds a truthy cached node: only the fill is added. */
  function ReuseMedication(run: FillListRun, f: Fill): (r: FillListRun)
    requires f.medication.Some? && Reusable(run.cache, f.medication.value.id)
    ensures r.pg == Apply(run.pg, FillEffect(run.pg.next, run.pg.patient, f, Some(run.cache[f.medication.value.id]), false))
    ensures r.cache == run.cache && r.built == run.built
    ensures FillLinked(r, f)
  {
    var n := run.cache[f.medication.value.id];
    AddFillLinks(run.pg, f, Some(n), false);
    run.(pg := AddFill(run.pg, f, Some(n), false))
  }

  /** An iteration that finds no truthy cached node: the medication is built,
      added as a statement and cached, then the fill is added. */
  function BuildMedication(run: FillListRun, f: Fill): (r: FillListRun)
    requires f.medication.Some?
    ensures r.pg == Apply(run.pg, BuildEffect(run.pg.next, run.pg.patient, f))
    ensures r.cache == run.cache[f.medication.value.id := Uri(f.medication.value.uri)]
    ensures r.built == run.built + [f.medication.value]
    ensures FillLinked(r, f)
  {
    var m := f.medication.value;
    var n := Uri(m.uri);
    var med := MedicationNode(run.pg, m);
    var g := AddStatement(med.pg, n);
    StatementStep(med.pg, n);
    var e0 := MedicationEffect(run.pg.next, m);
    ApplyThen(run.pg, e0, Plain({Triple(n, BelongsTo, run.pg.patient)}));
    var e1 := Then(e0, Plain({Triple(n, BelongsTo, run.pg.patient)}));
    AddFillLinks(g, f, Some(n), false);
    ApplyThen(run.pg, e1, FillEffect(After(run.pg.next, e1), run.pg.patient, f, Some(n), false));
    FillListRun(AddFill(g, f, Some(n), false), run.cache[m.id := n], run.built + [m])
  }

  /** One iteration of `addFillList`: reuse the cached medication node when it is
      truthy, otherwise build and cache it; then add the fill linked to that node. */
  function FillListStep(run: FillListRun, f: Fill): (r: FillListRun)
    requires f.medication.Some?
    ensures r.pg == Apply(run.pg, StepEffect(run.pg.next, run.pg.patient, run.cache, f))
    ensures Grows(run.pg, r.pg)
    ensures Reusable(run.cache, f.medication.value.id) ==> r.cache == run.cache && r.built == run.built
    ensures !Reusable(run.cache, f.medication.value.id) ==>
      r.cache == run.cache[f.medication.value.id := Uri(f.medication.value.uri)] && r.built == run.built + [f.medication.value]
    ensures FillLinked(r, f)
  {
    var id := f.medication.value.id;
    if Reusable(run.cache, id) then
      assert StepEffect(run.pg.next, run.pg.patient, run.cache, f)
          == FillEffect(run.pg.next, run.pg.patient, f, Some(run.cache[id]), false);
      ReuseMedication(run, f)
    else
      assert StepEffect(run.pg.next, run.pg.patient, run.cache, f) == BuildEffect(run.pg.next, run.pg.patient, f);
      BuildMedication(run, f)
  }

  /** After an iteration, `addedMeds` has a key for the fill's medication id. */
  lemma FillListStepKeys(run: FillListRun, f: Fill)
    requires f.medication.Some?
    ensures FillListStep(run, f).cache.Keys == run.cache.Keys + {f.medication.value.id}
  {
    var id := f.medication.value.id;
    var c := FillListStep(run, f).cache;
    if Reusable(run.cache, id) {
      assert c == run.cache;
    } else {
      assert c == run.cache[id := Uri(f.medication.value.uri)];
    }
  }

  /** The loop of `addFillList` over the remaining fills. */
  function AddFillListFrom(run: FillListRun, fills: seq<Fill>): (r: FillListRun)
    requires HasMedications(fills)
    ensures r.pg == Apply(run.pg, FillListEffect(run.pg.next, run.pg.patient, run.cache, fills))
    ensures Grows(run.pg, r.pg)
    ensures r.cache.Keys == run.cache.Keys + MedIds(fills)
    decreases |fills|
  {
    if |fills| == 0 then
      ApplyNothing(run.pg);
      run
    else
      var next := FillListStep(run, fills[0]);
      var r := AddFillListFrom(next, fills[1..]);
      FillListStepKeys(run, fills[0]);
      MedIdsCons(fills);
      assert r.cache.Keys == run.cache.Keys + ({fills[0].medication.value.id} + MedIds(fills[1..]));
      var e := StepEffect(run.pg.next, run.pg.patient, run.cache, fills[0]);
      assert next.cache == NextCache(run.cache, fills[0]);
      ApplyThen(run.pg, e, FillListEffect(After(run.pg.next, e), run.pg.patient, next.cache, fills[1..]));
      r
  }

  /** `addFillList(fills)`: the loop from an empty `addedMeds`. */
  function AddFillList(pg: PatientGraph, fills: seq<Fill>): (r: FillListRun)
    requires HasMedications(fills)
    ensures r.pg == Apply(pg, FillListEffect(pg.next, pg.patient, map[], fills))
    ensures Grows(pg, r.pg)
    ensures r.cache.Keys == MedIds(fills)
  {
    AddFillListFrom(FillListRun(pg, map[], []), fills)
  }

  // ---------------------------------------------------------------- problem list

  function ProblemLiterals(n: Node, prob: Problem): set<Triple>
  {
    {Triple(n, RdfType, Term(Sp, "Problem")), Triple(n, Term(Sp, "startDate"), Lit(prob.startDate))}
      + (if Truthy(prob.endDate) then {Triple(n, Term(Sp, "endDate"), Lit(prob.endDate))} else {})
      + (if Truthy(prob.notes) then {Triple(n, Term(Sp, "notes"), Lit(prob.notes))} else {})
  }

  function ProblemEffect(start: nat, patient: Node, prob: Problem): (e: Effect)
  {
    var n := Uri(prob.uri);
    var e0 := Effect(ProblemLiterals(n, prob), 0, Some(n));
    var e1 := Then(e0, CodedLinkEffect(After(start, e0), n, Term(Sp, "problemName"), Term(SpCode, "SNOMED"),
                                       SnomedUri + Render(prob.nameIdentifier), prob.nameTitle, Str(SnomedUri), prob.nameIdentifier));
    Then(e1, Plain({Triple(n, BelongsTo, patient)}))
  }

  /** One iteration of `addProblemList`. */
  function AddProblem(pg: PatientGraph, prob: Problem): (r: PatientGraph)
    ensures r == Apply(pg, ProblemEffect(pg.next, pg.patient, prob))
  {
    var n := Uri(prob.uri);
    var b0 := Built(pg.Add(Triple(n, RdfType, Term(Sp, "Problem")))
                      .Add(Triple(n, Term(Sp, "startDate"), Lit(prob.startDate)))
                      .AddIf(Truthy(prob.endDate), Triple(n, Term(Sp, "endDate"), Lit(prob.endDate)))
                      .AddIf(Truthy(prob.notes), Triple(n, Term(Sp, "notes"), Lit(prob.notes))), Some(n));
    var e0 := Effect(ProblemLiterals(n, prob), 0, Some(n));
    assert Produces(pg, b0, e0);
    var b1 := LinkCoded(b0, Term(Sp, "problemName"), Term(SpCode, "SNOMED"),
                        SnomedUri + Render(prob.nameIdentifier), prob.nameTitle, Str(SnomedUri), prob.nameIdentifier);
    var f1 := CodedLinkEffect(After(pg.next, e0), n, Term(Sp, "problemName"), Term(SpCode, "SNOMED"),
                              SnomedUri + Render(prob.nameIdentifier), prob.nameTitle, Str(SnomedUri), prob.nameIdentifier);
    ThenStep(pg, b0, e0, b1.pg, f1);
    var r := AddStatement(b1.pg, n);
    StatementStep(b1.pg, n);
    ApplyThen(pg, Then(e0, f1), Plain({Triple(n, BelongsTo, pg.patient)}));
    r
  }

  function ProblemListEffect(start: nat, patient: Node, probs: seq<Problem>): (e: Effect)
    decreases |probs|
  {
    if |probs| == 0 then NoEffect
    else
      var e := ProblemEffect(start, patient, probs[0]);
      Then(e, ProblemListEffect(After(start, e), patient, probs[1..]))
  }

  /** `addProblemList(problems)`: every problem in order. */
  function AddProblemList(pg: PatientGraph, probs: seq<Problem>): (r: PatientGraph)
    ensures r == Apply(pg, ProblemListEffect(pg.next, pg.patient, probs))
    decreases |probs|
  {
    if |probs| == 0 then
      ApplyNothing(pg);
      pg
    else
      var g := AddProblem(pg, probs[0]);
      var r := AddProblemList(g, probs[1..]);
      var e := ProblemEffect(pg.next, pg.patient, probs[0]);
      ApplyThen(pg, e, ProblemListEffect(After(pg.next, e), pg.patient, probs[1..]));
      r
  }
}
