/** Validity through the statement builders: every blank node a builder mentions
    is one it minted, or one minted before it, so a valid graph stays valid
    after `medication`, `addFill`, `addMedList`, `addFillList` and
    `addProblemList`. */
module Validity {
  import opened Wrappers
  import opened Fields
  import opened Graph
  import opened Composites
  import opened Entities
  import opened Properties

  // ---------------------------------------------------------------- confined effects

  lemma BelowLater(n: Node, start: nat, later: nat)
    requires BlankBelow(n, start) && start <= later
    ensures BlankBelow(n, later)
  {
  }

  lemma WhenConfined(c: bool, e: Effect, start: nat)
    requires Confined(e, start)
    ensures Confined(When(c, e), start)
  {
  }

  lemma PlainConfined(ts: set<Triple>, start: nat)
    requires forall t | t in ts :: TripleBelow(t, start)
    ensures Confined(Plain(ts), start)
  {
  }

  /** `g.add((p, pred, self.codedValue(...)))` mentions only the new coded value
      and nodes minted before it. */
  lemma CodedLinkConfined(start: nat, p: Node, pred: Node, codeClass: Node, uri: string,
                          title: Field, system: Field, identifier: Field)
    requires BlankBelow(p, start) && BlankBelow(codeClass, start) && !pred.Blank?
    ensures Confined(CodedLinkEffect(start, p, pred, codeClass, uri, title, system, identifier), start)
  {
    var cv := CodedValueEffect(start, codeClass, uri, title, system, identifier);
    assert Confined(cv, start);
  }

  lemma ValueLinkConfined(start: nat, p: Node, pred: Node, value: Field, units: Field)
    requires BlankBelow(p, start) && !pred.Blank?
    ensures Confined(ValueLinkEffect(start, p, pred, value, units), start)
  {
    var vu := ValueAndUnitEffect(start, value, units);
    assert Confined(vu, start);
  }

  lemma PharmacyConfined(start: nat, obj: Record, prefix: string)
    ensures Confined(PharmacyEffect(start, obj, prefix), start)
  {
    if !AllFalsy(obj, prefix, PharmacySuffixes) {
      PharmacyEffectShape(start, obj, prefix);
    }
  }

  lemma ProviderConfined(start: nat, obj: Record, prefix: string)
    ensures Confined(ProviderEffect(start, obj, prefix), start)
  {
    if !AllFalsy(obj, prefix, ProviderSuffixes) {
      ProviderEffectShape(start, obj, prefix);
    }
  }

  lemma MedicationHeadConfined(start: nat, m: Medication)
    ensures Confined(MedicationHeadEffect(start, m), start)
  {
    var n := Uri(m.uri);
    var e0 := Effect({Triple(n, RdfType, Term(Sp, "Medication"))}, 0, Some(n));
    var link := CodedLinkEffect(After(start, e0), n, Term(Sp, "drugName"), Term(SpCode, "RxNorm_Semantic"),
                                RxnUri + Render(m.drugNameIdentifier), m.drugNameTitle, Str(RxnUri), m.drugNameIdentifier);
    CodedLinkConfined(After(start, e0), n, Term(Sp, "drugName"), Term(SpCode, "RxNorm_Semantic"),
                      RxnUri + Render(m.drugNameIdentifier), m.drugNameTitle, Str(RxnUri), m.drugNameIdentifier);
    ThenConfined(e0, link, start);
    var e1 := Then(e0, link);
    PlainConfined({Triple(n, Term(Sp, "startDate"), Lit(m.startDate)),
                   Triple(n, Term(Sp, "instructions"), Lit(m.instructions))}, After(start, e1));
    ThenConfined(e1, Plain({Triple(n, Term(Sp, "startDate"), Lit(m.startDate)),
                            Triple(n, Term(Sp, "instructions"), Lit(m.instructions))}), start);
  }

  lemma MedicationTailConfined(start: nat, n: Node, m: Medication)
    requires !n.Blank?
    ensures Confined(MedicationTailEffect(start, n, m), start)
  {
    var q := ValueLinkEffect(start, n, Term(Sp, "quantity"), m.quantityValue, m.quantityUnit);
    ValueLinkConfined(start, n, Term(Sp, "quantity"), m.quantityValue, m.quantityUnit);
    WhenConfined(HasQuantity(m), q, start);
    var f3 := When(HasQuantity(m), q);
    var fr := ValueLinkEffect(After(start, f3), n, Term(Sp, "frequency"), m.frequencyValue, m.frequencyUnit);
    ValueLinkConfined(After(start, f3), n, Term(Sp, "frequency"), m.frequencyValue, m.frequencyUnit);
    WhenConfined(HasFrequency(m), fr, After(start, f3));
    ThenConfined(f3, When(HasFrequency(m), fr), start);
    var f4 := Then(f3, When(HasFrequency(m), fr));
    var end := Plain({Triple(n, Term(Sp, "endDate"), Lit(m.endDate))});
    WhenConfined(Truthy(m.endDate), end, After(start, f4));
    ThenConfined(f4, When(Truthy(m.endDate), end), start);
    var f5 := Then(f4, When(Truthy(m.endDate), end));
    var pv := CodedLinkEffect(After(start, f5), n, Term(Sp, "provenance"), Term(SpCode, "MedicationProvenance"),
                              MedProvUri + Render(m.provenanceIdentifier), m.provenanceTitle, Str(MedProvUri), m.provenanceIdentifier);
    CodedLinkConfined(After(start, f5), n, Term(Sp, "provenance"), Term(SpCode, "MedicationProvenance"),
                      MedProvUri + Render(m.provenanceIdentifier), m.provenanceTitle, Str(MedProvUri), m.provenanceIdentifier);
    WhenConfined(HasProvenance(m), pv, After(start, f5));
    ThenConfined(f5, When(HasProvenance(m), pv), start);
  }

  /** `medication` mentions only the blank nodes it mints. */
  lemma MedicationConfined(start: nat, m: Medication)
    ensures Confined(MedicationEffect(start, m), start)
  {
    var head := MedicationHeadEffect(start, m);
    MedicationHeadConfined(start, m);
    MedicationTailConfined(After(start, head), Uri(m.uri), m);
    ThenConfined(head, MedicationTailEffect(After(start, head), Uri(m.uri), m), start);
  }

  /** A fill's pharmacy or provider sub-node, linked from the fill's URI, after
      what the fill added before it. */
  lemma PartyStepConfined(e: Effect, rf: Node, pred: Node, party: Effect, start: nat)
    requires !rf.Blank? && !pred.Blank? && Confined(e, start) && Confined(party, After(start, e))
    ensures Confined(Then(e, Linked(rf, pred, party)), start)
  {
    LinkedConfined(rf, pred, party, After(start, e));
    ThenConfined(e, Linked(rf, pred, party), start);
  }

  lemma QuantityStepConfined(e: Effect, c: bool, rf: Node, pred: Node, value: Field, units: Field, start: nat)
    requires !rf.Blank? && !pred.Blank? && Confined(e, start)
    ensures Confined(Then(e, When(c, ValueLinkEffect(After(start, e), rf, pred, value, units))), start)
  {
    ValueLinkConfined(After(start, e), rf, pred, value, units);
    WhenConfined(c, ValueLinkEffect(After(start, e), rf, pred, value, units), After(start, e));
    ThenConfined(e, When(c, ValueLinkEffect(After(start, e), rf, pred, value, units)), start);
  }

  lemma FillHeadConfined(start: nat, fill: Fill)
    ensures Confined(FillHeadEffect(start, fill), start)
  {
    var rf := Uri(fill.uri);
    var e0 := Effect(FillLiterals(rf, fill), 0, Some(rf));
    var ph := PharmacyEffect(After(start, e0), fill.obj, "pharmacy");
    PharmacyConfined(After(start, e0), fill.obj, "pharmacy");
    PartyStepConfined(e0, rf, Term(Sp, "pharmacy"), ph, start);
    var e1 := Then(e0, Linked(rf, Term(Sp, "pharmacy"), ph));
    var pr := ProviderEffect(After(start, e1), fill.obj, "provider");
    ProviderConfined(After(start, e1), fill.obj, "provider");
    PartyStepConfined(e1, rf, Term(Sp, "provider"), pr, start);
    var e2 := Then(e1, Linked(rf, Term(Sp, "provider"), pr));
    QuantityStepConfined(e2, HasQuantityDispensed(fill), rf, Term(Sp, "quantityDispensed"),
                         fill.quantityDispensedValue, fill.quantityDispensedUnit, start);
  }

  /** A medication node given to `addFill` that was minted before it. */
  predicate MedBelow(medNode: Option<Node>, start: nat)
  {
    medNode.Some? ==> BlankBelow(medNode.value, start)
  }

  lemma FillLinksBelow(rf: Node, patient: Node, fill: Fill, medNode: Option<Node>, uriOnly: bool, bound: nat)
    requires !rf.Blank? && BlankBelow(patient, bound) && MedBelow(medNode, bound)
    ensures forall t | t in FillLinks(rf, patient, fill, medNode, uriOnly) :: TripleBelow(t, bound)
  {
  }

  lemma ThenPlainConfined(e: Effect, ts: set<Triple>, start: nat)
    requires Confined(e, start) && forall t | t in ts :: TripleBelow(t, After(start, e))
    ensures Confined(Then(e, Plain(ts)), start)
  {
  }

  /** `addFill` mentions only the blank nodes it mints, the patient anchor and
      the medication node it is given. */
  lemma FillConfined(start: nat, patient: Node, fill: Fill, medNode: Option<Node>, uriOnly: bool)
    requires BlankBelow(patient, start) && MedBelow(medNode, start)
    ensures Confined(FillEffect(start, patient, fill, medNode, uriOnly), start)
  {
    var head := FillHeadEffect(start, fill);
    FillHeadConfined(start, fill);
    BelowLater(patient, start, After(start, head));
    if medNode.Some? {
      BelowLater(medNode.value, start, After(start, head));
    }
    FillLinksBelow(Uri(fill.uri), patient, fill, medNode, uriOnly, After(start, head));
    ThenPlainConfined(head, FillLinks(Uri(fill.uri), patient, fill, medNode, uriOnly), start);
  }

  lemma {:induction false} FillsConfined(start: nat, patient: Node, fills: seq<Fill>, medNode: Option<Node>, uriOnly: bool)
    requires BlankBelow(patient, start) && MedBelow(medNode, start)
    ensures Confined(FillsEffect(start, patient, fills, medNode, uriOnly), start)
    decreases |fills|
  {
    if |fills| > 0 {
      var e := FillEffect(start, patient, fills[0], medNode, uriOnly);
      FillConfined(start, patient, fills[0], medNode, uriOnly);
      BelowLater(patient, start, After(start, e));
      if medNode.Some? {
        BelowLater(medNode.value, start, After(start, e));
      }
      FillsConfined(After(start, e), patient, fills[1..], medNode, uriOnly);
      ThenConfined(e, FillsEffect(After(start, e), patient, fills[1..], medNode, uriOnly), start);
    }
  }

  lemma MedEntryConfined(start: nat, patient: Node, m: Medication, fills: seq<Fill>)
    requires BlankBelow(patient, start)
    ensures Confined(MedEntryEffect(start, patient, m, fills), start)
  {
    var n := Uri(m.uri);
    var e0 := MedicationEffect(start, m);
    MedicationConfined(start, m);
    BelowLater(patient, start, After(start, e0));
    PlainConfined({Triple(n, BelongsTo, patient)}, After(start, e0));
    ThenConfined(e0, Plain({Triple(n, BelongsTo, patient)}), start);
    var e1 := Then(e0, Plain({Triple(n, BelongsTo, patient)}));
    FillsConfined(After(start, e1), patient, fills, Some(n), true);
    ThenConfined(e1, FillsEffect(After(start, e1), patient, fills, Some(n), true), start);
  }

  lemma {:induction false} MedListConfined(start: nat, patient: Node, meds: seq<Medication>,
                                           fulfillments: Medication -> seq<Fill>)
    requires BlankBelow(patient, start)
    ensures Confined(MedListEffect(start, patient, meds, fulfillments), start)
    decreases |meds|
  {
    if |meds| > 0 {
      var e := MedEntryEffect(start, patient, meds[0], fulfillments(meds[0]));
      MedEntryConfined(start, patient, meds[0], fulfillments(meds[0]));
      BelowLater(patient, start, After(start, e));
      MedListConfined(After(start, e), patient, meds[1..], fulfillments);
      ThenConfined(e, MedListEffect(After(start, e), patient, meds[1..], fulfillments), start);
    }
  }

  lemma BuildConfined(start: nat, patient: Node, f: Fill)
    requires f.medication.Some? && BlankBelow(patient, start)
    ensures Confined(BuildEffect(start, patient, f), start)
  {
    var m := f.medication.value;
    var n := Uri(m.uri);
    var e0 := MedicationEffect(start, m);
    MedicationConfined(start, m);
    BelowLater(patient, start, After(start, e0));
    PlainConfined({Triple(n, BelongsTo, patient)}, After(start, e0));
    ThenConfined(e0, Plain({Triple(n, BelongsTo, patient)}), start);
    var e1 := Then(e0, Plain({Triple(n, BelongsTo, patient)}));
    BelowLater(patient, start, After(start, e1));
    FillConfined(After(start, e1), patient, f, Some(n), false);
    ThenConfined(e1, FillEffect(After(start, e1), patient, f, Some(n), false), start);
  }

  /** Every node in `addedMeds` was minted before `start`; in a run they are all URIs. */
  predicate CacheBelow(cache: map<int, Node>, start: nat)
  {
    forall id | id in cache :: BlankBelow(cache[id], start)
  }

  lemma StepConfined(start: nat, patient: Node, cache: map<int, Node>, f: Fill)
    requires f.medication.Some? && BlankBelow(patient, start) && CacheBelow(cache, start)
    ensures Confined(StepEffect(start, patient, cache, f), start)
  {
    var id := f.medication.value.id;
    if Reusable(cache, id) {
      FillConfined(start, patient, f, Some(cache[id]), false);
    } else {
      BuildConfined(start, patient, f);
    }
  }

  lemma {:induction false} FillListConfined(start: nat, patient: Node, cache: map<int, Node>, fills: seq<Fill>)
    requires HasMedications(fills) && BlankBelow(patient, start) && CacheBelow(cache, start)
    ensures Confined(FillListEffect(start, patient, cache, fills), start)
    decreases |fills|
  {
    if |fills| > 0 {
      var e := StepEffect(start, patient, cache, fills[0]);
      StepConfined(start, patient, cache, fills[0]);
      var next := NextCache(cache, fills[0]);
      BelowLater(patient, start, After(start, e));
      forall id | id in next ensures BlankBelow(next[id], After(start, e)) {
        if id in cache && next[id] == cache[id] {
          BelowLater(cache[id], start, After(start, e));
        }
      }
      assert HasMedications(fills[1..]) by {
        forall k | 0 <= k < |fills[1..]| ensures fills[1..][k].medication.Some? {
          assert fills[1..][k] == fills[k + 1];
        }
      }
      FillListConfined(After(start, e), patient, next, fills[1..]);
      ThenConfined(e, FillListEffect(After(start, e), patient, next, fills[1..]), start);
    }
  }

  lemma ProblemConfined(start: nat, patient: Node, prob: Problem)
    requires BlankBelow(patient, start)
    ensures Confined(ProblemEffect(start, patient, prob), start)
  {
    var n := Uri(prob.uri);
    var e0 := Effect(ProblemLiterals(n, prob), 0, Some(n));
    var link := CodedLinkEffect(After(start, e0), n, Term(Sp, "problemName"), Term(SpCode, "SNOMED"),
                                SnomedUri + Render(prob.nameIdentifier), prob.nameTitle, Str(SnomedUri), prob.nameIdentifier);
    CodedLinkConfined(After(start, e0), n, Term(Sp, "problemName"), Term(SpCode, "SNOMED"),
                      SnomedUri + Render(prob.nameIdentifier), prob.nameTitle, Str(SnomedUri), prob.nameIdentifier);
    ThenConfined(e0, link, start);
    var e1 := Then(e0, link);
    BelowLater(patient, start, After(start, e1));
    PlainConfined({Triple(n, BelongsTo, patient)}, After(start, e1));
    ThenConfined(e1, Plain({Triple(n, BelongsTo, patient)}), start);
  }

  lemma {:induction false} ProblemListConfined(start: nat, patient: Node, probs: seq<Problem>)
    requires BlankBelow(patient, start)
    ensures Confined(ProblemListEffect(start, patient, probs), start)
    decreases |probs|
  {
    if |probs| > 0 {
      var e := ProblemEffect(start, patient, probs[0]);
      ProblemConfined(start, patient, probs[0]);
      BelowLater(patient, start, After(start, e));
      ProblemListConfined(After(start, e), patient, probs[1..]);
      ThenConfined(e, ProblemListEffect(After(start, e), patient, probs[1..]), start);
    }
  }

  // ---------------------------------------------------------------- valid graphs stay valid

  /** `medication` on a valid graph leaves a valid graph. */
  lemma MedicationValid(pg: PatientGraph, m: Medication)
    requires Valid(pg)
    ensures Valid(MedicationNode(pg, m).pg) && Grows(pg, MedicationNode(pg, m).pg)
  {
    MedicationConfined(pg.next, m);
    ApplyConfined(pg, MedicationEffect(pg.next, m));
  }

  /** `addFill` on a valid graph, given a medication node already in it (or a
      URI), leaves a valid graph. */
  lemma AddFillValid(pg: PatientGraph, fill: Fill, medNode: Option<Node>, uriOnly: bool)
    requires Valid(pg) && MedBelow(medNode, pg.next)
    ensures Valid(AddFill(pg, fill, medNode, uriOnly))
  {
    FillConfined(pg.next, pg.patient, fill, medNode, uriOnly);
    ApplyConfined(pg, FillEffect(pg.next, pg.patient, fill, medNode, uriOnly));
  }

  /** `addMedList` on a valid graph leaves a valid graph. */
  lemma MedListValid(pg: PatientGraph, meds: seq<Medication>, fulfillments: Medication -> seq<Fill>)
    requires Valid(pg)
    ensures Valid(AddMedList(pg, meds, fulfillments))
  {
    MedListConfined(pg.next, pg.patient, meds, fulfillments);
    ApplyConfined(pg, MedListEffect(pg.next, pg.patient, meds, fulfillments));
  }

  /** `addFillList` on a valid graph leaves a valid graph. */
  lemma FillListValid(pg: PatientGraph, fills: seq<Fill>)
    requires Valid(pg) && HasMedications(fills)
    ensures Valid(AddFillList(pg, fills).pg)
  {
    FillListConfined(pg.next, pg.patient, map[], fills);
    ApplyConfined(pg, FillListEffect(pg.next, pg.patient, map[], fills));
  }

  /** `addProblemList` on a valid graph leaves a valid graph. */
  lemma ProblemListValid(pg: PatientGraph, probs: seq<Problem>)
    requires Valid(pg)
    ensures Valid(AddProblemList(pg, probs))
  {
    ProblemListConfined(pg.next, pg.patient, probs);
    ApplyConfined(pg, ProblemListEffect(pg.next, pg.patient, probs));
  }
}
