/** The patient's RDF graph: a set of triples (adding a triple twice leaves one
    copy, as the underlying store does), the patient anchor node, and a counter
    that numbers the blank nodes in the order they are minted. */
module Graph {
  import opened Wrappers
  import opened Fields

  /** The vocabularies the builders draw their terms from. */
  datatype Namespace = Rdf | Sp | SpCode | Dcterms | Foaf | Vcard

  /** The namespace IRIs; a term's full IRI is its namespace IRI followed by its local name. */
  function NamespaceIri(ns: Namespace): string
  {
    match ns
    case Rdf => "http://www.w3.org/1999/02/22-rdf-syntax-ns#"
    case Sp => "http://smartplatforms.org/terms#"
    case SpCode => "http://smartplatforms.org/terms/codes/"
    case Dcterms => "http://purl.org/dc/terms/"
    case Foaf => "http://xmlns.com/foaf/0.1/"
    case Vcard => "http://www.w3.org/2006/vcard/ns#"
  }

  datatype Node =
    | Blank(id: nat)                      // BNode(), the id-th one minted
    | Uri(iri: string)                    // URIRef(s) for a record or code URI
    | Term(ns: Namespace, local: string)  // NS['local'], a vocabulary term
    | Lit(value: Field)                   // Literal(v)
    | Nil                                 // Python None written into a triple

  datatype Triple = Triple(s: Node, p: Node, o: Node)

  const RdfType := Term(Rdf, "type")
  const BelongsTo := Term(Sp, "belongsTo")

  /** Python truthiness of a node: URIRef and Literal are strings, so an empty one is falsy. */
  predicate NodeTruthy(n: Node)
  {
    match n
    case Blank(_) => true
    case Uri(iri) => iri != ""
    case Term(_, _) => true
    case Lit(v) => Truthy(v)
    case Nil => false
  }

  /** The node a builder's result stands for when it is used as a triple's object. */
  function Target(n: Option<Node>): Node
  {
    if n.Some? then n.value else Nil
  }

  datatype PatientGraph = PatientGraph(triples: set<Triple>, patient: Node, next: nat)
  {
    /** `g.add(t)` */
    function Add(t: Triple): PatientGraph
    {
      this.(triples := triples + {t})
    }

    /** `if c: g.add(t)` */
    function AddIf(c: bool, t: Triple): PatientGraph
    {
      if c then Add(t) else this
    }

    /** `BNode()`: the new node is `Blank(next)`. */
    function Mint(): PatientGraph
    {
      this.(next := next + 1)
    }
  }

  /** A builder's result: the grown graph and the node it returns, if any. */
  datatype Built = Built(pg: PatientGraph, node: Option<Node>)

  predicate BlankBelow(n: Node, bound: nat)
  {
    n.Blank? ==> n.id < bound
  }

  predicate TripleBelow(t: Triple, bound: nat)
  {
    BlankBelow(t.s, bound) && BlankBelow(t.p, bound) && BlankBelow(t.o, bound)
  }

  /** Every blank node in use was minted already, so `Blank(next)` is unused. */
  predicate Valid(pg: PatientGraph)
  {
    && pg.patient.Blank?
    && pg.patient.id < pg.next
    && forall t | t in pg.triples :: TripleBelow(t, pg.next)
  }

  /** The graph only grows: no triple is removed, the anchor stays, the counter does not go back. */
  predicate Grows(pg: PatientGraph, pg': PatientGraph)
  {
    pg.triples <= pg'.triples && pg'.patient == pg.patient && pg.next <= pg'.next
  }

  /** What a builder contributes: the triples it adds, how many blank nodes it
      mints, and the node it returns. */
  datatype Effect = Effect(added: set<Triple>, blanks: nat, node: Option<Node>)

  const NoEffect := Effect({}, 0, None)

  /** The first blank id left free by an effect that mints from `start` on. */
  function After(start: nat, e: Effect): nat
  {
    start + e.blanks
  }

  function Apply(pg: PatientGraph, e: Effect): PatientGraph
  {
    pg.(triples := pg.triples + e.added, next := After(pg.next, e))
  }

  /** An effect that mints its blanks from `start` on and mentions no other blank. */
  predicate Confined(e: Effect, start: nat)
  {
    && (forall t | t in e.added :: TripleBelow(t, start + e.blanks))
    && (e.node.Some? && e.node.value.Blank? ==> e.node.value.id < start + e.blanks)
  }

  /** `{(s, p, o)}` when the builder returned a node `o`, nothing otherwise. */
  function EdgeTo(s: Node, p: Node, o: Option<Node>): set<Triple>
  {
    if o.Some? then {Triple(s, p, o.value)} else {}
  }

  lemma ApplyConfined(pg: PatientGraph, e: Effect)
    requires Valid(pg) && Confined(e, pg.next)
    ensures Valid(Apply(pg, e)) && Grows(pg, Apply(pg, e))
  {
  }

  /** `PatientGraph.__init__`: a new graph holds the one triple typing the patient
      anchor as a medical record. */
  function Init(): (pg: PatientGraph)
    ensures Valid(pg)
    ensures pg.triples == {Triple(pg.patient, RdfType, Term(Sp, "MedicalRecord"))}
  {
    var patient := Blank(0);
    PatientGraph({}, patient, 0).Mint().Add(Triple(patient, RdfType, Term(Sp, "MedicalRecord")))
  }

  /** `addStatement`: links `s` to the patient anchor and adds nothing else. */
  function AddStatement(pg: PatientGraph, s: Node): (r: PatientGraph)
    ensures Triple(s, BelongsTo, pg.patient) in r.triples
    ensures r.triples - pg.triples <= {Triple(s, BelongsTo, pg.patient)}
    ensures Grows(pg, r) && r.next == pg.next
    ensures Valid(pg) && BlankBelow(s, pg.next) ==> Valid(r)
  {
    pg.Add(Triple(s, BelongsTo, pg.patient))
  }
}
