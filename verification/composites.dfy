/** The sub-node builders shared by the entity builders: coded values, value-and-unit
    pairs, and the field-group nodes (address, telephone, name, pharmacy, provider).
    Each builder mirrors the source's sequence of adds; its contract says it has
    exactly the effect of a closed-form description that mints its blank nodes
    from the graph's counter on. */
module Composites {
  import opened Wrappers
  import opened Fields
  import opened Graph

  /** The builder's result and graph are those of the effect `e` applied to `pg`. */
  predicate Produces(pg: PatientGraph, r: Built, e: Effect)
  {
    r.pg == Apply(pg, e) && r.node == e.node
  }

  /** One builder's effect followed by another's; the node is the first one's. */
  function Then(e: Effect, f: Effect): Effect
  {
    Effect(e.added + f.added, e.blanks + f.blanks, e.node)
  }

  /** A sub-node builder's effect together with the edge from `parent` to the
      sub-node, which exists only when the builder returned one. */
  function Linked(parent: Node, pred: Node, child: Effect): Effect
  {
    Effect(child.added + EdgeTo(parent, pred, child.node), child.blanks, None)
  }

  lemma ApplyThen(pg: PatientGraph, e: Effect, f: Effect)
    ensures Apply(Apply(pg, e), f) == Apply(pg, Then(e, f))
  {
  }

  /** Linking a parent to the result of a sub-node builder only when there is one. */
  lemma LinkStep(pg: PatientGraph, child: Built, e: Effect, parent: Node, pred: Node)
    requires Produces(pg, child, e)
    ensures child.pg.AddIf(child.node.Some?, Triple(parent, pred, Target(child.node))) == Apply(pg, Linked(parent, pred, e))
  {
  }

  /** Linking a parent to the result of a sub-node builder, None included. */
  lemma EdgeAlwaysStep(pg: PatientGraph, child: Built, e: Effect, parent: Node, pred: Node)
    requires Produces(pg, child, e)
    ensures child.pg.Add(Triple(parent, pred, Target(child.node)))
         == Apply(pg, Effect(e.added + {Triple(parent, pred, Target(e.node))}, e.blanks, None))
  {
  }

  lemma ThenStep(pg: PatientGraph, b: Built, e: Effect, g: PatientGraph, f: Effect)
    requires Produces(pg, b, e)
    requires g == Apply(b.pg, f)
    ensures Produces(pg, Built(g, b.node), Then(e, f))
  {
  }

  // ---------------------------------------------------------------- coded values

  /** The triples of a coded value: the wrapping node `cv` (typed CodedValue, with a
      title and a code edge) and the code node `URIRef(uri)`, typed both as the given
      code class and as the general Code, carrying title, system and identifier. */
  function CodedValueTriples(cv: Node, codeClass: Node, uri: string, title: Field, system: Field, identifier: Field): set<Triple>
  {
    var c := Uri(uri);
    {Triple(cv, RdfType, Term(Sp, "CodedValue")),
     Triple(cv, Term(Dcterms, "title"), Lit(title)),
     Triple(cv, Term(Sp, "code"), c),
     Triple(c, RdfType, codeClass),
     Triple(c, RdfType, Term(Sp, "Code")),
     Triple(c, Term(Dcterms, "title"), Lit(title)),
     Triple(c, Term(Sp, "system"), Lit(system)),
     Triple(c, Term(Dcterms, "identifier"), Lit(identifier))}
  }

  /** All five inputs of `codedValue` are falsy. */
  predicate CodedValueEmpty(codeClass: Node, uri: string, title: Field, system: Field, identifier: Field)
  {
    !(NodeTruthy(codeClass) || uri != "" || Truthy(title) || Truthy(system) || Truthy(identifier))
  }

  function CodedValueEffect(start: nat, codeClass: Node, uri: string, title: Field, system: Field, identifier: Field): (e: Effect)
    ensures BlankBelow(codeClass, start) ==> Confined(e, start)
  {
    if CodedValueEmpty(codeClass, uri, title, system, identifier) then NoEffect
    else Effect(CodedValueTriples(Blank(start), codeClass, uri, title, system, identifier), 1, Some(Blank(start)))
  }

  /** `codedValue`: None and no change when all five inputs are falsy; otherwise a
      new CodedValue node and its eight triples, title, system and identifier
      included even when they are themselves empty. */
  function CodedValue(pg: PatientGraph, codeClass: Node, uri: string, title: Field, system: Field, identifier: Field): (r: Built)
    ensures r.node.None? <==> CodedValueEmpty(codeClass, uri, title, system, identifier)
    ensures r.node.None? ==> r.pg == pg
    ensures r.node.Some? ==> r.node.value == Blank(pg.next) && r.pg.next == pg.next + 1
    ensures Produces(pg, r, CodedValueEffect(pg.next, codeClass, uri, title, system, identifier))
  {
    if CodedValueEmpty(codeClass, uri, title, system, identifier) then Built(pg, None)
    else
      var cv := Blank(pg.next);
      var c := Uri(uri);
      var g := pg.Mint()
        .Add(Triple(cv, RdfType, Term(Sp, "CodedValue")))
        .Add(Triple(cv, Term(Dcterms, "title"), Lit(title)))
        .Add(Triple(cv, Term(Sp, "code"), c))
        .Add(Triple(c, RdfType, codeClass))
        .Add(Triple(c, RdfType, Term(Sp, "Code")))
        .Add(Triple(c, Term(Dcterms, "title"), Lit(title)))
        .Add(Triple(c, Term(Sp, "system"), Lit(system)))
        .Add(Triple(c, Term(Dcterms, "identifier"), Lit(identifier)));
      Built(g, Some(cv))
  }

  // ---------------------------------------------------------------- value and unit

  function ValueAndUnitEffect(start: nat, value: Field, units: Field): (e: Effect)
    ensures Confined(e, start)
  {
    if !Truthy(value) && !Truthy(units) then NoEffect
    else
      var v := Blank(start);
      Effect({Triple(v, RdfType, Term(Sp, "ValueAndUnit")),
              Triple(v, Term(Sp, "value"), Lit(value)),
              Triple(v, Term(Sp, "unit"), Lit(units))}, 1, Some(v))
  }

  /** `valueAndUnit`: None only when both inputs are falsy; otherwise a new node
      with both literals attached, even when one of them is empty. */
  function ValueAndUnit(pg: PatientGraph, value: Field, units: Field): (r: Built)
    ensures r.node.None? <==> !Truthy(value) && !Truthy(units)
    ensures r.node.Some? ==> r.node.value == Blank(pg.next) && r.pg.next == pg.next + 1
    ensures r.node.Some? ==> Triple(r.node.value, Term(Sp, "value"), Lit(value)) in r.pg.triples
    ensures r.node.Some? ==> Triple(r.node.value, Term(Sp, "unit"), Lit(units)) in r.pg.triples
    ensures Produces(pg, r, ValueAndUnitEffect(pg.next, value, units))
  {
    if !Truthy(value) && !Truthy(units) then Built(pg, None)
    else
      var v := Blank(pg.next);
      var g := pg.Mint()
        .Add(Triple(v, RdfType, Term(Sp, "ValueAndUnit")))
        .Add(Triple(v, Term(Sp, "value"), Lit(value)))
        .Add(Triple(v, Term(Sp, "unit"), Lit(units)));
      Built(g, Some(v))
  }

  // ---------------------------------------------------------------- field groups

  /** (suffix, predicate) rows: the field `prefix_suffix` a builder reads and the
      edge it attaches to that field's literal when the field is truthy. */
  type EdgeTable = seq<(string, Node)>

  /** One literal edge from `n` per truthy field of the table, none for a falsy one. */
  function LiteralEdges(n: Node, obj: Record, prefix: string, table: EdgeTable): set<Triple>
  {
    set e | e in table && Truthy(obj.attr(AttrName(prefix, e.0))) :: Triple(n, e.1, Lit(obj.attr(AttrName(prefix, e.0))))
  }

  lemma LiteralEdgesCons(n: Node, obj: Record, prefix: string, table: EdgeTable)
    requires |table| > 0
    ensures var e := table[0]; var v := obj.attr(AttrName(prefix, e.0));
      LiteralEdges(n, obj, prefix, table)
        == (if Truthy(v) then {Triple(n, e.1, Lit(v))} else {}) + LiteralEdges(n, obj, prefix, table[1..])
  {
    var e := table[0];
    var v := obj.attr(AttrName(prefix, e.0));
    var rest := LiteralEdges(n, obj, prefix, table[1..]);
    forall t | t in LiteralEdges(n, obj, prefix, table)
      ensures t in (if Truthy(v) then {Triple(n, e.1, Lit(v))} else {}) + rest
    {
      var e' :| e' in table && Truthy(obj.attr(AttrName(prefix, e'.0)))
        && t == Triple(n, e'.1, Lit(obj.attr(AttrName(prefix, e'.0))));
      if e' != e {
        var k :| 0 <= k < |table| && table[k] == e';
        assert table[1..][k - 1] == e';
      }
    }
  }

  /** The source's chain of `if fields[s]: g.add((n, p, Literal(fields[s])))`, one
      test per table row, in the source's order. */
  function AttachTruthy(pg: PatientGraph, n: Node, fields: map<string, Field>, obj: Record, prefix: string, table: EdgeTable): (r: PatientGraph)
    requires forall e | e in table :: e.0 in fields && fields[e.0] == obj.attr(AttrName(prefix, e.0))
    ensures r == pg.(triples := pg.triples + LiteralEdges(n, obj, prefix, table))
    decreases |table|
  {
    if |table| == 0 then pg
    else
      var e := table[0];
      LiteralEdgesCons(n, obj, prefix, table);
      AttachTruthy(pg.AddIf(Truthy(fields[e.0]), Triple(n, e.1, Lit(fields[e.0]))), n, fields, obj, prefix, table[1..])
  }

  /** Every row of the table reads a field of the group. */
  predicate Covers(suffixes: seq<string>, table: EdgeTable)
  {
    forall row | row in table :: row.0 in suffixes
  }

  /** The fields `_obj_fields_by_name` returns agree with the record on every row of a covered table. */
  lemma CoveredFields(obj: Record, prefix: string, suffixes: seq<string>, table: EdgeTable)
    requires |suffixes| > 0 && Covers(suffixes, table)
    requires FieldsByName(obj, prefix, suffixes).Some?
    ensures var fields := FieldsByName(obj, prefix, suffixes).value;
      forall row | row in table :: row.0 in fields && fields[row.0] == obj.attr(AttrName(prefix, row.0))
  {
  }

  function GroupTriples(n: Node, obj: Record, prefix: string, kind: Node, table: EdgeTable): set<Triple>
  {
    {Triple(n, RdfType, kind)} + LiteralEdges(n, obj, prefix, table)
  }

  function GroupEffect(start: nat, obj: Record, prefix: string, suffixes: seq<string>, kind: Node, table: EdgeTable): (e: Effect)
    ensures !kind.Blank? && (forall row | row in table :: !row.1.Blank?) ==> Confined(e, start)
  {
    if AllFalsy(obj, prefix, suffixes) then NoEffect
    else Effect(GroupTriples(Blank(start), obj, prefix, kind, table), 1, Some(Blank(start)))
  }

  /** The shape shared by the field-group builders: None when every field of the
      group is falsy, otherwise a new node of type `kind` with one literal edge
      per truthy field of `table`. */
  function GroupNode(pg: PatientGraph, obj: Record, prefix: string, suffixes: seq<string>, kind: Node, table: EdgeTable): (r: Built)
    requires |suffixes| > 0 && Covers(suffixes, table)
    ensures r.node.None? <==> AllFalsy(obj, prefix, suffixes)
    ensures Produces(pg, r, GroupEffect(pg.next, obj, prefix, suffixes, kind, table))
  {
    var fields := FieldsByName(obj, prefix, suffixes);
    if fields.None? then Built(pg, None)
    else
      var n := Blank(pg.next);
      var g := pg.Mint().Add(Triple(n, RdfType, kind));
      CoveredFields(obj, prefix, suffixes, table);
      Built(AttachTruthy(g, n, fields.value, obj, prefix, table), Some(n))
  }

  const AddressSuffixes := ["country", "city", "postalcode", "region", "street"]
  const AddressEdges: EdgeTable :=
    [("street", Term(Vcard, "street-address")), ("city", Term(Vcard, "locality")),
     ("region", Term(Vcard, "region")), ("postalcode", Term(Vcard, "postal-code")),
     ("country", Term(Vcard, "country"))]

  lemma AddressTableCovered()
    ensures Covers(AddressSuffixes, AddressEdges)
  {
  }

  function AddressEffect(start: nat, obj: Record, prefix: string): (e: Effect)
    ensures Confined(e, start)
  {
    GroupEffect(start, obj, prefix, AddressSuffixes, Term(Vcard, "Address"), AddressEdges)
  }

  /** `address`: None when the five address fields are all falsy; otherwise a
      vcard:Address node with an edge for each truthy field only. */
  function Address(pg: PatientGraph, obj: Record, prefix: string): (r: Built)
    ensures r.node.None? <==> AllFalsy(obj, prefix, AddressSuffixes)
    ensures Produces(pg, r, AddressEffect(pg.next, obj, prefix))
  {
    AddressTableCovered();
    GroupNode(pg, obj, prefix, AddressSuffixes, Term(Vcard, "Address"), AddressEdges)
  }

  const NameSuffixes := ["family", "given", "prefix", "suffix"]
  const NameEdges: EdgeTable :=
    [("family", Term(Vcard, "family-name")), ("given", Term(Vcard, "given-name")),
     ("prefix", Term(Vcard, "honorific-prefix")), ("suffix", Term(Vcard, "honorific-suffix"))]

  lemma NameTableCovered()
    ensures Covers(NameSuffixes, NameEdges)
  {
  }

  function NameEffect(start: nat, obj: Record, prefix: string): (e: Effect)
    ensures Confined(e, start)
  {
    GroupEffect(start, obj, prefix, NameSuffixes, Term(Vcard, "Name"), NameEdges)
  }

  /** `name`: None when the four name fields are all falsy; otherwise a vcard:Name
      node with an edge for each truthy field only. */
  function Name(pg: PatientGraph, obj: Record, prefix: string): (r: Built)
    ensures r.node.None? <==> AllFalsy(obj, prefix, NameSuffixes)
    ensures Produces(pg, r, NameEffect(pg.next, obj, prefix))
  {
    NameTableCovered();
    GroupNode(pg, obj, prefix, NameSuffixes, Term(Vcard, "Name"), NameEdges)
  }

  const TelephoneSuffixes := ["type", "number", "preferred_p"]

  /** A telephone node is typed vcard:Tel, then by its display kind when the type
      field is set and vcard:Pref when it is preferred, and carries its number. */
  function TelephoneTriples(n: Node, obj: Record, prefix: string): set<Triple>
  {
    var kind := obj.attr(AttrName(prefix, "type"));
    var number := obj.attr(AttrName(prefix, "number"));
    var preferred := obj.attr(AttrName(prefix, "preferred_p"));
    {Triple(n, RdfType, Term(Vcard, "Tel"))}
      + (if Truthy(kind) then {Triple(n, RdfType, Term(Vcard, obj.typeDisplay(prefix)))} else {})
      + (if Truthy(preferred) then {Triple(n, RdfType, Term(Vcard, "Pref"))} else {})
      + (if Truthy(number) then {Triple(n, Term(Vcard, "value"), Lit(number))} else {})
  }

  function TelephoneEffect(start: nat, obj: Record, prefix: string): (e: Effect)
    ensures Confined(e, start)
  {
    if AllFalsy(obj, prefix, TelephoneSuffixes) then NoEffect
    else Effect(TelephoneTriples(Blank(start), obj, prefix), 1, Some(Blank(start)))
  }

  /** `telephone`: None when type, number and preferred flag are all falsy;
      otherwise a vcard:Tel node. The source tests the preferred flag twice
      (`fields['preferred_p'] and fields['preferred_p']`), which is one test. */
  function Telephone(pg: PatientGraph, obj: Record, prefix: string): (r: Built)
    ensures r.node.None? <==> AllFalsy(obj, prefix, TelephoneSuffixes)
    ensures Produces(pg, r, TelephoneEffect(pg.next, obj, prefix))
  {
    var fields := FieldsByName(obj, prefix, TelephoneSuffixes);
    if fields.None? then Built(pg, None)
    else
      var f := fields.value;
      assert f["type"] == obj.attr(AttrName(prefix, "type"));
      assert f["number"] == obj.attr(AttrName(prefix, "number"));
      assert f["preferred_p"] == obj.attr(AttrName(prefix, "preferred_p"));
      var t := Blank(pg.next);
      var g := pg.Mint()
        .Add(Triple(t, RdfType, Term(Vcard, "Tel")))
        .AddIf(Truthy(f["type"]), Triple(t, RdfType, Term(Vcard, obj.typeDisplay(prefix))))
        .AddIf(Truthy(f["preferred_p"]) && Truthy(f["preferred_p"]), Triple(t, RdfType, Term(Vcard, "Pref")))
        .AddIf(Truthy(f["number"]), Triple(t, Term(Vcard, "value"), Lit(f["number"])));
      assert g.triples == pg.triples + TelephoneTriples(t, obj, prefix);
      Built(g, Some(t))
  }

  /** The effect of `sub = address(obj, prefix); if sub: g.add((p, vcard:adr, sub))`. */
  function AdrLinkEffect(start: nat, p: Node, obj: Record, prefix: string): (e: Effect)
  {
    Linked(p, Term(Vcard, "adr"), AddressEffect(start, obj, prefix))
  }

  /** The effect of `sub = telephone(obj, prefix); if sub: g.add((p, vcard:tel, sub))`. */
  function TelLinkEffect(start: nat, p: Node, obj: Record, prefix: string): (e: Effect)
  {
    Linked(p, Term(Vcard, "tel"), TelephoneEffect(start, obj, prefix))
  }

  /** Attaching an address to the node of `b`, as `pharmacy` and `provider` both do. */
  function LinkAddress(b: Built, obj: Record, prefix: string): (r: Built)
    requires b.node.Some?
    ensures r.node == b.node
    ensures r.pg == Apply(b.pg, AdrLinkEffect(b.pg.next, b.node.value, obj, prefix))
  {
    var adr := Address(b.pg, obj, prefix);
    LinkStep(b.pg, adr, AddressEffect(b.pg.next, obj, prefix), b.node.value, Term(Vcard, "adr"));
    Built(adr.pg.AddIf(adr.node.Some?, Triple(b.node.value, Term(Vcard, "adr"), Target(adr.node))), b.node)
  }

  /** Attaching a telephone to the node of `b`, as `provider` does twice. */
  function LinkTelephone(b: Built, obj: Record, prefix: string): (r: Built)
    requires b.node.Some?
    ensures r.node == b.node
    ensures r.pg == Apply(b.pg, TelLinkEffect(b.pg.next, b.node.value, obj, prefix))
  {
    var tel := Telephone(b.pg, obj, prefix);
    LinkStep(b.pg, tel, TelephoneEffect(b.pg.next, obj, prefix), b.node.value, Term(Vcard, "tel"));
    Built(tel.pg.AddIf(tel.node.Some?, Triple(b.node.value, Term(Vcard, "tel"), Target(tel.node))), b.node)
  }

  const PharmacySuffixes := ["ncpdpid", "org", "adr_country", "adr_city", "adr_postalcode", "adr_region", "adr_street"]
  const PharmacyEdges: EdgeTable := [("ncpdpid", Term(Sp, "ncpdpId")), ("org", Term(Vcard, "organization-name"))]

  lemma PharmacyTableCovered()
    ensures Covers(PharmacySuffixes, PharmacyEdges)
  {
  }

  function PharmacyEffect(start: nat, obj: Record, prefix: string): (e: Effect)
  {
    var base := GroupEffect(start, obj, prefix, PharmacySuffixes, Term(Sp, "Pharmacy"), PharmacyEdges);
    if base.node.None? then base
    else Then(base, AdrLinkEffect(After(start, base), Blank(start), obj, prefix + "_adr"))
  }

  /** `pharmacy`: None when its seven fields are all falsy; otherwise an sp:Pharmacy
      node with its truthy scalar fields and, only when `address` returns a node,
      a vcard:adr edge to it. */
  function Pharmacy(pg: PatientGraph, obj: Record, prefix: string): (r: Built)
    ensures r.node.None? <==> AllFalsy(obj, prefix, PharmacySuffixes)
    ensures Produces(pg, r, PharmacyEffect(pg.next, obj, prefix))
  {
    PharmacyTableCovered();
    var base := GroupNode(pg, obj, prefix, PharmacySuffixes, Term(Sp, "Pharmacy"), PharmacyEdges);
    if base.node.None? then base
    else
      var e := GroupEffect(pg.next, obj, prefix, PharmacySuffixes, Term(Sp, "Pharmacy"), PharmacyEdges);
      var r := LinkAddress(base, obj, prefix + "_adr");
      ThenStep(pg, base, e, r.pg, AdrLinkEffect(After(pg.next, e), Blank(pg.next), obj, prefix + "_adr"));
      r
  }

  const ProviderSuffixes := ["dea_number", "ethnicity", "npi_number", "preferred_language", "race", "bday", "email", "gender"]
  const ProviderEdges: EdgeTable :=
    [("dea_number", Term(Sp, "deaNumber")), ("ethnicity", Term(Sp, "ethnicity")),
     ("npi_number", Term(Sp, "npiNumber")), ("preferred_language", Term(Sp, "preferredLanguage")),
     ("race", Term(Sp, "race")), ("bday", Term(Vcard, "bday")),
     ("email", Term(Vcard, "email")), ("gender", Term(Foaf, "gender"))]

  lemma ProviderTableCovered()
    ensures Covers(ProviderSuffixes, ProviderEdges)
  {
  }

  /** The effect of `g.add((p, vcard:n, name(obj, prefix)))`: the name sub-node
      and an edge to it that is added even when `name` returns None. */
  function NamedEffect(start: nat, p: Node, obj: Record, prefix: string): (e: Effect)
  {
    var nm := NameEffect(start, obj, prefix);
    Effect(nm.added + {Triple(p, Term(Vcard, "n"), Target(nm.node))}, nm.blanks, None)
  }

  /** What `provider` adds to its node `p` besides the type and the scalar fields,
      minting from `start` on: the name, then the address and the two telephones. */
  function ProviderTailEffect(start: nat, p: Node, obj: Record, prefix: string): (e: Effect)
  {
    var e0 := NamedEffect(start, p, obj, prefix + "_name");
    var e1 := Then(e0, AdrLinkEffect(After(start, e0), p, obj, prefix + "_adr"));
    var e2 := Then(e1, TelLinkEffect(After(start, e1), p, obj, prefix + "_tel_1"));
    Then(e2, TelLinkEffect(After(start, e2), p, obj, prefix + "_tel_2"))
  }

  /** `g.add((p, vcard:n, name(obj, prefix)))` on the node `p` of `b`. */
  function LinkName(b: Built, obj: Record, prefix: string): (r: Built)
    requires b.node.Some?
    ensures r.node == b.node
    ensures r.pg == Apply(b.pg, NamedEffect(b.pg.next, b.node.value, obj, prefix))
  {
    var nm := Name(b.pg, obj, prefix);
    EdgeAlwaysStep(b.pg, nm, NameEffect(b.pg.next, obj, prefix), b.node.value, Term(Vcard, "n"));
    Built(nm.pg.Add(Triple(b.node.value, Term(Vcard, "n"), Target(nm.node))), b.node)
  }

  function ProviderTail(b: Built, obj: Record, prefix: string): (r: Built)
    requires b.node.Some?
    ensures r.node == b.node
    ensures r.pg == Apply(b.pg, ProviderTailEffect(b.pg.next, b.node.value, obj, prefix))
  {
    var p := b.node.value;
    var start := b.pg.next;
    var named := LinkName(b, obj, prefix + "_name");
    var e0 := NamedEffect(start, p, obj, prefix + "_name");
    var withAdr := LinkAddress(named, obj, prefix + "_adr");
    ApplyThen(b.pg, e0, AdrLinkEffect(After(start, e0), p, obj, prefix + "_adr"));
    var e1 := Then(e0, AdrLinkEffect(After(start, e0), p, obj, prefix + "_adr"));
    var withTel1 := LinkTelephone(withAdr, obj, prefix + "_tel_1");
    ApplyThen(b.pg, e1, TelLinkEffect(After(start, e1), p, obj, prefix + "_tel_1"));
    var e2 := Then(e1, TelLinkEffect(After(start, e1), p, obj, prefix + "_tel_1"));
    var withTel2 := LinkTelephone(withTel1, obj, prefix + "_tel_2");
    ApplyThen(b.pg, e2, TelLinkEffect(After(start, e2), p, obj, prefix + "_tel_2"));
    withTel2
  }

  function ProviderEffect(start: nat, obj: Record, prefix: string): (e: Effect)
  {
    var base := GroupEffect(start, obj, prefix, ProviderSuffixes, Term(Sp, "Provider"), ProviderEdges);
    if base.node.None? then base
    else Then(base, ProviderTailEffect(After(start, base), Blank(start), obj, prefix))
  }

  /** `provider`: None when its eight scalar fields are all falsy (the name,
      address and telephone groups do not count); otherwise an sp:Provider node
      with a vcard:n edge to whatever `name` returns, None included, its truthy
      scalar fields, and adr/tel edges only for the sub-nodes that exist. The
      scalar edges are attached before the name here and after it in the
      source; neither mints a node, so the resulting graph is the same. */
  function Provider(pg: PatientGraph, obj: Record, prefix: string): (r: Built)
    ensures r.node.None? <==> AllFalsy(obj, prefix, ProviderSuffixes)
    ensures Produces(pg, r, ProviderEffect(pg.next, obj, prefix))
  {
    ProviderTableCovered();
    var base := GroupNode(pg, obj, prefix, ProviderSuffixes, Term(Sp, "Provider"), ProviderEdges);
    if base.node.None? then base
    else
      var e := GroupEffect(pg.next, obj, prefix, ProviderSuffixes, Term(Sp, "Provider"), ProviderEdges);
      var r := ProviderTail(base, obj, prefix);
      ThenStep(pg, base, e, r.pg, ProviderTailEffect(After(pg.next, e), Blank(pg.next), obj, prefix));
      r
  }
}
