/** The properties the builders promise, read off their closed-form effects:
    what each builder adds, which edges depend on which fields, and that a
    builder never removes anything. */
module Properties {
  import opened Wrappers
  import opened Fields
  import opened Graph
  import opened Composites
  import opened Entities

  /** Some triple of `ts` has subject `s` and predicate `p`. */
  predicate HasEdge(ts: set<Triple>, s: Node, p: Node)
  {
    exists t | t in ts :: t.s == s && t.p == p
  }

  // ---------------------------------------------------------------- coded value, value and unit

  /** The eight triples of a coded value are distinct unless the code class is sp:Code itself. */
  lemma CodedValueEight(cv: Node, codeClass: Node, uri: string, title: Field, system: Field, identifier: Field)
    requires cv != Uri(uri) && codeClass != Term(Sp, "Code")
    ensures |CodedValueTriples(cv, codeClass, uri, title, system, identifier)| == 8
  {
    var c := Uri(uri);
    var t1 := Triple(cv, RdfType, Term(Sp, "CodedValue"));
    var t2 := Triple(cv, Term(Dcterms, "title"), Lit(title));
    var t3 := Triple(cv, Term(Sp, "code"), c);
    var t4 := Triple(c, RdfType, codeClass);
    var t5 := Triple(c, RdfType, Term(Sp, "Code"));
    var t6 := Triple(c, Term(Dcterms, "title"), Lit(title));
    var t7 := Triple(c, Term(Sp, "system"), Lit(system));
    var t8 := Triple(c, Term(Dcterms, "identifier"), Lit(identifier));
    assert t2 != t1;
    assert t3 !in {t1, t2};
    assert t4 !in {t1, t2, t3};
    assert t5 !in {t1, t2, t3, t4};
    assert t6 !in {t1, t2, t3, t4, t5};
    assert t7 !in {t1, t2, t3, t4, t5, t6};
    assert t8 !in {t1, t2, t3, t4, t5, t6, t7};
    assert {t1, t2} == {t1} + {t2};
    assert {t1, t2, t3} == {t1, t2} + {t3};
    assert {t1, t2, t3, t4} == {t1, t2, t3} + {t4};
    assert {t1, t2, t3, t4, t5} == {t1, t2, t3, t4} + {t5};
    assert {t1, t2, t3, t4, t5, t6} == {t1, t2, t3, t4, t5} + {t6};
    assert {t1, t2, t3, t4, t5, t6, t7} == {t1, t2, t3, t4, t5, t6} + {t7};
    assert {t1, t2, t3, t4, t5, t6, t7, t8} == {t1, t2, t3, t4, t5, t6, t7} + {t8};
  }

  /** `codedValue` on a valid graph: nothing when its inputs are all falsy;
      otherwise exactly eight triples, the three about the new node new to the graph. */
  lemma CodedValueAdds(pg: PatientGraph, codeClass: Node, uri: string, title: Field, system: Field, identifier: Field)
    requires Valid(pg) && codeClass != Term(Sp, "Code")
    ensures var r := CodedValue(pg, codeClass, uri, title, system, identifier);
      && (r.node.None? ==> r.pg == pg)
      && (r.node.Some? ==>
            var cv := r.node.value;
            && r.pg.triples == pg.triples + CodedValueTriples(cv, codeClass, uri, title, system, identifier)
            && |CodedValueTriples(cv, codeClass, uri, title, system, identifier)| == 8
            && Triple(cv, RdfType, Term(Sp, "CodedValue")) !in pg.triples
            && Triple(cv, Term(Dcterms, "title"), Lit(title)) !in pg.triples
            && Triple(cv, Term(Sp, "code"), Uri(uri)) !in pg.triples)
      && (BlankBelow(codeClass, pg.next) ==> Valid(r.pg))
  {
    var r := CodedValue(pg, codeClass, uri, title, system, identifier);
    if BlankBelow(codeClass, pg.next) {
      ApplyConfined(pg, CodedValueEffect(pg.next, codeClass, uri, title, system, identifier));
    }
    if r.node.Some? {
      CodedValueEight(r.node.value, codeClass, uri, title, system, identifier);
      assert !TripleBelow(Triple(r.node.value, RdfType, Term(Sp, "CodedValue")), pg.next);
      assert !TripleBelow(Triple(r.node.value, Term(Dcterms, "title"), Lit(title)), pg.next);
      assert !TripleBelow(Triple(r.node.value, Term(Sp, "code"), Uri(uri)), pg.next);
    }
  }

  /** `valueAndUnit` on a valid graph: nothing when both inputs are falsy;
      otherwise three new triples about a new node. */
  lemma ValueAndUnitAdds(pg: PatientGraph, value: Field, units: Field)
    requires Valid(pg)
    ensures var r := ValueAndUnit(pg, value, units);
      && (r.node.None? ==> r.pg == pg)
      && (r.node.Some? ==>
            var v := r.node.value;
            var added := {Triple(v, RdfType, Term(Sp, "ValueAndUnit")), Triple(v, Term(Sp, "value"), Lit(value)),
                          Triple(v, Term(Sp, "unit"), Lit(units))};
            && r.pg.triples - pg.triples == added
            && |added| == 3
            && Valid(r.pg))
  {
    var r := ValueAndUnit(pg, value, units);
    if r.node.Some? {
      var v := r.node.value;
      assert !TripleBelow(Triple(v, RdfType, Term(Sp, "ValueAndUnit")), pg.next);
      assert !TripleBelow(Triple(v, Term(Sp, "value"), Lit(value)), pg.next);
      assert !TripleBelow(Triple(v, Term(Sp, "unit"), Lit(units)), pg.next);
      ApplyConfined(pg, ValueAndUnitEffect(pg.next, value, units));
    }
  }

  // ---------------------------------------------------------------- field groups

  /** No two rows of a table attach the same predicate, and none attaches rdf:type. */
  predicate DistinctEdges(table: EdgeTable)
  {
    && (forall i, j | 0 <= i < j < |table| :: table[i].1 != table[j].1)
    && (forall row | row in table :: row.1 != RdfType && !row.1.Blank?)
  }
  /** No row of `table` from index `k` on has predicate `p`, checked row by row. */
  predicate Unused(p: Node, table: EdgeTable, k: nat)
    decreases |table| - k
  {
    k >= |table| || (table[k].1 != p && Unused(p, table, k + 1))
  }

  /** `DistinctEdges` for the rows from index `k` on, checked row by row so that
      a literal table evaluates. */
  predicate DistinctRows(table: EdgeTable, k: nat)
    decreases |table| - k
  {
    k >= |table| ||
      (table[k].1 != RdfType && !table[k].1.Blank? && Unused(table[k].1, table, k + 1) && DistinctRows(table, k + 1))
  }

  lemma {:induction false} UnusedMeans(p: Node, table: EdgeTable, k: nat)
    requires Unused(p, table, k)
    ensures forall i | k <= i < |table| :: table[i].1 != p
    decreases |table| - k
  {
    if k < |table| {
      UnusedMeans(p, table, k + 1);
    }
  }

  lemma {:induction false} DistinctRowsMeans(table: EdgeTable, k: nat)
    requires DistinctRows(table, k)
    ensures forall i, j | k <= i < j < |table| :: table[i].1 != table[j].1
    ensures forall i | k <= i < |table| :: table[i].1 != RdfType && !table[i].1.Blank?
    decreases |table| - k
  {
    if k < |table| {
      DistinctRowsMeans(table, k + 1);
      UnusedMeans(table[k].1, table, k + 1);
    }
  }

  lemma DistinctRowsEdges(table: EdgeTable)
    requires DistinctRows(table, 0)
    ensures DistinctEdges(table)
  {
    DistinctRowsMeans(table, 0);
    forall row | row in table ensures row.1 != RdfType && !row.1.Blank? {
      var i :| 0 <= i < |table| && table[i] == row;
    }
  }

  /** Each row's predicate leaves `n` exactly when the row's field is truthy, and then to that field's literal. */
  predicate RowsIff(ts: set<Triple>, n: Node, obj: Record, prefix: string, table: EdgeTable)
  {
    forall row | row in table ::
      && (HasEdge(ts, n, row.1) <==> Truthy(obj.attr(AttrName(prefix, row.0))))
      && (Truthy(obj.attr(AttrName(prefix, row.0))) ==> Triple(n, row.1, Lit(obj.attr(AttrName(prefix, row.0)))) in ts)
  }

  /** The predicates a table attaches. */
  function Preds(table: EdgeTable): set<Node>
  {
    set row | row in table :: row.1
  }

  /** A fresh blank node is the subject of no triple of a valid graph. */
  lemma FreshSubject(pg: PatientGraph, p: Node)
    requires Valid(pg)
    ensures !HasEdge(pg.triples, Blank(pg.next), p)
  {
  }

  lemma GroupTriplesRows(n: Node, obj: Record, prefix: string, kind: Node, table: EdgeTable)
    requires DistinctEdges(table)
    ensures forall t | t in GroupTriples(n, obj, prefix, kind, table) :: t.s == n && (t.p == RdfType || t.p in Preds(table))
    ensures RowsIff(GroupTriples(n, obj, prefix, kind, table), n, obj, prefix, table)
  {
    var ts := GroupTriples(n, obj, prefix, kind, table);
    forall row | row in table
      ensures HasEdge(ts, n, row.1) ==> Truthy(obj.attr(AttrName(prefix, row.0)))
    {
      if HasEdge(ts, n, row.1) {
        var t :| t in ts && t.s == n && t.p == row.1;
        var e' :| e' in table && Truthy(obj.attr(AttrName(prefix, e'.0)))
          && t == Triple(n, e'.1, Lit(obj.attr(AttrName(prefix, e'.0))));
        var i :| 0 <= i < |table| && table[i] == e';
        var j :| 0 <= j < |table| && table[j] == row;
        assert i == j;
      }
    }
    forall row | row in table && Truthy(obj.attr(AttrName(prefix, row.0)))
      ensures HasEdge(ts, n, row.1)
    {
      assert Triple(n, row.1, Lit(obj.attr(AttrName(prefix, row.0)))) in ts;
    }
  }

  /** What a field-group builder does to a valid graph: nothing when it returns
      None; otherwise it mints the fresh node, types it, attaches one edge per
      truthy row and no edge for a falsy one, and adds nothing about any other node. */
  lemma GroupNodeAdds(pg: PatientGraph, obj: Record, prefix: string, suffixes: seq<string>, kind: Node, table: EdgeTable)
    requires Valid(pg) && |suffixes| > 0 && Covers(suffixes, table) && DistinctEdges(table) && !kind.Blank?
    ensures var r := GroupNode(pg, obj, prefix, suffixes, kind, table);
      && (r.node.None? ==> r.pg == pg)
      && (r.node.Some? ==>
            var n := r.node.value;
            && n == Blank(pg.next)
            && Valid(r.pg)
            && Triple(n, RdfType, kind) in r.pg.triples
            && (forall t | t in r.pg.triples - pg.triples :: t.s == n)
            && RowsIff(r.pg.triples, n, obj, prefix, table))
  {
    var r := GroupNode(pg, obj, prefix, suffixes, kind, table);
    var e := GroupEffect(pg.next, obj, prefix, suffixes, kind, table);
    if r.node.Some? {
      var n := Blank(pg.next);
      GroupTriplesRows(n, obj, prefix, kind, table);
      ApplyConfined(pg, e);
      forall row | row in table ensures !HasEdge(pg.triples, n, row.1) {
        FreshSubject(pg, row.1);
      }
    }
  }

  lemma AddressTableDistinct()
    ensures DistinctEdges(AddressEdges)
  {
  }

  /** `address` on a valid graph: None and no change when its five fields are all
      falsy; otherwise a fresh vcard:Address node with an edge for exactly the truthy fields. */
  lemma AddressAdds(pg: PatientGraph, obj: Record, prefix: string)
    requires Valid(pg)
    ensures var r := Address(pg, obj, prefix);
      && (r.node.None? <==> AllFalsy(obj, prefix, AddressSuffixes))
      && (r.node.None? ==> r.pg == pg)
      && (r.node.Some? ==>
            var n := r.node.value;
            && n == Blank(pg.next)
            && Valid(r.pg)
            && Triple(n, RdfType, Term(Vcard, "Address")) in r.pg.triples
            && (forall t | t in r.pg.triples - pg.triples :: t.s == n)
            && RowsIff(r.pg.triples, n, obj, prefix, AddressEdges))
  {
    AddressTableCovered();
    AddressTableDistinct();
    GroupNodeAdds(pg, obj, prefix, AddressSuffixes, Term(Vcard, "Address"), AddressEdges);
  }

  lemma NameTableDistinct()
    ensures DistinctEdges(NameEdges)
  {
  }

  /** `name` on a valid graph: None and no change when its four fields are all
      falsy; otherwise a fresh vcard:Name node with an edge for exactly the truthy fields. */
  lemma NameAdds(pg: PatientGraph, obj: Record, prefix: string)
    requires Valid(pg)
    ensures var r := Name(pg, obj, prefix);
      && (r.node.None? <==> AllFalsy(obj, prefix, NameSuffixes))
      && (r.node.None? ==> r.pg == pg)
      && (r.node.Some? ==>
            var n := r.node.value;
            && n == Blank(pg.next)
            && Valid(r.pg)
            && Triple(n, RdfType, Term(Vcard, "Name")) in r.pg.triples
            && (forall t | t in r.pg.triples - pg.triples :: t.s == n)
            && RowsIff(r.pg.triples, n, obj, prefix, NameEdges))
  {
    NameTableCovered();
    NameTableDistinct();
    GroupNodeAdds(pg, obj, prefix, NameSuffixes, Term(Vcard, "Name"), NameEdges);
  }

  /** The vcard types and the number a telephone node's triples give it. */
  lemma TelephoneTriplesShape(n: Node, obj: Record, prefix: string)
    ensures var ts := TelephoneTriples(n, obj, prefix);
      var kind := obj.attr(AttrName(prefix, "type"));
      var number := obj.attr(AttrName(prefix, "number"));
      var preferred := obj.attr(AttrName(prefix, "preferred_p"));
      && (forall t | t in ts :: t.s == n)
      && (forall d: string :: Triple(n, RdfType, Term(Vcard, d)) in ts <==>
            d == "Tel" || (Truthy(kind) && d == obj.typeDisplay(prefix)) || (Truthy(preferred) && d == "Pref"))
      && (HasEdge(ts, n, Term(Vcard, "value")) <==> Truthy(number))
  {
    var ts := TelephoneTriples(n, obj, prefix);
    var number := obj.attr(AttrName(prefix, "number"));
    if HasEdge(ts, n, Term(Vcard, "value")) {
      var t :| t in ts && t.s == n && t.p == Term(Vcard, "value");
      assert Truthy(number);
    }
    if Truthy(number) {
      assert Triple(n, Term(Vcard, "value"), Lit(number)) in ts;
    }
  }

  /** `telephone` on a valid graph: None and no change when type, number and
      preferred flag are all falsy; otherwise a fresh node whose vcard types are
      exactly Tel, the display kind when the type is set, and Pref when the flag
      is set, and which carries a number exactly when the number is truthy. */
  lemma TelephoneAdds(pg: PatientGraph, obj: Record, prefix: string)
    requires Valid(pg)
    ensures var r := Telephone(pg, obj, prefix);
      var kind := obj.attr(AttrName(prefix, "type"));
      var number := obj.attr(AttrName(prefix, "number"));
      var preferred := obj.attr(AttrName(prefix, "preferred_p"));
      && (r.node.None? <==> !Truthy(kind) && !Truthy(number) && !Truthy(preferred))
      && (r.node.None? ==> r.pg == pg)
      && (r.node.Some? ==>
            var n := r.node.value;
            && n == Blank(pg.next)
            && Valid(r.pg)
            && (forall t | t in r.pg.triples - pg.triples :: t.s == n)
            && (forall d: string :: Triple(n, RdfType, Term(Vcard, d)) in r.pg.triples <==>
                  d == "Tel" || (Truthy(kind) && d == obj.typeDisplay(prefix)) || (Truthy(preferred) && d == "Pref"))
            && (HasEdge(r.pg.triples, n, Term(Vcard, "value")) <==> Truthy(number))
            && (Truthy(number) ==> Triple(n, Term(Vcard, "value"), Lit(number)) in r.pg.triples))
  {
    var r := Telephone(pg, obj, prefix);
    AllFalsyMeans(obj, prefix, TelephoneSuffixes);
    if r.node.Some? {
      var n := Blank(pg.next);
      var ts := TelephoneTriples(n, obj, prefix);
      assert r.pg.triples == pg.triples + ts;
      TelephoneTriplesShape(n, obj, prefix);
      ApplyConfined(pg, TelephoneEffect(pg.next, obj, prefix));
      FreshSubject(pg, Term(Vcard, "value"));
      FreshSubject(pg, RdfType);
    }
  }

  // ---------------------------------------------------------------- pharmacy

  lemma ThenConfined(e: Effect, f: Effect, start: nat)
    requires Confined(e, start) && Confined(f, After(start, e))
    ensures Confined(Then(e, f), start)
  {
  }

  lemma LinkedConfined(parent: Node, pred: Node, child: Effect, start: nat)
    requires Confined(child, start) && BlankBelow(parent, start) && !pred.Blank?
    ensures Confined(Linked(parent, pred, child), start)
  {
  }

  lemma PharmacyTableDistinct()
    ensures DistinctEdges(PharmacyEdges)
    ensures Term(Vcard, "adr") !in Preds(PharmacyEdges)
  {
  }

  /** Adding triples about other subjects to a valid graph does not change which edges a fresh node has. */
  lemma FreshUnion(pg: PatientGraph, ts: set<Triple>, p: Node)
    requires Valid(pg)
    ensures HasEdge(pg.triples + ts, Blank(pg.next), p) <==> HasEdge(ts, Blank(pg.next), p)
  {
    FreshSubject(pg, p);
  }

  lemma RowsIffFresh(pg: PatientGraph, ts: set<Triple>, obj: Record, prefix: string, table: EdgeTable)
    requires Valid(pg) && RowsIff(ts, Blank(pg.next), obj, prefix, table)
    ensures RowsIff(pg.triples + ts, Blank(pg.next), obj, prefix, table)
  {
    forall row | row in table
      ensures HasEdge(pg.triples + ts, Blank(pg.next), row.1) <==> HasEdge(ts, Blank(pg.next), row.1)
    {
      FreshUnion(pg, ts, row.1);
    }
  }

  /** The edges from `parent` in a linked sub-builder whose own triples are about other nodes. */
  lemma LinkedEdges(parent: Node, pred: Node, child: Effect, q: Node)
    requires forall t | t in child.added :: t.s != parent
    ensures HasEdge(Linked(parent, pred, child).added, parent, q) <==> q == pred && child.node.Some?
  {
    if q == pred && child.node.Some? {
      assert Triple(parent, pred, child.node.value) in Linked(parent, pred, child).added;
    }
  }

  /** The triples of `pharmacy`'s closed-form effect, read edge by edge. */
  lemma PharmacyEffectShape(start: nat, obj: Record, prefix: string)
    requires !AllFalsy(obj, prefix, PharmacySuffixes)
    ensures var e := PharmacyEffect(start, obj, prefix);
      var n := Blank(start);
      && e.node == Some(n)
      && Confined(e, start)
      && Triple(n, RdfType, Term(Sp, "Pharmacy")) in e.added
      && RowsIff(e.added, n, obj, prefix, PharmacyEdges)
      && (HasEdge(e.added, n, Term(Vcard, "adr")) <==> !AllFalsy(obj, prefix + "_adr", AddressSuffixes))
      && (!AllFalsy(obj, prefix + "_adr", AddressSuffixes) ==>
            && Triple(n, Term(Vcard, "adr"), Blank(start + 1)) in e.added
            && Triple(Blank(start + 1), RdfType, Term(Vcard, "Address")) in e.added)
  {
    var n := Blank(start);
    var base := GroupEffect(start, obj, prefix, PharmacySuffixes, Term(Sp, "Pharmacy"), PharmacyEdges);
    var a := AddressEffect(start + 1, obj, prefix + "_adr");
    var link := AdrLinkEffect(start + 1, n, obj, prefix + "_adr");
    assert PharmacyEffect(start, obj, prefix) == Then(base, link);
    PharmacyTableDistinct();
    AddressTableDistinct();
    GroupTriplesRows(n, obj, prefix, Term(Sp, "Pharmacy"), PharmacyEdges);
    GroupTriplesRows(Blank(start + 1), obj, prefix + "_adr", Term(Vcard, "Address"), AddressEdges);
    assert forall t | t in a.added :: t.s != n;
    LinkedConfined(n, Term(Vcard, "adr"), a, start + 1);
    ThenConfined(base, link, start);
    forall row | row in PharmacyEdges ensures !HasEdge(link.added, n, row.1) {
      LinkedEdges(n, Term(Vcard, "adr"), a, row.1);
    }
    LinkedEdges(n, Term(Vcard, "adr"), a, Term(Vcard, "adr"));
    assert !HasEdge(base.added, n, Term(Vcard, "adr"));
  }

  /** The graph-level reading of `PharmacyEffectShape` on a valid graph. */
  lemma PharmacyApplied(pg: PatientGraph, obj: Record, prefix: string)
    requires Valid(pg) && !AllFalsy(obj, prefix, PharmacySuffixes)
    ensures var g := Apply(pg, PharmacyEffect(pg.next, obj, prefix));
      var n := Blank(pg.next);
      var adr := Blank(pg.next + 1);
      && Valid(g)
      && Triple(n, RdfType, Term(Sp, "Pharmacy")) in g.triples
      && RowsIff(g.triples, n, obj, prefix, PharmacyEdges)
      && (HasEdge(g.triples, n, Term(Vcard, "adr")) <==> !AllFalsy(obj, prefix + "_adr", AddressSuffixes))
      && (!AllFalsy(obj, prefix + "_adr", AddressSuffixes) ==>
            && Triple(n, Term(Vcard, "adr"), adr) in g.triples
            && Triple(adr, RdfType, Term(Vcard, "Address")) in g.triples)
  {
    var e := PharmacyEffect(pg.next, obj, prefix);
    PharmacyEffectShape(pg.next, obj, prefix);
    ApplyConfined(pg, e);
    RowsIffFresh(pg, e.added, obj, prefix, PharmacyEdges);
    FreshUnion(pg, e.added, Term(Vcard, "adr"));
  }

  /** `pharmacy` on a valid graph: None and no change when its seven fields are
      all falsy; otherwise a fresh sp:Pharmacy node with an edge for exactly the
      truthy scalar fields, and a vcard:adr edge exactly when `address` has
      fields to show, to the address node minted right after it. */
  lemma PharmacyAdds(pg: PatientGraph, obj: Record, prefix: string)
    requires Valid(pg)
    ensures var r := Pharmacy(pg, obj, prefix);
      && (r.node.None? ==> r.pg == pg)
      && (r.node.Some? ==>
            var n := r.node.value;
            var adr := Blank(pg.next + 1);
            && n == Blank(pg.next)
            && Valid(r.pg)
            && Triple(n, RdfType, Term(Sp, "Pharmacy")) in r.pg.triples
            && RowsIff(r.pg.triples, n, obj, prefix, PharmacyEdges)
            && (HasEdge(r.pg.triples, n, Term(Vcard, "adr")) <==> !AllFalsy(obj, prefix + "_adr", AddressSuffixes))
            && (!AllFalsy(obj, prefix + "_adr", AddressSuffixes) ==>
                  && Triple(n, Term(Vcard, "adr"), adr) in r.pg.triples
                  && Triple(adr, RdfType, Term(Vcard, "Address")) in r.pg.triples))
  {
    if !AllFalsy(obj, prefix, PharmacySuffixes) {
      PharmacyEffectShape(pg.next, obj, prefix);
      PharmacyApplied(pg, obj, prefix);
    }
  }

  /** The attribute `prefix_adr_s`, spelled either way round. */
  lemma AdrAttrName(prefix: string, s: string)
    ensures AttrName(prefix + "_adr", s) == AttrName(prefix, "adr_" + s)
  {
    assert (prefix + "_adr") + "_" + s == prefix + "_" + ("adr_" + s);
  }

  lemma AdrSuffixInPharmacy(s: string)
    requires s in AddressSuffixes
    ensures "adr_" + s in PharmacySuffixes
  {
    var k :| 0 <= k < |AddressSuffixes| && AddressSuffixes[k] == s;
    assert PharmacySuffixes[k + 2] == "adr_" + AddressSuffixes[k];
  }

  /** Every field of a pharmacy's address is one of the pharmacy's own fields,
      so a pharmacy with an address to show is never None. */
  lemma PharmacyCoversAddress(obj: Record, prefix: string)
    ensures !AllFalsy(obj, prefix + "_adr", AddressSuffixes) ==> !AllFalsy(obj, prefix, PharmacySuffixes)
  {
    AllFalsyMeans(obj, prefix + "_adr", AddressSuffixes);
    AllFalsyMeans(obj, prefix, PharmacySuffixes);
    forall s | s in AddressSuffixes
      ensures AttrName(prefix + "_adr", s) == AttrName(prefix, "adr_" + s)
      ensures "adr_" + s in PharmacySuffixes
    {
      AdrAttrName(prefix, s);
      AdrSuffixInPharmacy(s);
    }
  }

  // ---------------------------------------------------------------- provider

  /** Every triple of `ts` about `p` uses predicate `q`. */
  predicate OnlyEdge(ts: set<Triple>, p: Node, q: Node)
  {
    forall t | t in ts && t.s == p :: t.p == q
  }

  /** The object of a provider's vcard:n edge when the name node would be minted at `start`. */
  function NameTarget(start: nat, obj: Record, prefix: string): Node
  {
    if AllFalsy(obj, prefix, NameSuffixes) then Nil else Blank(start)
  }

  lemma NamedShape(start: nat, p: Node, obj: Record, prefix: string)
    requires p.Blank? && p.id < start
    ensures var e := NamedEffect(start, p, obj, prefix);
      && Confined(e, start)
      && (forall t | t in e.added && t.s == p :: t == Triple(p, Term(Vcard, "n"), NameTarget(start, obj, prefix)))
      && Triple(p, Term(Vcard, "n"), NameTarget(start, obj, prefix)) in e.added
  {
    NameTableDistinct();
    GroupTriplesRows(Blank(start), obj, prefix, Term(Vcard, "Name"), NameEdges);
  }

  lemma AdrLinkShape(start: nat, p: Node, obj: Record, prefix: string)
    requires p.Blank? && p.id < start
    ensures var e := AdrLinkEffect(start, p, obj, prefix);
      && Confined(e, start)
      && OnlyEdge(e.added, p, Term(Vcard, "adr"))
      && (HasEdge(e.added, p, Term(Vcard, "adr")) <==> !AllFalsy(obj, prefix, AddressSuffixes))
  {
    var a := AddressEffect(start, obj, prefix);
    AddressTableDistinct();
    GroupTriplesRows(Blank(start), obj, prefix, Term(Vcard, "Address"), AddressEdges);
    LinkedConfined(p, Term(Vcard, "adr"), a, start);
    LinkedEdges(p, Term(Vcard, "adr"), a, Term(Vcard, "adr"));
  }

  lemma TelLinkShape(start: nat, p: Node, obj: Record, prefix: string)
    requires p.Blank? && p.id < start
    ensures var e := TelLinkEffect(start, p, obj, prefix);
      && Confined(e, start)
      && OnlyEdge(e.added, p, Term(Vcard, "tel"))
      && (HasEdge(e.added, p, Term(Vcard, "tel")) <==> !AllFalsy(obj, prefix, TelephoneSuffixes))
  {
    var tel := TelephoneEffect(start, obj, prefix);
    TelephoneTriplesShape(Blank(start), obj, prefix);
    LinkedConfined(p, Term(Vcard, "tel"), tel, start);
    LinkedEdges(p, Term(Vcard, "tel"), tel, Term(Vcard, "tel"));
  }

  /** Set reasoning behind `ProviderTailShape`, kept apart from the effects. */
  lemma TailEdges(a: set<Triple>, b: set<Triple>, c: set<Triple>, d: set<Triple>, p: Node, target: Node,
                  hasAdr: bool, hasTel1: bool, hasTel2: bool)
    requires forall t | t in a && t.s == p :: t == Triple(p, Term(Vcard, "n"), target)
    requires Triple(p, Term(Vcard, "n"), target) in a
    requires OnlyEdge(b, p, Term(Vcard, "adr")) && (HasEdge(b, p, Term(Vcard, "adr")) <==> hasAdr)
    requires OnlyEdge(c, p, Term(Vcard, "tel")) && (HasEdge(c, p, Term(Vcard, "tel")) <==> hasTel1)
    requires OnlyEdge(d, p, Term(Vcard, "tel")) && (HasEdge(d, p, Term(Vcard, "tel")) <==> hasTel2)
    ensures var ts := a + b + c + d;
      && (forall o :: Triple(p, Term(Vcard, "n"), o) in ts <==> o == target)
      && (HasEdge(ts, p, Term(Vcard, "adr")) <==> hasAdr)
      && (HasEdge(ts, p, Term(Vcard, "tel")) <==> hasTel1 || hasTel2)
      && (forall t | t in ts && t.s == p :: t.p in {Term(Vcard, "n"), Term(Vcard, "adr"), Term(Vcard, "tel")})
  {
    var ts := a + b + c + d;
    if HasEdge(ts, p, Term(Vcard, "adr")) {
      var t :| t in ts && t.s == p && t.p == Term(Vcard, "adr");
      assert t in b;
    }
    if HasEdge(ts, p, Term(Vcard, "tel")) {
      var t :| t in ts && t.s == p && t.p == Term(Vcard, "tel");
      assert t in c || t in d;
    }
  }

  lemma ProviderTailConfined(start: nat, p: Node, obj: Record, prefix: string)
    requires p.Blank? && p.id < start
    ensures Confined(ProviderTailEffect(start, p, obj, prefix), start)
  {
    var e0 := NamedEffect(start, p, obj, prefix + "_name");
    var f1 := AdrLinkEffect(After(start, e0), p, obj, prefix + "_adr");
    var e1 := Then(e0, f1);
    var f2 := TelLinkEffect(After(start, e1), p, obj, prefix + "_tel_1");
    var e2 := Then(e1, f2);
    var f3 := TelLinkEffect(After(start, e2), p, obj, prefix + "_tel_2");
    NamedShape(start, p, obj, prefix + "_name");
    AdrLinkShape(After(start, e0), p, obj, prefix + "_adr");
    TelLinkShape(After(start, e1), p, obj, prefix + "_tel_1");
    TelLinkShape(After(start, e2), p, obj, prefix + "_tel_2");
    ThenConfined(e0, f1, start);
    ThenConfined(e1, f2, start);
    ThenConfined(e2, f3, start);
  }

  /** The provider's name, address and telephones, minted from `start` on and
      hung off `p`: exactly one vcard:n edge, to the name node or to None; a
      vcard:adr edge exactly when the address has fields to show; a vcard:tel
      edge exactly when one of the two telephones has; and no other edge from `p`. */
  lemma ProviderTailShape(start: nat, p: Node, obj: Record, prefix: string)
    requires p.Blank? && p.id < start
    ensures var e := ProviderTailEffect(start, p, obj, prefix);
      var target := NameTarget(start, obj, prefix + "_name");
      && Confined(e, start)
      && (forall o :: Triple(p, Term(Vcard, "n"), o) in e.added <==> o == target)
      && (HasEdge(e.added, p, Term(Vcard, "adr")) <==> !AllFalsy(obj, prefix + "_adr", AddressSuffixes))
      && (HasEdge(e.added, p, Term(Vcard, "tel")) <==>
            !AllFalsy(obj, prefix + "_tel_1", TelephoneSuffixes) || !AllFalsy(obj, prefix + "_tel_2", TelephoneSuffixes))
      && (forall t | t in e.added && t.s == p :: t.p in {Term(Vcard, "n"), Term(Vcard, "adr"), Term(Vcard, "tel")})
  {
    var e0 := NamedEffect(start, p, obj, prefix + "_name");
    var f1 := AdrLinkEffect(After(start, e0), p, obj, prefix + "_adr");
    var e1 := Then(e0, f1);
    var f2 := TelLinkEffect(After(start, e1), p, obj, prefix + "_tel_1");
    var e2 := Then(e1, f2);
    var f3 := TelLinkEffect(After(start, e2), p, obj, prefix + "_tel_2");
    assert ProviderTailEffect(start, p, obj, prefix).added == e0.added + f1.added + f2.added + f3.added;
    NamedShape(start, p, obj, prefix + "_name");
    AdrLinkShape(After(start, e0), p, obj, prefix + "_adr");
    TelLinkShape(After(start, e1), p, obj, prefix + "_tel_1");
    TelLinkShape(After(start, e2), p, obj, prefix + "_tel_2");
    TailEdges(e0.added, f1.added, f2.added, f3.added, p, NameTarget(start, obj, prefix + "_name"),
              !AllFalsy(obj, prefix + "_adr", AddressSuffixes),
              !AllFalsy(obj, prefix + "_tel_1", TelephoneSuffixes), !AllFalsy(obj, prefix + "_tel_2", TelephoneSuffixes));
    ProviderTailConfined(start, p, obj, prefix);
  }

  /** Triples about `n` with predicates outside the table leave the table's rows as they were. */
  lemma RowsIffUnion(base: set<Triple>, extra: set<Triple>, n: Node, obj: Record, prefix: string, table: EdgeTable)
    requires RowsIff(base, n, obj, prefix, table)
    requires forall t | t in extra && t.s == n :: t.p !in Preds(table)
    ensures RowsIff(base + extra, n, obj, prefix, table)
  {
    forall row | row in table
      ensures HasEdge(base + extra, n, row.1) ==> HasEdge(base, n, row.1)
    {
      if HasEdge(base + extra, n, row.1) {
        var t :| t in base + extra && t.s == n && t.p == row.1;
        assert row.1 in Preds(table);
      }
    }
  }

  lemma ProviderTableDistinct()
    ensures DistinctEdges(ProviderEdges)
  {
    assert DistinctRows(ProviderEdges, 0);
    DistinctRowsEdges(ProviderEdges);
  }

  lemma ProviderLinkPreds()
    ensures Term(Vcard, "n") !in Preds(ProviderEdges)
    ensures Term(Vcard, "adr") !in Preds(ProviderEdges)
    ensures Term(Vcard, "tel") !in Preds(ProviderEdges)
  {
  }

  /** Set reasoning behind `ProviderEffectShape`, kept apart from the effects. */
  lemma ProviderCombine(base: set<Triple>, tail: set<Triple>, n: Node, target: Node, obj: Record, prefix: string,
                        hasAdr: bool, hasTel: bool)
    requires forall t | t in base :: t.s == n && (t.p == RdfType || t.p in Preds(ProviderEdges))
    requires RowsIff(base, n, obj, prefix, ProviderEdges)
    requires forall o :: Triple(n, Term(Vcard, "n"), o) in tail <==> o == target
    requires HasEdge(tail, n, Term(Vcard, "adr")) <==> hasAdr
    requires HasEdge(tail, n, Term(Vcard, "tel")) <==> hasTel
    requires forall t | t in tail && t.s == n :: t.p in {Term(Vcard, "n"), Term(Vcard, "adr"), Term(Vcard, "tel")}
    ensures var ts := base + tail;
      && RowsIff(ts, n, obj, prefix, ProviderEdges)
      && (forall o :: Triple(n, Term(Vcard, "n"), o) in ts <==> o == target)
      && (HasEdge(ts, n, Term(Vcard, "adr")) <==> hasAdr)
      && (HasEdge(ts, n, Term(Vcard, "tel")) <==> hasTel)
  {
    ProviderLinkPreds();
    RowsIffUnion(base, tail, n, obj, prefix, ProviderEdges);
    assert !HasEdge(base, n, Term(Vcard, "adr"));
    assert !HasEdge(base, n, Term(Vcard, "tel"));
    assert forall o :: Triple(n, Term(Vcard, "n"), o) !in base;
  }

  /** The triples of `provider`'s closed-form effect, read edge by edge. */
  lemma ProviderEffectShape(start: nat, obj: Record, prefix: string)
    requires !AllFalsy(obj, prefix, ProviderSuffixes)
    ensures var e := ProviderEffect(start, obj, prefix);
      var n := Blank(start);
      var target := NameTarget(start + 1, obj, prefix + "_name");
      && e.node == Some(n)
      && Confined(e, start)
      && Triple(n, RdfType, Term(Sp, "Provider")) in e.added
      && RowsIff(e.added, n, obj, prefix, ProviderEdges)
      && (forall o :: Triple(n, Term(Vcard, "n"), o) in e.added <==> o == target)
      && (HasEdge(e.added, n, Term(Vcard, "adr")) <==> !AllFalsy(obj, prefix + "_adr", AddressSuffixes))
      && (HasEdge(e.added, n, Term(Vcard, "tel")) <==>
            !AllFalsy(obj, prefix + "_tel_1", TelephoneSuffixes) || !AllFalsy(obj, prefix + "_tel_2", TelephoneSuffixes))
  {
    var n := Blank(start);
    var base := GroupEffect(start, obj, prefix, ProviderSuffixes, Term(Sp, "Provider"), ProviderEdges);
    var tail := ProviderTailEffect(start + 1, n, obj, prefix);
    assert ProviderEffect(start, obj, prefix) == Then(base, tail);
    ProviderTableDistinct();
    GroupTriplesRows(n, obj, prefix, Term(Sp, "Provider"), ProviderEdges);
    ProviderTailShape(start + 1, n, obj, prefix);
    ThenConfined(base, tail, start);
    ProviderCombine(base.added, tail.added, n, NameTarget(start + 1, obj, prefix + "_name"), obj, prefix,
                    !AllFalsy(obj, prefix + "_adr", AddressSuffixes),
                    !AllFalsy(obj, prefix + "_tel_1", TelephoneSuffixes) || !AllFalsy(obj, prefix + "_tel_2", TelephoneSuffixes));
  }

  /** The graph-level reading of `ProviderEffectShape` on a valid graph. */
  lemma ProviderApplied(pg: PatientGraph, obj: Record, prefix: string)
    requires Valid(pg) && !AllFalsy(obj, prefix, ProviderSuffixes)
    ensures var g := Apply(pg, ProviderEffect(pg.next, obj, prefix));
      var n := Blank(pg.next);
      var target := NameTarget(pg.next + 1, obj, prefix + "_name");
      && Valid(g)
      && Triple(n, RdfType, Term(Sp, "Provider")) in g.triples
      && RowsIff(g.triples, n, obj, prefix, ProviderEdges)
      && (forall o :: Triple(n, Term(Vcard, "n"), o) in g.triples <==> o == target)
      && (HasEdge(g.triples, n, Term(Vcard, "adr")) <==> !AllFalsy(obj, prefix + "_adr", AddressSuffixes))
      && (HasEdge(g.triples, n, Term(Vcard, "tel")) <==>
            !AllFalsy(obj, prefix + "_tel_1", TelephoneSuffixes) || !AllFalsy(obj, prefix + "_tel_2", TelephoneSuffixes))
  {
    var e := ProviderEffect(pg.next, obj, prefix);
    ProviderEffectShape(pg.next, obj, prefix);
    ApplyConfined(pg, e);
    RowsIffFresh(pg, e.added, obj, prefix, ProviderEdges);
    FreshUnion(pg, e.added, Term(Vcard, "adr"));
    FreshUnion(pg, e.added, Term(Vcard, "tel"));
    FreshSubject(pg, Term(Vcard, "n"));
  }

  /** `provider` on a valid graph: None and no change when its eight scalar
      fields are all falsy, whatever its name, address and telephones hold;
      otherwise a fresh sp:Provider node with an edge for exactly the truthy
      scalar fields, exactly one vcard:n edge — to the name node minted right
      after it, or to None when the name is empty — a vcard:adr edge exactly when
      the address has fields to show, and a vcard:tel edge exactly when one of
      the two telephones has. */
  lemma ProviderAdds(pg: PatientGraph, obj: Record, prefix: string)
    requires Valid(pg)
    ensures var r := Provider(pg, obj, prefix);
      && (r.node.None? <==> AllFalsy(obj, prefix, ProviderSuffixes))
      && (r.node.None? ==> r.pg == pg)
      && (r.node.Some? ==>
            var n := r.node.value;
            var target := NameTarget(pg.next + 1, obj, prefix + "_name");
            && n == Blank(pg.next)
            && Valid(r.pg)
            && Triple(n, RdfType, Term(Sp, "Provider")) in r.pg.triples
            && RowsIff(r.pg.triples, n, obj, prefix, ProviderEdges)
            && (forall o :: Triple(n, Term(Vcard, "n"), o) in r.pg.triples <==> o == target)
            && (HasEdge(r.pg.triples, n, Term(Vcard, "adr")) <==> !AllFalsy(obj, prefix + "_adr", AddressSuffixes))
            && (HasEdge(r.pg.triples, n, Term(Vcard, "tel")) <==>
                  !AllFalsy(obj, prefix + "_tel_1", TelephoneSuffixes) || !AllFalsy(obj, prefix + "_tel_2", TelephoneSuffixes)))
  {
    if !AllFalsy(obj, prefix, ProviderSuffixes) {
      ProviderEffectShape(pg.next, obj, prefix);
      ProviderApplied(pg, obj, prefix);
    }
  }

  // ---------------------------------------------------------------- medication

  /** Every triple of `ts` about `p` uses one of the predicates `qs`. */
  predicate OnlyEdges(ts: set<Triple>, p: Node, qs: set<Node>)
  {
    forall t | t in ts && t.s == p :: t.p in qs
  }

  /** The predicates of a coded value's own triples, on the value node and on the code node. */
  const CodedPreds: set<Node> :=
    {RdfType, Term(Dcterms, "title"), Term(Sp, "code"), Term(Sp, "system"), Term(Dcterms, "identifier")}

  /** `g.add((p, pred, codedValue(...)))` with a code class that is a vocabulary
      term: the value node is always minted, at `start`, and is the edge's target;
      besides that edge, `p` can only gain coded-value predicates (when `p` is itself the code URI). */
  lemma CodedLinkEdges(start: nat, p: Node, pred: Node, codeClass: Node, uri: string, title: Field, system: Field, identifier: Field)
    requires codeClass.Term? && !p.Blank?
    ensures var e := CodedLinkEffect(start, p, pred, codeClass, uri, title, system, identifier);
      && e.blanks == 1
      && Triple(p, pred, Blank(start)) in e.added
      && Triple(Blank(start), Term(Sp, "code"), Uri(uri)) in e.added
      && Triple(Uri(uri), Term(Dcterms, "identifier"), Lit(identifier)) in e.added
      && OnlyEdges(e.added, p, CodedPreds + {pred})
  {
  }

  /** `g.add((p, pred, valueAndUnit(value, units)))` with a truthy value: the only new edge from `p`. */
  lemma ValueLinkEdges(start: nat, p: Node, pred: Node, value: Field, units: Field)
    requires !p.Blank? && Truthy(value)
    ensures var e := ValueLinkEffect(start, p, pred, value, units);
      && e.blanks == 1
      && Triple(p, pred, Blank(start)) in e.added
      && Triple(Blank(start), Term(Sp, "value"), Lit(value)) in e.added
      && Triple(Blank(start), Term(Sp, "unit"), Lit(units)) in e.added
      && OnlyEdges(e.added, p, {pred})
  {
  }

  /** Set reasoning behind `MedicationShape`, kept apart from the effects. */
  lemma MedicationEdgesCombine(h: set<Triple>, q: set<Triple>, f: set<Triple>, d: set<Triple>, pv: set<Triple>, n: Node,
                               hasQ: bool, hasF: bool, hasD: bool, hasP: bool)
    requires OnlyEdges(h, n, CodedPreds + {Term(Sp, "drugName"), Term(Sp, "startDate"), Term(Sp, "instructions")})
    requires OnlyEdges(q, n, {Term(Sp, "quantity")}) && (HasEdge(q, n, Term(Sp, "quantity")) <==> hasQ)
    requires OnlyEdges(f, n, {Term(Sp, "frequency")}) && (HasEdge(f, n, Term(Sp, "frequency")) <==> hasF)
    requires OnlyEdges(d, n, {Term(Sp, "endDate")}) && (HasEdge(d, n, Term(Sp, "endDate")) <==> hasD)
    requires OnlyEdges(pv, n, CodedPreds + {Term(Sp, "provenance")}) && (HasEdge(pv, n, Term(Sp, "provenance")) <==> hasP)
    ensures var ts := h + q + f + d + pv;
      && (HasEdge(ts, n, Term(Sp, "quantity")) <==> hasQ)
      && (HasEdge(ts, n, Term(Sp, "frequency")) <==> hasF)
      && (HasEdge(ts, n, Term(Sp, "endDate")) <==> hasD)
      && (HasEdge(ts, n, Term(Sp, "provenance")) <==> hasP)
  {
    EdgeFromPart(h, q, f, d, pv, n, Term(Sp, "quantity"), 1, CodedPreds + {Term(Sp, "drugName"), Term(Sp, "startDate"), Term(Sp, "instructions")}, {Term(Sp, "quantity")},
                 {Term(Sp, "frequency")}, {Term(Sp, "endDate")}, CodedPreds + {Term(Sp, "provenance")});
    EdgeFromPart(h, q, f, d, pv, n, Term(Sp, "frequency"), 2, CodedPreds + {Term(Sp, "drugName"), Term(Sp, "startDate"), Term(Sp, "instructions")}, {Term(Sp, "quantity")},
                 {Term(Sp, "frequency")}, {Term(Sp, "endDate")}, CodedPreds + {Term(Sp, "provenance")});
    EdgeFromPart(h, q, f, d, pv, n, Term(Sp, "endDate"), 3, CodedPreds + {Term(Sp, "drugName"), Term(Sp, "startDate"), Term(Sp, "instructions")}, {Term(Sp, "quantity")},
                 {Term(Sp, "frequency")}, {Term(Sp, "endDate")}, CodedPreds + {Term(Sp, "provenance")});
    EdgeFromPart(h, q, f, d, pv, n, Term(Sp, "provenance"), 4, CodedPreds + {Term(Sp, "drugName"), Term(Sp, "startDate"), Term(Sp, "instructions")}, {Term(Sp, "quantity")},
                 {Term(Sp, "frequency")}, {Term(Sp, "endDate")}, CodedPreds + {Term(Sp, "provenance")});
  }

  lemma WhenValueLink(c: bool, start: nat, p: Node, pred: Node, value: Field, units: Field)
    requires !p.Blank? && (c ==> Truthy(value))
    ensures var e := When(c, ValueLinkEffect(start, p, pred, value, units));
      OnlyEdges(e.added, p, {pred}) && (HasEdge(e.added, p, pred) <==> c)
  {
    if c {
      ValueLinkEdges(start, p, pred, value, units);
    }
  }

  lemma WhenCodedLink(c: bool, start: nat, p: Node, pred: Node, codeClass: Node, uri: string, title: Field, system: Field, identifier: Field)
    requires codeClass.Term? && !p.Blank?
    ensures var e := When(c, CodedLinkEffect(start, p, pred, codeClass, uri, title, system, identifier));
      OnlyEdges(e.added, p, CodedPreds + {pred}) && (HasEdge(e.added, p, pred) <==> c)
  {
    if c {
      CodedLinkEdges(start, p, pred, codeClass, uri, title, system, identifier);
    }
  }

  /** The edges `medication` always gives its node `URIRef(m.uri())`: its type, a
      drug name coded by RxNorm (the coded value is the first blank node it
      mints), its start date and its instructions. */
  lemma MedicationAlways(start: nat, m: Medication)
    ensures var e := MedicationEffect(start, m);
      var n := Uri(m.uri);
      && e.node == Some(n)
      && Triple(n, RdfType, Term(Sp, "Medication")) in e.added
      && Triple(n, Term(Sp, "drugName"), Blank(start)) in e.added
      && Triple(Blank(start), Term(Sp, "code"), Uri(RxnUri + Render(m.drugNameIdentifier))) in e.added
      && Triple(n, Term(Sp, "startDate"), Lit(m.startDate)) in e.added
      && Triple(n, Term(Sp, "instructions"), Lit(m.instructions)) in e.added
      && (Truthy(m.endDate) ==> Triple(n, Term(Sp, "endDate"), Lit(m.endDate)) in e.added)
  {
    CodedLinkEdges(start, Uri(m.uri), Term(Sp, "drugName"), Term(SpCode, "RxNorm_Semantic"),
                   RxnUri + Render(m.drugNameIdentifier), m.drugNameTitle, Str(RxnUri), m.drugNameIdentifier);
  }

  lemma MedicationHeadEdges(start: nat, m: Medication)
    ensures OnlyEdges(MedicationHeadEffect(start, m).added, Uri(m.uri),
                      CodedPreds + {Term(Sp, "drugName"), Term(Sp, "startDate"), Term(Sp, "instructions")})
  {
    CodedLinkEdges(start, Uri(m.uri), Term(Sp, "drugName"), Term(SpCode, "RxNorm_Semantic"),
                   RxnUri + Render(m.drugNameIdentifier), m.drugNameTitle, Str(RxnUri), m.drugNameIdentifier);
  }

  /** The start of each conditional step of `medication`: after the drug name, after the quantity, after the end date. */
  function QuantityStart(start: nat, m: Medication): nat
  {
    After(start, MedicationHeadEffect(start, m))
  }

  function QuantityStep(start: nat, m: Medication): Effect
  {
    When(HasQuantity(m), ValueLinkEffect(QuantityStart(start, m), Uri(m.uri), Term(Sp, "quantity"), m.quantityValue, m.quantityUnit))
  }

  function FrequencyStep(start: nat, m: Medication): Effect
  {
    When(HasFrequency(m), ValueLinkEffect(After(QuantityStart(start, m), QuantityStep(start, m)), Uri(m.uri), Term(Sp, "frequency"),
                                          m.frequencyValue, m.frequencyUnit))
  }

  function EndDateStep(m: Medication): Effect
  {
    When(Truthy(m.endDate), Plain({Triple(Uri(m.uri), Term(Sp, "endDate"), Lit(m.endDate))}))
  }

  function ProvenanceStart(start: nat, m: Medication): nat
  {
    After(QuantityStart(start, m), Then(Then(QuantityStep(start, m), FrequencyStep(start, m)), EndDateStep(m)))
  }

  function ProvenanceStep(start: nat, m: Medication): Effect
  {
    When(HasProvenance(m),
         CodedLinkEffect(ProvenanceStart(start, m), Uri(m.uri), Term(Sp, "provenance"), Term(SpCode, "MedicationProvenance"),
                         MedProvUri + Render(m.provenanceIdentifier), m.provenanceTitle, Str(MedProvUri), m.provenanceIdentifier))
  }

  /** `medication`'s additions split by step. */
  lemma MedicationSplit(start: nat, m: Medication)
    ensures MedicationEffect(start, m).added
      == MedicationHeadEffect(start, m).added + QuantityStep(start, m).added + FrequencyStep(start, m).added
         + EndDateStep(m).added + ProvenanceStep(start, m).added
  {
  }

  /** Each conditional step of `medication` adds edges from the medication's
      node under its own predicate only, and adds one exactly when its condition holds. */
  lemma QuantityStepEdges(start: nat, m: Medication)
    ensures OnlyEdges(QuantityStep(start, m).added, Uri(m.uri), {Term(Sp, "quantity")})
    ensures HasEdge(QuantityStep(start, m).added, Uri(m.uri), Term(Sp, "quantity")) <==> HasQuantity(m)
  {
    WhenValueLink(HasQuantity(m), QuantityStart(start, m), Uri(m.uri), Term(Sp, "quantity"), m.quantityValue, m.quantityUnit);
  }

  lemma FrequencyStepEdges(start: nat, m: Medication)
    ensures OnlyEdges(FrequencyStep(start, m).added, Uri(m.uri), {Term(Sp, "frequency")})
    ensures HasEdge(FrequencyStep(start, m).added, Uri(m.uri), Term(Sp, "frequency")) <==> HasFrequency(m)
  {
    WhenValueLink(HasFrequency(m), After(QuantityStart(start, m), QuantityStep(start, m)), Uri(m.uri), Term(Sp, "frequency"),
                  m.frequencyValue, m.frequencyUnit);
  }

  lemma EndDateStepEdges(m: Medication)
    ensures OnlyEdges(EndDateStep(m).added, Uri(m.uri), {Term(Sp, "endDate")})
    ensures HasEdge(EndDateStep(m).added, Uri(m.uri), Term(Sp, "endDate")) <==> Truthy(m.endDate)
  {
    if Truthy(m.endDate) {
      assert Triple(Uri(m.uri), Term(Sp, "endDate"), Lit(m.endDate)) in EndDateStep(m).added;
    }
  }

  lemma ProvenanceStepEdges(start: nat, m: Medication)
    ensures OnlyEdges(ProvenanceStep(start, m).added, Uri(m.uri), CodedPreds + {Term(Sp, "provenance")})
    ensures HasEdge(ProvenanceStep(start, m).added, Uri(m.uri), Term(Sp, "provenance")) <==> HasProvenance(m)
  {
    WhenCodedLink(HasProvenance(m), ProvenanceStart(start, m), Uri(m.uri), Term(Sp, "provenance"), Term(SpCode, "MedicationProvenance"),
                  MedProvUri + Render(m.provenanceIdentifier), m.provenanceTitle, Str(MedProvUri), m.provenanceIdentifier);
  }

  /** The edges `medication` gives its node only under a condition: a quantity
      exactly when both quantity fields are truthy, a frequency likewise, an end
      date exactly when it is truthy, a provenance exactly when its identifier,
      title and system all are. */
  lemma MedicationOptional(start: nat, m: Medication)
    ensures var e := MedicationEffect(start, m);
      var n := Uri(m.uri);
      && (HasEdge(e.added, n, Term(Sp, "quantity")) <==> HasQuantity(m))
      && (HasEdge(e.added, n, Term(Sp, "frequency")) <==> HasFrequency(m))
      && (HasEdge(e.added, n, Term(Sp, "endDate")) <==> Truthy(m.endDate))
      && (HasEdge(e.added, n, Term(Sp, "provenance")) <==> HasProvenance(m))
  {
    MedicationSplit(start, m);
    MedicationHeadEdges(start, m);
    QuantityStepEdges(start, m);
    FrequencyStepEdges(start, m);
    EndDateStepEdges(m);
    ProvenanceStepEdges(start, m);
    MedicationEdgesCombine(MedicationHeadEffect(start, m).added, QuantityStep(start, m).added, FrequencyStep(start, m).added,
                           EndDateStep(m).added, ProvenanceStep(start, m).added, Uri(m.uri),
                           HasQuantity(m), HasFrequency(m), Truthy(m.endDate), HasProvenance(m));
  }

  /** The graph-level reading: on a graph holding nothing yet about the
      medication's URI, `medication` gives it exactly the promised edges. */
  lemma MedicationAdds(pg: PatientGraph, m: Medication)
    requires forall t | t in pg.triples :: t.s != Uri(m.uri)
    ensures var r := MedicationNode(pg, m);
      var n := Uri(m.uri);
      && r.node == Some(n)
      && Grows(pg, r.pg)
      && Triple(n, RdfType, Term(Sp, "Medication")) in r.pg.triples
      && Triple(n, Term(Sp, "drugName"), Blank(pg.next)) in r.pg.triples
      && Triple(Blank(pg.next), Term(Sp, "code"), Uri(RxnUri + Render(m.drugNameIdentifier))) in r.pg.triples
      && Triple(n, Term(Sp, "startDate"), Lit(m.startDate)) in r.pg.triples
      && Triple(n, Term(Sp, "instructions"), Lit(m.instructions)) in r.pg.triples
      && (HasEdge(r.pg.triples, n, Term(Sp, "quantity")) <==> HasQuantity(m))
      && (HasEdge(r.pg.triples, n, Term(Sp, "frequency")) <==> HasFrequency(m))
      && (HasEdge(r.pg.triples, n, Term(Sp, "endDate")) <==> Truthy(m.endDate))
      && (HasEdge(r.pg.triples, n, Term(Sp, "provenance")) <==> HasProvenance(m))
  {
    var e := MedicationEffect(pg.next, m);
    MedicationAlways(pg.next, m);
    MedicationOptional(pg.next, m);
    var r := MedicationNode(pg, m);
    assert r.pg.triples == pg.triples + e.added;
    forall q | true
      ensures HasEdge(r.pg.triples, Uri(m.uri), q) <==> HasEdge(e.added, Uri(m.uri), q)
    {
    }
  }

  // ---------------------------------------------------------------- fill

  /** Triples about blank nodes only, none pointing at a record or code URI: what
      the pharmacy, provider and value-and-unit builders add below their own node. */
  predicate Inner(ts: set<Triple>)
  {
    forall t | t in ts :: t.s.Blank? && !t.o.Uri?
  }

  lemma GroupInner(start: nat, obj: Record, prefix: string, suffixes: seq<string>, kind: Node, table: EdgeTable)
    requires !kind.Uri?
    ensures Inner(GroupEffect(start, obj, prefix, suffixes, kind, table).added)
  {
  }

  lemma PharmacyInner(start: nat, obj: Record, prefix: string)
    ensures Inner(PharmacyEffect(start, obj, prefix).added)
    ensures PharmacyEffect(start, obj, prefix).node.Some? ==> PharmacyEffect(start, obj, prefix).node.value.Blank?
  {
    GroupInner(start, obj, prefix, PharmacySuffixes, Term(Sp, "Pharmacy"), PharmacyEdges);
    GroupInner(start + 1, obj, prefix + "_adr", AddressSuffixes, Term(Vcard, "Address"), AddressEdges);
  }

  lemma TelLinkInner(start: nat, p: Node, obj: Record, prefix: string)
    requires p.Blank?
    ensures Inner(TelLinkEffect(start, p, obj, prefix).added)
  {
  }

  lemma ProviderTailInner(start: nat, n: Node, obj: Record, prefix: string)
    requires n.Blank?
    ensures Inner(ProviderTailEffect(start, n, obj, prefix).added)
  {
    var e0 := NamedEffect(start, n, obj, prefix + "_name");
    var f1 := AdrLinkEffect(After(start, e0), n, obj, prefix + "_adr");
    var e1 := Then(e0, f1);
    var f2 := TelLinkEffect(After(start, e1), n, obj, prefix + "_tel_1");
    var e2 := Then(e1, f2);
    var f3 := TelLinkEffect(After(start, e2), n, obj, prefix + "_tel_2");
    GroupInner(start, obj, prefix + "_name", NameSuffixes, Term(Vcard, "Name"), NameEdges);
    GroupInner(After(start, e0), obj, prefix + "_adr", AddressSuffixes, Term(Vcard, "Address"), AddressEdges);
    TelLinkInner(After(start, e1), n, obj, prefix + "_tel_1");
    TelLinkInner(After(start, e2), n, obj, prefix + "_tel_2");
    assert ProviderTailEffect(start, n, obj, prefix).added == e0.added + f1.added + f2.added + f3.added;
  }

  lemma ProviderInner(start: nat, obj: Record, prefix: string)
    ensures Inner(ProviderEffect(start, obj, prefix).added)
    ensures ProviderEffect(start, obj, prefix).node.Some? ==> ProviderEffect(start, obj, prefix).node.value.Blank?
  {
    GroupInner(start, obj, prefix, ProviderSuffixes, Term(Sp, "Provider"), ProviderEdges);
    ProviderTailInner(start + 1, Blank(start), obj, prefix);
  }

  /** Linking a sub-builder's node to `parent`: one edge from `parent`, present
      exactly when the sub-builder returned a node, and no edge back to `parent`. */
  lemma LinkedInner(parent: Node, pred: Node, child: Effect)
    requires Inner(child.added) && parent.Uri?
    requires child.node.Some? ==> child.node.value.Blank?
    ensures var e := Linked(parent, pred, child);
      && OnlyEdges(e.added, parent, {pred})
      && (forall t | t in e.added :: t.o != parent)
      && (HasEdge(e.added, parent, pred) <==> child.node.Some?)
  {
    if child.node.Some? {
      assert Triple(parent, pred, child.node.value) in Linked(parent, pred, child).added;
    }
  }

  function FillLiteralsStep(fill: Fill): Effect
  {
    Effect(FillLiterals(Uri(fill.uri), fill), 0, Some(Uri(fill.uri)))
  }

  function FillPharmacyStep(start: nat, fill: Fill): Effect
  {
    Linked(Uri(fill.uri), Term(Sp, "pharmacy"), PharmacyEffect(After(start, FillLiteralsStep(fill)), fill.obj, "pharmacy"))
  }

  function FillProviderStep(start: nat, fill: Fill): Effect
  {
    Linked(Uri(fill.uri), Term(Sp, "provider"),
           ProviderEffect(After(start, Then(FillLiteralsStep(fill), FillPharmacyStep(start, fill))), fill.obj, "provider"))
  }

  function FillQuantityStep(start: nat, fill: Fill): Effect
  {
    var before := Then(Then(FillLiteralsStep(fill), FillPharmacyStep(start, fill)), FillProviderStep(start, fill));
    When(HasQuantityDispensed(fill),
         ValueLinkEffect(After(start, before), Uri(fill.uri), Term(Sp, "quantityDispensed"),
                         fill.quantityDispensedValue, fill.quantityDispensedUnit))
  }

  /** `addFill`'s additions split by step. */
  lemma FillSplit(start: nat, patient: Node, fill: Fill, medNode: Option<Node>, uriOnly: bool)
    ensures FillEffect(start, patient, fill, medNode, uriOnly).added
      == FillLiteralsStep(fill).added + FillPharmacyStep(start, fill).added + FillProviderStep(start, fill).added
         + FillQuantityStep(start, fill).added + FillLinks(Uri(fill.uri), patient, fill, medNode, uriOnly)
  {
  }

  lemma WhenValueLinkInner(c: bool, start: nat, p: Node, pred: Node, value: Field, units: Field)
    requires p.Uri? && (c ==> Truthy(value))
    ensures var e := When(c, ValueLinkEffect(start, p, pred, value, units));
      && OnlyEdges(e.added, p, {pred})
      && (forall t | t in e.added :: t.o != p)
      && (HasEdge(e.added, p, pred) <==> c)
  {
    WhenValueLink(c, start, p, pred, value, units);
  }

  const FillLiteralPreds: set<Node> :=
    {RdfType, Term(Dcterms, "date"), Term(Sp, "dispenseDaysSupply"), Term(Sp, "pbm")}
  const FillLinkPreds: set<Node> := {Term(Sp, "fulfillment"), Term(Sp, "medication"), BelongsTo}

  lemma FillLiteralsEdges(rf: Node, fill: Fill)
    ensures OnlyEdges(FillLiterals(rf, fill), rf, FillLiteralPreds)
    ensures HasEdge(FillLiterals(rf, fill), rf, Term(Sp, "pbm")) <==> Truthy(fill.pbm)
  {
    if Truthy(fill.pbm) {
      assert Triple(rf, Term(Sp, "pbm"), Lit(fill.pbm)) in FillLiterals(rf, fill);
    }
  }

  /** In a union of five parts, each with edges from `n` only under its own
      predicates, an edge under `p` can come only from the part numbered `k`,
      the one whose predicates hold `p`. */
  lemma EdgeFromPart(a: set<Triple>, b: set<Triple>, c: set<Triple>, d: set<Triple>, e: set<Triple>, n: Node, p: Node, k: nat,
                     qa: set<Node>, qb: set<Node>, qc: set<Node>, qd: set<Node>, qe: set<Node>)
    requires k < 5
    requires OnlyEdges(a, n, qa) && OnlyEdges(b, n, qb) && OnlyEdges(c, n, qc) && OnlyEdges(d, n, qd) && OnlyEdges(e, n, qe)
    requires (p in qa ==> k == 0) && (p in qb ==> k == 1) && (p in qc ==> k == 2) && (p in qd ==> k == 3) && (p in qe ==> k == 4)
    ensures HasEdge(a + b + c + d + e, n, p) <==> HasEdge([a, b, c, d, e][k], n, p)
  {
    var ts := a + b + c + d + e;
    var part := [a, b, c, d, e][k];
    if HasEdge(ts, n, p) {
      var t :| t in ts && t.s == n && t.p == p;
      assert t in part;
    }
    if HasEdge(part, n, p) {
      var t :| t in part && t.s == n && t.p == p;
      assert t in ts;
    }
  }

  /** Set reasoning behind `FillShape`, kept apart from the effects: the edges from the fulfillment node. */
  lemma FillEdgesCombine(lit: set<Triple>, ph: set<Triple>, pv: set<Triple>, qd: set<Triple>, links: set<Triple>, rf: Node,
                         hasPbm: bool, hasPh: bool, hasPv: bool, hasQd: bool)
    requires OnlyEdges(lit, rf, FillLiteralPreds) && (HasEdge(lit, rf, Term(Sp, "pbm")) <==> hasPbm)
    requires OnlyEdges(ph, rf, {Term(Sp, "pharmacy")}) && (HasEdge(ph, rf, Term(Sp, "pharmacy")) <==> hasPh)
    requires OnlyEdges(pv, rf, {Term(Sp, "provider")}) && (HasEdge(pv, rf, Term(Sp, "provider")) <==> hasPv)
    requires OnlyEdges(qd, rf, {Term(Sp, "quantityDispensed")}) && (HasEdge(qd, rf, Term(Sp, "quantityDispensed")) <==> hasQd)
    requires OnlyEdges(links, rf, FillLinkPreds)
    ensures var ts := lit + ph + pv + qd + links;
      && (HasEdge(ts, rf, Term(Sp, "pbm")) <==> hasPbm)
      && (HasEdge(ts, rf, Term(Sp, "pharmacy")) <==> hasPh)
      && (HasEdge(ts, rf, Term(Sp, "provider")) <==> hasPv)
      && (HasEdge(ts, rf, Term(Sp, "quantityDispensed")) <==> hasQd)
  {
    EdgeFromPart(lit, ph, pv, qd, links, rf, Term(Sp, "pbm"), 0, FillLiteralPreds, {Term(Sp, "pharmacy")},
                 {Term(Sp, "provider")}, {Term(Sp, "quantityDispensed")}, FillLinkPreds);
    EdgeFromPart(lit, ph, pv, qd, links, rf, Term(Sp, "pharmacy"), 1, FillLiteralPreds, {Term(Sp, "pharmacy")},
                 {Term(Sp, "provider")}, {Term(Sp, "quantityDispensed")}, FillLinkPreds);
    EdgeFromPart(lit, ph, pv, qd, links, rf, Term(Sp, "provider"), 2, FillLiteralPreds, {Term(Sp, "pharmacy")},
                 {Term(Sp, "provider")}, {Term(Sp, "quantityDispensed")}, FillLinkPreds);
    EdgeFromPart(lit, ph, pv, qd, links, rf, Term(Sp, "quantityDispensed"), 3, FillLiteralPreds, {Term(Sp, "pharmacy")},
                 {Term(Sp, "provider")}, {Term(Sp, "quantityDispensed")}, FillLinkPreds);
  }

  /** Set reasoning behind `FillShape`: the links between the fulfillment and its medication. */
  lemma FillLinksCombine(ph: set<Triple>, pv: set<Triple>, qd: set<Triple>, rf: Node, patient: Node, fill: Fill,
                         medNode: Option<Node>, uriOnly: bool)
    requires rf == Uri(fill.uri)
    requires OnlyEdges(ph, rf, {Term(Sp, "pharmacy")}) && (forall t | t in ph :: t.o != rf)
    requires OnlyEdges(pv, rf, {Term(Sp, "provider")}) && (forall t | t in pv :: t.o != rf)
    requires OnlyEdges(qd, rf, {Term(Sp, "quantityDispensed")}) && (forall t | t in qd :: t.o != rf)
    ensures var ts := FillLiterals(rf, fill) + ph + pv + qd + FillLinks(rf, patient, fill, medNode, uriOnly);
      && (forall x :: Triple(x, Term(Sp, "fulfillment"), rf) in ts <==> medNode == Some(x) && NodeTruthy(x))
      && (forall o :: Triple(rf, Term(Sp, "medication"), o) in ts <==>
            fill.medication.Some? && o == (if uriOnly then Uri(fill.medication.value.uri) else Target(medNode)))
  {
  }

  /** The three sub-builder steps of `addFill` each add one edge from the
      fulfillment node, exactly when the sub-builder returns a node, and no edge into it. */
  lemma FillPharmacyEdges(start: nat, fill: Fill)
    ensures var rf := Uri(fill.uri);
      var ph := FillPharmacyStep(start, fill).added;
      && OnlyEdges(ph, rf, {Term(Sp, "pharmacy")}) && (forall t | t in ph :: t.o != rf)
      && (HasEdge(ph, rf, Term(Sp, "pharmacy")) <==> !AllFalsy(fill.obj, "pharmacy", PharmacySuffixes))
  {
    var s1 := After(start, FillLiteralsStep(fill));
    PharmacyInner(s1, fill.obj, "pharmacy");
    LinkedInner(Uri(fill.uri), Term(Sp, "pharmacy"), PharmacyEffect(s1, fill.obj, "pharmacy"));
  }

  lemma FillProviderEdges(start: nat, fill: Fill)
    ensures var rf := Uri(fill.uri);
      var pv := FillProviderStep(start, fill).added;
      && OnlyEdges(pv, rf, {Term(Sp, "provider")}) && (forall t | t in pv :: t.o != rf)
      && (HasEdge(pv, rf, Term(Sp, "provider")) <==> !AllFalsy(fill.obj, "provider", ProviderSuffixes))
  {
    var s2 := After(start, Then(FillLiteralsStep(fill), FillPharmacyStep(start, fill)));
    ProviderInner(s2, fill.obj, "provider");
    LinkedInner(Uri(fill.uri), Term(Sp, "provider"), ProviderEffect(s2, fill.obj, "provider"));
  }

  lemma FillQuantityEdges(start: nat, fill: Fill)
    ensures var rf := Uri(fill.uri);
      var qd := FillQuantityStep(start, fill).added;
      && OnlyEdges(qd, rf, {Term(Sp, "quantityDispensed")}) && (forall t | t in qd :: t.o != rf)
      && (HasEdge(qd, rf, Term(Sp, "quantityDispensed")) <==> HasQuantityDispensed(fill))
  {
    var before := Then(Then(FillLiteralsStep(fill), FillPharmacyStep(start, fill)), FillProviderStep(start, fill));
    WhenValueLinkInner(HasQuantityDispensed(fill), After(start, before), Uri(fill.uri), Term(Sp, "quantityDispensed"),
                       fill.quantityDispensedValue, fill.quantityDispensedUnit);
  }

  lemma FillLinksEdges(rf: Node, patient: Node, fill: Fill, medNode: Option<Node>, uriOnly: bool)
    ensures OnlyEdges(FillLinks(rf, patient, fill, medNode, uriOnly), rf, FillLinkPreds)
  {
  }

  /** The edges `addFill` gives the fulfillment node only under a condition. */
  lemma FillOptional(start: nat, patient: Node, fill: Fill, medNode: Option<Node>, uriOnly: bool)
    ensures var e := FillEffect(start, patient, fill, medNode, uriOnly);
      var rf := Uri(fill.uri);
      && (HasEdge(e.added, rf, Term(Sp, "pbm")) <==> Truthy(fill.pbm))
      && (HasEdge(e.added, rf, Term(Sp, "pharmacy")) <==> !AllFalsy(fill.obj, "pharmacy", PharmacySuffixes))
      && (HasEdge(e.added, rf, Term(Sp, "provider")) <==> !AllFalsy(fill.obj, "provider", ProviderSuffixes))
      && (HasEdge(e.added, rf, Term(Sp, "quantityDispensed")) <==> HasQuantityDispensed(fill))
  {
    var rf := Uri(fill.uri);
    FillSplit(start, patient, fill, medNode, uriOnly);
    FillPharmacyEdges(start, fill);
    FillProviderEdges(start, fill);
    FillQuantityEdges(start, fill);
    FillLiteralsEdges(rf, fill);
    FillLinksEdges(rf, patient, fill, medNode, uriOnly);
    FillEdgesCombine(FillLiterals(rf, fill), FillPharmacyStep(start, fill).added, FillProviderStep(start, fill).added,
                     FillQuantityStep(start, fill).added, FillLinks(rf, patient, fill, medNode, uriOnly), rf,
                     Truthy(fill.pbm), !AllFalsy(fill.obj, "pharmacy", PharmacySuffixes),
                     !AllFalsy(fill.obj, "provider", ProviderSuffixes), HasQuantityDispensed(fill));
  }

  /** `addFill`'s edges from the fulfillment node `URIRef(fill.uri(...))`: type,
      date and days of supply always; a PBM exactly when it is truthy; a pharmacy,
      a provider and a quantity dispensed exactly when there is one to show. */
  lemma FillEdges(start: nat, patient: Node, fill: Fill, medNode: Option<Node>, uriOnly: bool)
    ensures var e := FillEffect(start, patient, fill, medNode, uriOnly);
      var rf := Uri(fill.uri);
      && Triple(rf, RdfType, Term(Sp, "Fulfillment")) in e.added
      && Triple(rf, Term(Dcterms, "date"), Lit(fill.date)) in e.added
      && Triple(rf, Term(Sp, "dispenseDaysSupply"), Lit(fill.dispenseDaysSupply)) in e.added
      && Triple(rf, BelongsTo, patient) in e.added
      && (HasEdge(e.added, rf, Term(Sp, "pbm")) <==> Truthy(fill.pbm))
      && (HasEdge(e.added, rf, Term(Sp, "pharmacy")) <==> !AllFalsy(fill.obj, "pharmacy", PharmacySuffixes))
      && (HasEdge(e.added, rf, Term(Sp, "provider")) <==> !AllFalsy(fill.obj, "provider", ProviderSuffixes))
      && (HasEdge(e.added, rf, Term(Sp, "quantityDispensed")) <==> HasQuantityDispensed(fill))
  {
    FillSplit(start, patient, fill, medNode, uriOnly);
    FillOptional(start, patient, fill, medNode, uriOnly);
  }

  /** `addFill`'s links with its medication: an sp:fulfillment edge from `medNode`
      exactly when `medNode` is truthy, and an sp:medication edge exactly when the
      fill has a medication — to its URI when `uriOnly`, otherwise to `medNode`
      (None when absent) — and to nothing else. */
  lemma FillMedicationLinks(start: nat, patient: Node, fill: Fill, medNode: Option<Node>, uriOnly: bool)
    ensures var e := FillEffect(start, patient, fill, medNode, uriOnly);
      var rf := Uri(fill.uri);
      && (forall x :: Triple(x, Term(Sp, "fulfillment"), rf) in e.added <==> medNode == Some(x) && NodeTruthy(x))
      && (forall o :: Triple(rf, Term(Sp, "medication"), o) in e.added <==>
            fill.medication.Some? && o == (if uriOnly then Uri(fill.medication.value.uri) else Target(medNode)))
  {
    var rf := Uri(fill.uri);
    FillSplit(start, patient, fill, medNode, uriOnly);
    FillPharmacyEdges(start, fill);
    FillProviderEdges(start, fill);
    FillQuantityEdges(start, fill);
    FillLinksCombine(FillPharmacyStep(start, fill).added, FillProviderStep(start, fill).added,
                     FillQuantityStep(start, fill).added, rf, patient, fill, medNode, uriOnly);
  }

  // ---------------------------------------------------------------- problem

  lemma ProblemLiteralsEdges(n: Node, prob: Problem)
    ensures var ts := ProblemLiterals(n, prob);
      && OnlyEdges(ts, n, {RdfType, Term(Sp, "startDate"), Term(Sp, "endDate"), Term(Sp, "notes")})
      && (HasEdge(ts, n, Term(Sp, "endDate")) <==> Truthy(prob.endDate))
      && (HasEdge(ts, n, Term(Sp, "notes")) <==> Truthy(prob.notes))
  {
    var ts := ProblemLiterals(n, prob);
    if Truthy(prob.endDate) {
      assert Triple(n, Term(Sp, "endDate"), Lit(prob.endDate)) in ts;
    }
    if Truthy(prob.notes) {
      assert Triple(n, Term(Sp, "notes"), Lit(prob.notes)) in ts;
    }
  }

  /** Set reasoning behind `ProblemShape`, kept apart from the effects. */
  lemma ProblemEdgesCombine(lit: set<Triple>, cv: set<Triple>, st: set<Triple>, n: Node, hasEnd: bool, hasNotes: bool)
    requires OnlyEdges(lit, n, {RdfType, Term(Sp, "startDate"), Term(Sp, "endDate"), Term(Sp, "notes")})
    requires HasEdge(lit, n, Term(Sp, "endDate")) <==> hasEnd
    requires HasEdge(lit, n, Term(Sp, "notes")) <==> hasNotes
    requires OnlyEdges(cv, n, CodedPreds + {Term(Sp, "problemName")})
    requires OnlyEdges(st, n, {BelongsTo})
    ensures HasEdge(lit + cv + st, n, Term(Sp, "endDate")) <==> hasEnd
    ensures HasEdge(lit + cv + st, n, Term(Sp, "notes")) <==> hasNotes
  {
    var ts := lit + cv + st;
    if HasEdge(ts, n, Term(Sp, "endDate")) {
      var t :| t in ts && t.s == n && t.p == Term(Sp, "endDate");
      assert t in lit;
    }
    if HasEdge(ts, n, Term(Sp, "notes")) {
      var t :| t in ts && t.s == n && t.p == Term(Sp, "notes");
      assert t in lit;
    }
  }

  /** One problem of `addProblemList`: the node `URIRef(prob.uri())` typed
      sp:Problem, with its start date and a SNOMED-coded problem name (the coded
      value is the first blank node minted) always, an end date and notes exactly
      when they are truthy, and its statement edge to the patient. */
  lemma ProblemShape(start: nat, patient: Node, prob: Problem)
    ensures var e := ProblemEffect(start, patient, prob);
      var n := Uri(prob.uri);
      && Triple(n, RdfType, Term(Sp, "Problem")) in e.added
      && Triple(n, Term(Sp, "startDate"), Lit(prob.startDate)) in e.added
      && Triple(n, Term(Sp, "problemName"), Blank(start)) in e.added
      && Triple(Blank(start), Term(Sp, "code"), Uri(SnomedUri + Render(prob.nameIdentifier))) in e.added
      && Triple(n, BelongsTo, patient) in e.added
      && (HasEdge(e.added, n, Term(Sp, "endDate")) <==> Truthy(prob.endDate))
      && (HasEdge(e.added, n, Term(Sp, "notes")) <==> Truthy(prob.notes))
  {
    var n := Uri(prob.uri);
    var e0 := Effect(ProblemLiterals(n, prob), 0, Some(n));
    var cv := CodedLinkEffect(After(start, e0), n, Term(Sp, "problemName"), Term(SpCode, "SNOMED"),
                              SnomedUri + Render(prob.nameIdentifier), prob.nameTitle, Str(SnomedUri), prob.nameIdentifier);
    assert ProblemEffect(start, patient, prob).added == ProblemLiterals(n, prob) + cv.added + {Triple(n, BelongsTo, patient)};
    ProblemLiteralsEdges(n, prob);
    CodedLinkEdges(After(start, e0), n, Term(Sp, "problemName"), Term(SpCode, "SNOMED"),
                   SnomedUri + Render(prob.nameIdentifier), prob.nameTitle, Str(SnomedUri), prob.nameIdentifier);
    ProblemEdgesCombine(ProblemLiterals(n, prob), cv.added, {Triple(n, BelongsTo, patient)}, n,
                        Truthy(prob.endDate), Truthy(prob.notes));
  }

  /** One problem of `addProblemList` as it shows in `ts`. */
  predicate ProblemIn(ts: set<Triple>, patient: Node, prob: Problem)
  {
    && Triple(Uri(prob.uri), RdfType, Term(Sp, "Problem")) in ts
    && Triple(Uri(prob.uri), Term(Sp, "startDate"), Lit(prob.startDate)) in ts
    && HasEdge(ts, Uri(prob.uri), Term(Sp, "problemName"))
    && Triple(Uri(prob.uri), BelongsTo, patient) in ts
  }

  lemma ProblemInGrows(ts: set<Triple>, ts': set<Triple>, patient: Node, prob: Problem)
    requires ProblemIn(ts, patient, prob) && ts <= ts'
    ensures ProblemIn(ts', patient, prob)
  {
    var t :| t in ts && t.s == Uri(prob.uri) && t.p == Term(Sp, "problemName");
    assert t in ts';
  }

  /** One iteration of `addProblemList`. */
  lemma ProblemAdds(pg: PatientGraph, prob: Problem)
    ensures var r := AddProblem(pg, prob);
      Grows(pg, r) && ProblemIn(r.triples, pg.patient, prob)
  {
    ProblemShape(pg.next, pg.patient, prob);
    assert Triple(Uri(prob.uri), Term(Sp, "problemName"), Blank(pg.next)) in AddProblem(pg, prob).triples;
  }

  /** One more turn of the loop of `addProblemList`. */
  lemma ProblemListUnroll(pg: PatientGraph, probs: seq<Problem>)
    requires |probs| > 0
    ensures AddProblemList(pg, probs) == AddProblemList(AddProblem(pg, probs[0]), probs[1..])
  {
  }

  /** Every problem of `addProblemList` ends up typed, with its start date, its
      problem name and its statement edge to the patient; nothing is removed. */
  lemma {:induction false} ProblemListAdds(pg: PatientGraph, probs: seq<Problem>)
    ensures var r := AddProblemList(pg, probs);
      && Grows(pg, r)
      && forall i | 0 <= i < |probs| :: ProblemIn(r.triples, pg.patient, probs[i])
    decreases |probs|
  {
    if |probs| > 0 {
      var g := AddProblem(pg, probs[0]);
      ProblemAdds(pg, probs[0]);
      ProblemListAdds(g, probs[1..]);
      ProblemListUnroll(pg, probs);
      var r := AddProblemList(pg, probs);
      ProblemInGrows(g.triples, r.triples, pg.patient, probs[0]);
      forall i | 1 <= i < |probs| ensures probs[i] == probs[1..][i - 1] { }
    }
  }

  // ---------------------------------------------------------------- medication list

  /** A fill's links with its medication as `addMedList` and `addFillList` make them:
      to the medication's URI, and back from it when that URI is not empty. */
  predicate FillMedLinked(ts: set<Triple>, f: Fill)
    requires f.medication.Some?
  {
    && Triple(Uri(f.uri), Term(Sp, "medication"), Uri(f.medication.value.uri)) in ts
    && (f.medication.value.uri != "" ==> Triple(Uri(f.medication.value.uri), Term(Sp, "fulfillment"), Uri(f.uri)) in ts)
  }

  /** Every fill's links with its medication and its statement edge are in `ts`. */
  predicate AllFillLinks(ts: set<Triple>, patient: Node, fills: seq<Fill>, medNode: Option<Node>, uriOnly: bool)
  {
    forall j | 0 <= j < |fills| :: FillLinks(Uri(fills[j].uri), patient, fills[j], medNode, uriOnly) <= ts
  }

  lemma AllFillLinksCons(g: set<Triple>, ts: set<Triple>, patient: Node, fills: seq<Fill>, medNode: Option<Node>, uriOnly: bool)
    requires |fills| > 0 && g <= ts
    requires FillLinks(Uri(fills[0].uri), patient, fills[0], medNode, uriOnly) <= g
    requires AllFillLinks(ts, patient, fills[1..], medNode, uriOnly)
    ensures AllFillLinks(ts, patient, fills, medNode, uriOnly)
  {
    forall j | 1 <= j < |fills| ensures FillLinks(Uri(fills[j].uri), patient, fills[j], medNode, uriOnly) <= ts {
      assert fills[1..][j - 1] == fills[j];
    }
  }

  /** The fills of one medication, added in order, each with its links and its statement edge. */
  lemma {:induction false} AddFillsLinks(pg: PatientGraph, fills: seq<Fill>, medNode: Option<Node>, uriOnly: bool)
    ensures var r := AddFills(pg, fills, medNode, uriOnly);
      Grows(pg, r) && AllFillLinks(r.triples, pg.patient, fills, medNode, uriOnly)
    decreases |fills|
  {
    if |fills| > 0 {
      var g := AddFill(pg, fills[0], medNode, uriOnly);
      AddFillLinks(pg, fills[0], medNode, uriOnly);
      AddFillsLinks(g, fills[1..], medNode, uriOnly);
      var r := AddFills(g, fills[1..], medNode, uriOnly);
      assert r == AddFills(pg, fills, medNode, uriOnly);
      AllFillLinksCons(g.triples, r.triples, pg.patient, fills, medNode, uriOnly);
    }
  }

  /** One entry of `addMedList` as it shows in `ts`: the medication typed and
      linked to the patient, and each of its fills linked to the patient, to the
      fill's own medication by URI, and back from this medication's node when its
      URI is not empty. */
  predicate MedEntryIn(ts: set<Triple>, patient: Node, m: Medication, fills: seq<Fill>)
  {
    && Triple(Uri(m.uri), RdfType, Term(Sp, "Medication")) in ts
    && Triple(Uri(m.uri), BelongsTo, patient) in ts
    && forall j | 0 <= j < |fills| ::
         && Triple(Uri(fills[j].uri), BelongsTo, patient) in ts
         && (m.uri != "" ==> Triple(Uri(m.uri), Term(Sp, "fulfillment"), Uri(fills[j].uri)) in ts)
         && (fills[j].medication.Some? ==>
               Triple(Uri(fills[j].uri), Term(Sp, "medication"), Uri(fills[j].medication.value.uri)) in ts)
  }

  lemma MedEntryInGrows(ts: set<Triple>, ts': set<Triple>, patient: Node, m: Medication, fills: seq<Fill>)
    requires MedEntryIn(ts, patient, m, fills) && ts <= ts'
    ensures MedEntryIn(ts', patient, m, fills)
  {
  }

  /** The links `addFill` makes for each fill of a medication node, read as `MedEntryIn`. */
  lemma MedEntryFromLinks(ts: set<Triple>, patient: Node, m: Medication, fills: seq<Fill>)
    requires Triple(Uri(m.uri), RdfType, Term(Sp, "Medication")) in ts
    requires Triple(Uri(m.uri), BelongsTo, patient) in ts
    requires AllFillLinks(ts, patient, fills, Some(Uri(m.uri)), true)
    ensures MedEntryIn(ts, patient, m, fills)
  {
    forall j | 0 <= j < |fills|
      ensures Triple(Uri(fills[j].uri), BelongsTo, patient) in ts
      ensures m.uri != "" ==> Triple(Uri(m.uri), Term(Sp, "fulfillment"), Uri(fills[j].uri)) in ts
      ensures fills[j].medication.Some? ==>
                Triple(Uri(fills[j].uri), Term(Sp, "medication"), Uri(fills[j].medication.value.uri)) in ts
    {
      assert FillLinks(Uri(fills[j].uri), patient, fills[j], Some(Uri(m.uri)), true) <= ts;
    }
  }

  /** One entry of `addMedList`. */
  lemma MedEntryAdds(pg: PatientGraph, m: Medication, fills: seq<Fill>)
    ensures var r := AddMedEntry(pg, m, fills);
      Grows(pg, r) && MedEntryIn(r.triples, pg.patient, m, fills)
  {
    var n := Uri(m.uri);
    var med := MedicationNode(pg, m);
    MedicationAlways(pg.next, m);
    var g := AddStatement(med.pg, n);
    AddFillsLinks(g, fills, Some(n), true);
    var r := AddFills(g, fills, Some(n), true);
    MedEntryFromLinks(r.triples, pg.patient, m, fills);
  }

  lemma MedEntriesCons(ts: set<Triple>, patient: Node, meds: seq<Medication>, fulfillments: Medication -> seq<Fill>)
    requires |meds| > 0
    requires MedEntryIn(ts, patient, meds[0], fulfillments(meds[0]))
    requires forall i | 0 <= i < |meds[1..]| :: MedEntryIn(ts, patient, meds[1..][i], fulfillments(meds[1..][i]))
    ensures forall i | 0 <= i < |meds| :: MedEntryIn(ts, patient, meds[i], fulfillments(meds[i]))
  {
    forall i | 1 <= i < |meds| ensures MedEntryIn(ts, patient, meds[i], fulfillments(meds[i])) {
      assert meds[i] == meds[1..][i - 1];
    }
  }

  /** One more turn of the loop of `addMedList`. */
  lemma MedListUnroll(pg: PatientGraph, meds: seq<Medication>, fulfillments: Medication -> seq<Fill>)
    requires |meds| > 0
    ensures AddMedList(pg, meds, fulfillments) == AddMedList(AddMedEntry(pg, meds[0], fulfillments(meds[0])), meds[1..], fulfillments)
  {
  }

  /** `addMedList`: every medication and every one of its fulfillments, as
      `MedEntryIn` states; nothing is removed. */
  lemma {:induction false} MedListAdds(pg: PatientGraph, meds: seq<Medication>, fulfillments: Medication -> seq<Fill>)
    ensures var r := AddMedList(pg, meds, fulfillments);
      && Grows(pg, r)
      && forall i | 0 <= i < |meds| :: MedEntryIn(r.triples, pg.patient, meds[i], fulfillments(meds[i]))
    decreases |meds|
  {
    if |meds| > 0 {
      var g := AddMedEntry(pg, meds[0], fulfillments(meds[0]));
      MedEntryAdds(pg, meds[0], fulfillments(meds[0]));
      MedListAdds(g, meds[1..], fulfillments);
      MedListUnroll(pg, meds, fulfillments);
      var r := AddMedList(pg, meds, fulfillments);
      MedEntryInGrows(g.triples, r.triples, pg.patient, meds[0], fulfillments(meds[0]));
      MedEntriesCons(r.triples, pg.patient, meds, fulfillments);
    }
  }

  // ---------------------------------------------------------------- fill list

  /** Fills whose medications share an id share a URI: they are one stored medication. */
  predicate Consistent(fills: seq<Fill>)
    requires HasMedications(fills)
  {
    forall i, j | 0 <= i < |fills| && 0 <= j < |fills| && fills[i].medication.value.id == fills[j].medication.value.id ::
      fills[i].medication.value.uri == fills[j].medication.value.uri
  }

  /** The cache maps each id the fills mention to that medication's URI node. */
  predicate CacheAgrees(cache: map<int, Node>, fills: seq<Fill>)
    requires HasMedications(fills)
  {
    forall k | 0 <= k < |fills| && fills[k].medication.value.id in cache ::
      cache[fills[k].medication.value.id] == Uri(fills[k].medication.value.uri)
  }

  lemma FillListTail(fills: seq<Fill>)
    requires HasMedications(fills) && |fills| > 0
    ensures HasMedications(fills[1..])
    ensures Consistent(fills) ==> Consistent(fills[1..])
    ensures forall k | 1 <= k < |fills| :: fills[1..][k - 1] == fills[k]
  {
  }

  /** What the loop still needs to know about the fills after the first. */
  lemma AgreesTail(cache: map<int, Node>, fills: seq<Fill>)
    requires HasMedications(fills) && |fills| > 0 && Consistent(fills) && CacheAgrees(cache, fills)
    ensures HasMedications(fills[1..]) && Consistent(fills[1..]) && CacheAgrees(cache, fills[1..])
  {
    FillListTail(fills);
  }

  /** One iteration links its fill to the medication's URI node and back. */
  lemma FillListStepLinks(run: FillListRun, fills: seq<Fill>)
    requires HasMedications(fills) && |fills| > 0 && CacheAgrees(run.cache, fills)
    ensures FillMedLinked(FillListStep(run, fills[0]).pg.triples, fills[0])
  {
    var f := fills[0];
    var next := FillListStep(run, f);
    if Reusable(run.cache, f.medication.value.id) {
      assert next.cache == run.cache;
    } else {
      assert next.cache == run.cache[f.medication.value.id := Uri(f.medication.value.uri)];
    }
    assert MedNodeOf(next, f) == Uri(f.medication.value.uri);
  }

  /** Caching the first fill's medication keeps the cache agreeing with consistent fills. */
  lemma CacheUpdateAgrees(cache: map<int, Node>, fills: seq<Fill>)
    requires HasMedications(fills) && |fills| > 0 && Consistent(fills) && CacheAgrees(cache, fills)
    ensures CacheAgrees(cache[fills[0].medication.value.id := Uri(fills[0].medication.value.uri)], fills)
  {
  }

  /** One iteration keeps the cache agreeing with consistent fills. */
  lemma FillListStepCache(run: FillListRun, fills: seq<Fill>)
    requires HasMedications(fills) && |fills| > 0 && Consistent(fills) && CacheAgrees(run.cache, fills)
    ensures CacheAgrees(FillListStep(run, fills[0]).cache, fills)
  {
    CacheUpdateAgrees(run.cache, fills);
  }

  lemma FillMedLinkedGrows(ts: set<Triple>, ts': set<Triple>, f: Fill)
    requires f.medication.Some? && FillMedLinked(ts, f) && ts <= ts'
    ensures FillMedLinked(ts', f)
  {
  }

  /** Every fill is linked to its medication in `ts`. */
  predicate AllLinked(ts: set<Triple>, fills: seq<Fill>)
    requires HasMedications(fills)
  {
    forall k | 0 <= k < |fills| :: FillMedLinked(ts, fills[k])
  }

  lemma AllLinkedCons(ts: set<Triple>, fills: seq<Fill>)
    requires HasMedications(fills) && |fills| > 0
    requires FillMedLinked(ts, fills[0]) && AllLinked(ts, fills[1..])
    ensures AllLinked(ts, fills)
  {
    forall k | 1 <= k < |fills| ensures FillMedLinked(ts, fills[k]) {
      assert fills[1..][k - 1] == fills[k];
    }
  }

  /** The cache after the rest of the loop still agrees on the first fill: either a
      later fill with the same id re-cached the same URI, or the entry was left alone. */
  lemma CacheAgreesCons(c: map<int, Node>, c': map<int, Node>, fills: seq<Fill>)
    requires HasMedications(fills) && |fills| > 0 && Consistent(fills)
    requires CacheAgrees(c, fills) && CacheAgrees(c', fills[1..])
    requires fills[0].medication.value.id in c
    requires fills[0].medication.value.id !in MedIds(fills[1..]) ==>
               fills[0].medication.value.id in c' && c'[fills[0].medication.value.id] == c[fills[0].medication.value.id]
    requires fills[0].medication.value.id in MedIds(fills[1..]) ==> fills[0].medication.value.id in c'
    ensures CacheAgrees(c', fills)
  {
    var id0 := fills[0].medication.value.id;
    forall k | 0 <= k < |fills| && fills[k].medication.value.id in c'
      ensures c'[fills[k].medication.value.id] == Uri(fills[k].medication.value.uri)
    {
      if k > 0 {
        assert fills[1..][k - 1] == fills[k];
      } else if id0 in MedIds(fills[1..]) {
        var j :| 0 <= j < |fills[1..]| && fills[1..][j].medication.value.id == id0;
        assert fills[1..][j] == fills[j + 1];
      }
    }
  }

  /** One more turn of the loop of `addFillList`. */
  lemma FillListUnroll(run: FillListRun, fills: seq<Fill>)
    requires HasMedications(fills) && |fills| > 0
    ensures HasMedications(fills[1..])
    ensures AddFillListFrom(run, fills) == AddFillListFrom(FillListStep(run, fills[0]), fills[1..])
  {
  }

  lemma NotInMedIdsTail(fills: seq<Fill>, id: int)
    requires HasMedications(fills) && |fills| > 0 && id !in MedIds(fills)
    ensures HasMedications(fills[1..]) && id != fills[0].medication.value.id && id !in MedIds(fills[1..])
  {
    MedIdsCons(fills);
  }

  lemma FillListStepKeeps(run: FillListRun, f: Fill, id: int)
    requires f.medication.Some? && id in run.cache && id != f.medication.value.id
    ensures var next := FillListStep(run, f); id in next.cache && next.cache[id] == run.cache[id]
  {
  }

  /** The loop leaves alone a cached entry whose id no remaining fill names. */
  lemma {:induction false} FillListFromKeeps(run: FillListRun, fills: seq<Fill>, id: int)
    requires HasMedications(fills) && id in run.cache && id !in MedIds(fills)
    ensures var r := AddFillListFrom(run, fills); id in r.cache && r.cache[id] == run.cache[id]
    decreases |fills|
  {
    if |fills| > 0 {
      NotInMedIdsTail(fills, id);
      FillListStepKeeps(run, fills[0], id);
      FillListFromKeeps(FillListStep(run, fills[0]), fills[1..], id);
      FillListUnroll(run, fills);
    }
  }

  /** The loop of `addFillList` links every fill to its medication's URI node and
      back, when the medications are consistent and the cache agrees with them. */
  lemma {:induction false} FillListFromLinks(run: FillListRun, fills: seq<Fill>)
    requires HasMedications(fills) && Consistent(fills) && CacheAgrees(run.cache, fills)
    ensures var r := AddFillListFrom(run, fills);
      CacheAgrees(r.cache, fills) && AllLinked(r.pg.triples, fills)
    decreases |fills|
  {
    if |fills| > 0 {
      var next := FillListStep(run, fills[0]);
      FillListStepLinks(run, fills);
      FillListStepCache(run, fills);
      AgreesTail(next.cache, fills);
      FillListFromLinks(next, fills[1..]);
      if fills[0].medication.value.id !in MedIds(fills[1..]) {
        FillListFromKeeps(next, fills[1..], fills[0].medication.value.id);
      }
      FillListUnroll(run, fills);
      var r := AddFillListFrom(next, fills[1..]);
      FillMedLinkedGrows(next.pg.triples, r.pg.triples, fills[0]);
      AllLinkedCons(r.pg.triples, fills);
      CacheAgreesCons(next.cache, r.cache, fills);
    }
  }

  /** `addFillList` on consistent fills: each fill is linked to its medication's
      URI node and back (when the URI is not empty), and `addedMeds` maps each
      medication id to that node. */
  lemma FillListLinks(pg: PatientGraph, fills: seq<Fill>)
    requires HasMedications(fills) && Consistent(fills)
    ensures var r := AddFillList(pg, fills);
      && AllLinked(r.pg.triples, fills)
      && (forall k | 0 <= k < |fills| :: r.cache[fills[k].medication.value.id] == Uri(fills[k].medication.value.uri))
  {
    FillListFromLinks(FillListRun(pg, map[], []), fills);
  }

  /** Every fill's medication has a non-empty URI, so its node is truthy once cached. */
  predicate NonEmptyUris(fills: seq<Fill>)
    requires HasMedications(fills)
  {
    forall k | 0 <= k < |fills| :: fills[k].medication.value.uri != ""
  }

  function BuiltIds(built: seq<Medication>): set<int>
  {
    set i | 0 <= i < |built| :: built[i].id
  }

  /** A node was built once for each cached id, and every cached node is truthy. */
  predicate BuiltOnce(cache: map<int, Node>, built: seq<Medication>)
  {
    && (forall id | id in cache :: NodeTruthy(cache[id]))
    && BuiltIds(built) == cache.Keys
    && (forall i, j | 0 <= i < j < |built| :: built[i].id != built[j].id)
  }

  /** Building and caching a medication whose id is not cached yet keeps `BuiltOnce`. */
  lemma BuiltOnceSnoc(cache: map<int, Node>, built: seq<Medication>, m: Medication)
    requires BuiltOnce(cache, built) && m.id !in cache && m.uri != ""
    ensures BuiltOnce(cache[m.id := Uri(m.uri)], built + [m])
  {
    var built' := built + [m];
    assert built'[|built|] == m;
    forall id | id in BuiltIds(built) ensures id in BuiltIds(built') {
      var i :| 0 <= i < |built| && built[i].id == id;
      assert built'[i] == built[i];
    }
    forall id | id in BuiltIds(built') ensures id in BuiltIds(built) + {m.id} {
      var i :| 0 <= i < |built'| && built'[i].id == id;
      if i < |built| {
        assert built'[i] == built[i];
      }
    }
    forall i, j | 0 <= i < j < |built'| ensures built'[i].id != built'[j].id {
      assert built'[i] == built[i];
      if j == |built| {
        assert built[i].id in BuiltIds(built);
      } else {
        assert built'[j] == built[j];
      }
    }
  }

  /** One iteration keeps `BuiltOnce`: it builds only for an id not cached yet. */
  lemma FillListStepOnce(run: FillListRun, f: Fill)
    requires f.medication.Some? && f.medication.value.uri != "" && BuiltOnce(run.cache, run.built)
    ensures var next := FillListStep(run, f); BuiltOnce(next.cache, next.built)
  {
    if !Reusable(run.cache, f.medication.value.id) {
      BuiltOnceSnoc(run.cache, run.built, f.medication.value);
    }
  }

  lemma NonEmptyUrisTail(fills: seq<Fill>)
    requires |fills| > 0 && HasMedications(fills) && NonEmptyUris(fills)
    ensures HasMedications(fills[1..]) && NonEmptyUris(fills[1..])
  {
    forall k | 0 <= k < |fills| - 1 ensures fills[1..][k] == fills[k + 1] { }
  }

  lemma {:induction false} FillListFromOnce(run: FillListRun, fills: seq<Fill>)
    requires HasMedications(fills) && NonEmptyUris(fills) && BuiltOnce(run.cache, run.built)
    ensures var r := AddFillListFrom(run, fills); BuiltOnce(r.cache, r.built)
    decreases |fills|
  {
    if |fills| > 0 {
      FillListStepOnce(run, fills[0]);
      NonEmptyUrisTail(fills);
      FillListFromOnce(FillListStep(run, fills[0]), fills[1..]);
      FillListUnroll(run, fills);
    }
  }

  /** `addFillList` with non-empty medication URIs builds exactly one medication
      node per distinct medication id: the ids built are pairwise distinct and are
      exactly the ids of the fills' medications. */
  lemma FillListBuildsOnce(pg: PatientGraph, fills: seq<Fill>)
    requires HasMedications(fills) && NonEmptyUris(fills)
    ensures var r := AddFillList(pg, fills);
      && BuiltIds(r.built) == MedIds(fills)
      && (forall i, j | 0 <= i < j < |r.built| :: r.built[i].id != r.built[j].id)
  {
    FillListFromOnce(FillListRun(pg, map[], []), fills);
  }

  /** With an empty medication URI the cached node `URIRef('')` is falsy, so the
      medication is built again for every fill that names it. */
  lemma EmptyUriRebuilds(run: FillListRun, f: Fill)
    requires f.medication.Some? && f.medication.value.uri == ""
    requires f.medication.value.id in run.cache ==> run.cache[f.medication.value.id] == Uri("")
    ensures FillListStep(run, f).built == run.built + [f.medication.value]
    ensures FillListStep(run, f).cache[f.medication.value.id] == Uri("")
  {
  }

  // ---------------------------------------------------------------- fill list, graph level

  const MedicationType := Term(Sp, "Medication")

  /** The nodes `ts` types as `k`. */
  function TypedAs(ts: set<Triple>, k: Node): set<Node>
  {
    set t | t in ts && t.p == RdfType && t.o == k :: t.s
  }

  /** No triple of `ts` types a node as a medication. */
  predicate NoMedicationType(ts: set<Triple>)
  {
    forall t | t in ts :: t.p == RdfType ==> t.o != MedicationType
  }

  lemma GroupNoMedication(start: nat, obj: Record, prefix: string, suffixes: seq<string>, kind: Node, table: EdgeTable)
    requires kind != MedicationType && forall row | row in table :: row.1 != RdfType
    ensures NoMedicationType(GroupEffect(start, obj, prefix, suffixes, kind, table).added)
  {
  }

  lemma LinkedNoMedication(parent: Node, pred: Node, child: Effect)
    requires NoMedicationType(child.added) && pred != RdfType
    ensures NoMedicationType(Linked(parent, pred, child).added)
  {
  }

  lemma PharmacyNoMedication(start: nat, obj: Record, prefix: string)
    ensures NoMedicationType(PharmacyEffect(start, obj, prefix).added)
  {
    GroupNoMedication(start, obj, prefix, PharmacySuffixes, Term(Sp, "Pharmacy"), PharmacyEdges);
    GroupNoMedication(start + 1, obj, prefix + "_adr", AddressSuffixes, Term(Vcard, "Address"), AddressEdges);
  }

  lemma NamedNoMedication(start: nat, p: Node, obj: Record, prefix: string)
    ensures NoMedicationType(NamedEffect(start, p, obj, prefix).added)
  {
    GroupNoMedication(start, obj, prefix, NameSuffixes, Term(Vcard, "Name"), NameEdges);
  }

  lemma AdrLinkNoMedication(start: nat, p: Node, obj: Record, prefix: string)
    ensures NoMedicationType(AdrLinkEffect(start, p, obj, prefix).added)
  {
    GroupNoMedication(start, obj, prefix, AddressSuffixes, Term(Vcard, "Address"), AddressEdges);
    LinkedNoMedication(p, Term(Vcard, "adr"), AddressEffect(start, obj, prefix));
  }

  lemma TelLinkNoMedication(start: nat, p: Node, obj: Record, prefix: string)
    ensures NoMedicationType(TelLinkEffect(start, p, obj, prefix).added)
  {
  }

  lemma NoMedicationUnion(a: set<Triple>, b: set<Triple>, c: set<Triple>, d: set<Triple>)
    requires NoMedicationType(a) && NoMedicationType(b) && NoMedicationType(c) && NoMedicationType(d)
    ensures NoMedicationType(a + b + c + d)
  {
  }

  lemma ProviderTailNoMedication(start: nat, p: Node, obj: Record, prefix: string)
    ensures NoMedicationType(ProviderTailEffect(start, p, obj, prefix).added)
  {
    var e0 := NamedEffect(start, p, obj, prefix + "_name");
    var f1 := AdrLinkEffect(After(start, e0), p, obj, prefix + "_adr");
    var e1 := Then(e0, f1);
    var f2 := TelLinkEffect(After(start, e1), p, obj, prefix + "_tel_1");
    var e2 := Then(e1, f2);
    var f3 := TelLinkEffect(After(start, e2), p, obj, prefix + "_tel_2");
    NamedNoMedication(start, p, obj, prefix + "_name");
    AdrLinkNoMedication(After(start, e0), p, obj, prefix + "_adr");
    TelLinkNoMedication(After(start, e1), p, obj, prefix + "_tel_1");
    TelLinkNoMedication(After(start, e2), p, obj, prefix + "_tel_2");
    NoMedicationUnion(e0.added, f1.added, f2.added, f3.added);
  }

  lemma ProviderEdgesUntyped()
    ensures forall row | row in ProviderEdges :: row.1 != RdfType
  {
  }

  lemma ProviderNoMedication(start: nat, obj: Record, prefix: string)
    ensures NoMedicationType(ProviderEffect(start, obj, prefix).added)
  {
    ProviderEdgesUntyped();
    GroupNoMedication(start, obj, prefix, ProviderSuffixes, Term(Sp, "Provider"), ProviderEdges);
    ProviderTailNoMedication(start + 1, Blank(start), obj, prefix);
  }

  lemma NoneTyped(ts: set<Triple>)
    requires NoMedicationType(ts)
    ensures TypedAs(ts, MedicationType) == {}
  {
  }

  lemma TypedAsUnion(a: set<Triple>, b: set<Triple>)
    requires NoMedicationType(b)
    ensures TypedAs(a + b, MedicationType) == TypedAs(a, MedicationType)
  {
  }

  /** A fulfillment is typed sp:Fulfillment and linked to the patient. */
  predicate FillListed(ts: set<Triple>, patient: Node, f: Fill)
  {
    Triple(Uri(f.uri), RdfType, Term(Sp, "Fulfillment")) in ts && Triple(Uri(f.uri), BelongsTo, patient) in ts
  }

  /** A medication's node is typed sp:Medication and linked to the patient. */
  predicate MedicationListed(ts: set<Triple>, patient: Node, m: Medication)
  {
    Triple(Uri(m.uri), RdfType, MedicationType) in ts && Triple(Uri(m.uri), BelongsTo, patient) in ts
  }

  lemma WhenNoMedication(c: bool, e: Effect)
    requires NoMedicationType(e.added)
    ensures NoMedicationType(When(c, e).added)
  {
  }

  lemma ValueLinkNoMedication(start: nat, p: Node, pred: Node, value: Field, units: Field)
    requires pred != RdfType
    ensures NoMedicationType(ValueLinkEffect(start, p, pred, value, units).added)
  {
  }

  lemma FillPharmacyNoMedication(start: nat, fill: Fill)
    ensures NoMedicationType(FillPharmacyStep(start, fill).added)
  {
    var e := PharmacyEffect(After(start, FillLiteralsStep(fill)), fill.obj, "pharmacy");
    PharmacyNoMedication(After(start, FillLiteralsStep(fill)), fill.obj, "pharmacy");
    LinkedNoMedication(Uri(fill.uri), Term(Sp, "pharmacy"), e);
  }

  lemma FillProviderNoMedication(start: nat, fill: Fill)
    ensures NoMedicationType(FillProviderStep(start, fill).added)
  {
    var at := After(start, Then(FillLiteralsStep(fill), FillPharmacyStep(start, fill)));
    ProviderNoMedication(at, fill.obj, "provider");
    LinkedNoMedication(Uri(fill.uri), Term(Sp, "provider"), ProviderEffect(at, fill.obj, "provider"));
  }

  lemma FillQuantityNoMedication(start: nat, fill: Fill)
    ensures NoMedicationType(FillQuantityStep(start, fill).added)
  {
    var before := Then(Then(FillLiteralsStep(fill), FillPharmacyStep(start, fill)), FillProviderStep(start, fill));
    var e := ValueLinkEffect(After(start, before), Uri(fill.uri), Term(Sp, "quantityDispensed"),
                             fill.quantityDispensedValue, fill.quantityDispensedUnit);
    ValueLinkNoMedication(After(start, before), Uri(fill.uri), Term(Sp, "quantityDispensed"),
                          fill.quantityDispensedValue, fill.quantityDispensedUnit);
    WhenNoMedication(HasQuantityDispensed(fill), e);
  }

  lemma FillEndsNoMedication(patient: Node, fill: Fill, medNode: Option<Node>, uriOnly: bool)
    ensures NoMedicationType(FillLiteralsStep(fill).added + FillLinks(Uri(fill.uri), patient, fill, medNode, uriOnly))
  {
  }

  /** `addFill` types no node as a medication. */
  lemma FillNoMedication(start: nat, patient: Node, fill: Fill, medNode: Option<Node>, uriOnly: bool)
    ensures NoMedicationType(FillEffect(start, patient, fill, medNode, uriOnly).added)
  {
    FillSplit(start, patient, fill, medNode, uriOnly);
    FillPharmacyNoMedication(start, fill);
    FillProviderNoMedication(start, fill);
    FillQuantityNoMedication(start, fill);
    FillEndsNoMedication(patient, fill, medNode, uriOnly);
    NoMedicationUnion(FillLiteralsStep(fill).added + FillLinks(Uri(fill.uri), patient, fill, medNode, uriOnly),
                      FillPharmacyStep(start, fill).added, FillProviderStep(start, fill).added, FillQuantityStep(start, fill).added);
    assert FillEffect(start, patient, fill, medNode, uriOnly).added
      == FillLiteralsStep(fill).added + FillLinks(Uri(fill.uri), patient, fill, medNode, uriOnly)
         + FillPharmacyStep(start, fill).added + FillProviderStep(start, fill).added + FillQuantityStep(start, fill).added;
  }

  /** `addFill` lists its fulfillment: typed sp:Fulfillment and linked to the patient. */
  lemma FillListedIn(start: nat, patient: Node, fill: Fill, medNode: Option<Node>, uriOnly: bool)
    ensures FillListed(FillEffect(start, patient, fill, medNode, uriOnly).added, patient, fill)
  {
    FillSplit(start, patient, fill, medNode, uriOnly);
  }

  lemma CodedLinkNoMedication(start: nat, p: Node, pred: Node, codeClass: Node, uri: string, title: Field, system: Field, identifier: Field)
    requires codeClass != MedicationType && pred != RdfType
    ensures NoMedicationType(CodedLinkEffect(start, p, pred, codeClass, uri, title, system, identifier).added)
  {
  }

  lemma MedicationHeadTypes(start: nat, m: Medication)
    ensures TypedAs(MedicationHeadEffect(start, m).added, MedicationType) == {Uri(m.uri)}
  {
    CodedLinkNoMedication(start, Uri(m.uri), Term(Sp, "drugName"), Term(SpCode, "RxNorm_Semantic"),
                          RxnUri + Render(m.drugNameIdentifier), m.drugNameTitle, Str(RxnUri), m.drugNameIdentifier);
    assert Triple(Uri(m.uri), RdfType, MedicationType) in MedicationHeadEffect(start, m).added;
  }

  lemma MedicationTailNoMedication(start: nat, m: Medication)
    ensures NoMedicationType(QuantityStep(start, m).added + FrequencyStep(start, m).added
                             + EndDateStep(m).added + ProvenanceStep(start, m).added)
  {
    var q := ValueLinkEffect(QuantityStart(start, m), Uri(m.uri), Term(Sp, "quantity"), m.quantityValue, m.quantityUnit);
    ValueLinkNoMedication(QuantityStart(start, m), Uri(m.uri), Term(Sp, "quantity"), m.quantityValue, m.quantityUnit);
    WhenNoMedication(HasQuantity(m), q);
    var at := After(QuantityStart(start, m), QuantityStep(start, m));
    var f := ValueLinkEffect(at, Uri(m.uri), Term(Sp, "frequency"), m.frequencyValue, m.frequencyUnit);
    ValueLinkNoMedication(at, Uri(m.uri), Term(Sp, "frequency"), m.frequencyValue, m.frequencyUnit);
    WhenNoMedication(HasFrequency(m), f);
    var pv := CodedLinkEffect(ProvenanceStart(start, m), Uri(m.uri), Term(Sp, "provenance"), Term(SpCode, "MedicationProvenance"),
                              MedProvUri + Render(m.provenanceIdentifier), m.provenanceTitle, Str(MedProvUri), m.provenanceIdentifier);
    CodedLinkNoMedication(ProvenanceStart(start, m), Uri(m.uri), Term(Sp, "provenance"), Term(SpCode, "MedicationProvenance"),
                          MedProvUri + Render(m.provenanceIdentifier), m.provenanceTitle, Str(MedProvUri), m.provenanceIdentifier);
    WhenNoMedication(HasProvenance(m), pv);
    NoMedicationUnion(QuantityStep(start, m).added, FrequencyStep(start, m).added, EndDateStep(m).added, ProvenanceStep(start, m).added);
  }

  /** `medication` types exactly its own node as a medication. */
  lemma MedicationTypesItself(start: nat, m: Medication)
    ensures TypedAs(MedicationEffect(start, m).added, MedicationType) == {Uri(m.uri)}
  {
    MedicationSplit(start, m);
    MedicationHeadTypes(start, m);
    MedicationTailNoMedication(start, m);
    var tail := QuantityStep(start, m).added + FrequencyStep(start, m).added + EndDateStep(m).added + ProvenanceStep(start, m).added;
    TypedAsUnion(MedicationHeadEffect(start, m).added, tail);
    assert MedicationEffect(start, m).added == MedicationHeadEffect(start, m).added + tail;
  }

  lemma TypedAsPair(a: set<Triple>, b: set<Triple>)
    requires NoMedicationType(a) && NoMedicationType(b)
    ensures NoMedicationType(a + b)
  {
  }

  lemma BuildSplit(start: nat, patient: Node, f: Fill)
    requires f.medication.Some?
    ensures var m := f.medication.value; var n := Uri(m.uri);
      var e1 := Then(MedicationEffect(start, m), Plain({Triple(n, BelongsTo, patient)}));
      BuildEffect(start, patient, f).added
        == MedicationEffect(start, m).added + {Triple(n, BelongsTo, patient)}
           + FillEffect(After(start, e1), patient, f, Some(n), false).added
  {
  }

  /** Putting the pieces of a build together: the medication's own additions, its
      statement edge and the fill's additions. */
  lemma BuildCombine(med: set<Triple>, fill: set<Triple>, patient: Node, m: Medication, f: Fill)
    requires TypedAs(med, MedicationType) == {Uri(m.uri)} && NoMedicationType(fill) && FillListed(fill, patient, f)
    ensures var all := med + {Triple(Uri(m.uri), BelongsTo, patient)} + fill;
      && TypedAs(all, MedicationType) == {Uri(m.uri)}
      && MedicationListed(all, patient, m)
      && FillListed(all, patient, f)
  {
    assert Uri(m.uri) in TypedAs(med, MedicationType);
    TypedAsPair({Triple(Uri(m.uri), BelongsTo, patient)}, fill);
    TypedAsUnion(med, {Triple(Uri(m.uri), BelongsTo, patient)} + fill);
    assert med + {Triple(Uri(m.uri), BelongsTo, patient)} + fill == med + ({Triple(Uri(m.uri), BelongsTo, patient)} + fill);
  }

  /** Building a medication in `addFillList` types exactly the medication's node,
      lists it, and lists the fill. */
  lemma BuildTypes(start: nat, patient: Node, f: Fill)
    requires f.medication.Some?
    ensures var e := BuildEffect(start, patient, f); var m := f.medication.value;
      && TypedAs(e.added, MedicationType) == {Uri(m.uri)}
      && MedicationListed(e.added, patient, m)
      && FillListed(e.added, patient, f)
  {
    var m := f.medication.value;
    var n := Uri(m.uri);
    var at := After(start, Then(MedicationEffect(start, m), Plain({Triple(n, BelongsTo, patient)})));
    BuildSplit(start, patient, f);
    MedicationTypesItself(start, m);
    FillNoMedication(at, patient, f, Some(n), false);
    FillListedIn(at, patient, f, Some(n), false);
    BuildCombine(MedicationEffect(start, m).added, FillEffect(at, patient, f, Some(n), false).added, patient, m, f);
  }

  /** One `addFillList` iteration lists the fill, and types a node as a medication
      exactly when it builds the medication: then that node and nothing else. */
  lemma StepTypes(start: nat, patient: Node, cache: map<int, Node>, f: Fill)
    requires f.medication.Some?
    ensures var e := StepEffect(start, patient, cache, f); var m := f.medication.value;
      && FillListed(e.added, patient, f)
      && (Reusable(cache, m.id) ==> TypedAs(e.added, MedicationType) == {})
      && (!Reusable(cache, m.id) ==> TypedAs(e.added, MedicationType) == {Uri(m.uri)} && MedicationListed(e.added, patient, m))
  {
    var m := f.medication.value;
    if Reusable(cache, m.id) {
      FillNoMedication(start, patient, f, Some(cache[m.id]), false);
      NoneTyped(FillEffect(start, patient, f, Some(cache[m.id]), false).added);
      FillListedIn(start, patient, f, Some(cache[m.id]), false);
    } else {
      BuildTypes(start, patient, f);
    }
  }

  /** The URI nodes of the medications built so far. */
  function BuiltNodes(built: seq<Medication>): set<Node>
  {
    set i | 0 <= i < |built| :: Uri(built[i].uri)
  }

  /** What a run has put in the graph since `base`: every built medication is
      listed, every cached node is one of theirs, and no other node was newly
      typed as a medication. */
  predicate RunListed(run: FillListRun, base: set<Triple>)
  {
    && (forall i | 0 <= i < |run.built| :: MedicationListed(run.pg.triples, run.pg.patient, run.built[i]))
    && (forall id | id in run.cache :: run.cache[id] in BuiltNodes(run.built))
    && TypedAs(run.pg.triples - base, MedicationType) <= BuiltNodes(run.built)
  }

  lemma BuiltNodesSnoc(built: seq<Medication>, m: Medication)
    ensures BuiltNodes(built + [m]) == BuiltNodes(built) + {Uri(m.uri)}
  {
    assert (built + [m])[|built|] == m;
    forall x | x in BuiltNodes(built) ensures x in BuiltNodes(built + [m]) {
      var i :| 0 <= i < |built| && x == Uri(built[i].uri);
      assert (built + [m])[i] == built[i];
    }
  }

  lemma TypedAsGrow(base: set<Triple>, ts: set<Triple>, added: set<Triple>)
    ensures TypedAs(ts + added - base, MedicationType) <= TypedAs(ts - base, MedicationType) + TypedAs(added, MedicationType)
  {
  }

  lemma ListedGrow(ts: set<Triple>, ts': set<Triple>, patient: Node, m: Medication)
    requires MedicationListed(ts, patient, m) && ts <= ts'
    ensures MedicationListed(ts', patient, m)
  {
  }

  /** `RunListed` survives an iteration that adds `added`, whether it reused a
      cached node or built `m`. */
  lemma ListedAfter(run: FillListRun, r: FillListRun, added: set<Triple>, m: Medication, reused: bool, base: set<Triple>)
    requires RunListed(run, base)
    requires r.pg.triples == run.pg.triples + added && r.pg.patient == run.pg.patient
    requires reused ==> r.cache == run.cache && r.built == run.built && TypedAs(added, MedicationType) == {}
    requires !reused ==> && r.cache == run.cache[m.id := Uri(m.uri)] && r.built == run.built + [m]
                         && TypedAs(added, MedicationType) == {Uri(m.uri)} && MedicationListed(added, r.pg.patient, m)
    ensures RunListed(r, base)
  {
    TypedAsGrow(base, run.pg.triples, added);
    forall i | 0 <= i < |run.built| ensures MedicationListed(r.pg.triples, r.pg.patient, run.built[i]) {
      ListedGrow(run.pg.triples, r.pg.triples, run.pg.patient, run.built[i]);
    }
    if !reused {
      BuiltNodesSnoc(run.built, m);
      forall i | 0 <= i < |r.built| ensures MedicationListed(r.pg.triples, r.pg.patient, r.built[i]) {
        if i < |run.built| { assert r.built[i] == run.built[i]; }
      }
    }
  }

  /** One iteration keeps `RunListed` and lists its fill. */
  lemma StepListed(run: FillListRun, f: Fill, base: set<Triple>)
    requires f.medication.Some? && RunListed(run, base)
    ensures var r := FillListStep(run, f);
      RunListed(r, base) && FillListed(r.pg.triples, run.pg.patient, f)
  {
    var r := FillListStep(run, f);
    var e := StepEffect(run.pg.next, run.pg.patient, run.cache, f);
    StepTypes(run.pg.next, run.pg.patient, run.cache, f);
    ListedAfter(run, r, e.added, f.medication.value, Reusable(run.cache, f.medication.value.id), base);
  }

  predicate AllFillsListed(ts: set<Triple>, patient: Node, fills: seq<Fill>)
  {
    forall k | 0 <= k < |fills| :: FillListed(ts, patient, fills[k])
  }

  lemma AllFillsListedCons(ts: set<Triple>, patient: Node, fills: seq<Fill>)
    requires |fills| > 0 && FillListed(ts, patient, fills[0]) && AllFillsListed(ts, patient, fills[1..])
    ensures AllFillsListed(ts, patient, fills)
  {
    forall k | 1 <= k < |fills| ensures FillListed(ts, patient, fills[k]) {
      assert fills[1..][k - 1] == fills[k];
    }
  }

  lemma FillListedGrow(ts: set<Triple>, ts': set<Triple>, patient: Node, f: Fill)
    requires FillListed(ts, patient, f) && ts <= ts'
    ensures FillListed(ts', patient, f)
  {
  }

  lemma {:induction false} FillListFromListed(run: FillListRun, fills: seq<Fill>, base: set<Triple>)
    requires HasMedications(fills) && RunListed(run, base)
    ensures var r := AddFillListFrom(run, fills);
      RunListed(r, base) && AllFillsListed(r.pg.triples, run.pg.patient, fills)
    decreases |fills|
  {
    if |fills| > 0 {
      var next := FillListStep(run, fills[0]);
      FillListUnroll(run, fills);
      StepListed(run, fills[0], base);
      FillListFromListed(next, fills[1..], base);
      var r := AddFillListFrom(next, fills[1..]);
      FillListedGrow(next.pg.triples, r.pg.triples, run.pg.patient, fills[0]);
      AllFillsListedCons(r.pg.triples, run.pg.patient, fills);
    }
  }

  /** In a listed run, each cached node is a built medication's node, typed and
      linked to the patient. */
  lemma CachedListed(run: FillListRun, base: set<Triple>)
    requires RunListed(run, base)
    ensures forall id | id in run.cache ::
      && Triple(run.cache[id], RdfType, MedicationType) in run.pg.triples
      && Triple(run.cache[id], BelongsTo, run.pg.patient) in run.pg.triples
  {
    forall id | id in run.cache
      ensures Triple(run.cache[id], RdfType, MedicationType) in run.pg.triples
      ensures Triple(run.cache[id], BelongsTo, run.pg.patient) in run.pg.triples
    {
      var i :| 0 <= i < |run.built| && run.cache[id] == Uri(run.built[i].uri);
      assert MedicationListed(run.pg.triples, run.pg.patient, run.built[i]);
    }
  }

  /** After `addFillList`: every fill is typed sp:Fulfillment and belongs to the
      patient; every medication the loop built is typed sp:Medication and belongs
      to the patient; the node `addedMeds` holds for each id is one of those; and
      no other node is newly typed as a medication. */
  lemma FillListGraph(pg: PatientGraph, fills: seq<Fill>)
    requires HasMedications(fills)
    ensures var r := AddFillList(pg, fills);
      && AllFillsListed(r.pg.triples, pg.patient, fills)
      && (forall i | 0 <= i < |r.built| :: MedicationListed(r.pg.triples, pg.patient, r.built[i]))
      && (forall id | id in MedIds(fills) :: r.cache[id] in BuiltNodes(r.built)
            && Triple(r.cache[id], RdfType, MedicationType) in r.pg.triples
            && Triple(r.cache[id], BelongsTo, pg.patient) in r.pg.triples)
      && TypedAs(r.pg.triples - pg.triples, MedicationType) <= BuiltNodes(r.built)
  {
    var run := FillListRun(pg, map[], []);
    assert TypedAs(pg.triples - pg.triples, MedicationType) == {};
    FillListFromListed(run, fills, pg.triples);
    CachedListed(AddFillList(pg, fills), pg.triples);
  }
}
