# PatientGraph graph builders, modelled in Dafny

Indivo's `PatientGraph` (in `indivo/lib/rdf.py`) builds an RDF graph of one patient's
record in the SMART vocabulary. A new graph holds one blank node, the patient anchor,
typed `sp:MedicalRecord`. Builder helpers then add nodes for parts of the record:

- coded values and value-and-unit pairs;
- vCard addresses, telephones and names;
- pharmacies and providers;
- medications and their fulfillments (fills);
- problems.

Each statement (a medication, a fill or a problem) is linked to the anchor with
`sp:belongsTo`. Whether a field group produces a node at all depends on Python
truthiness of the record's `prefix_suffix` attributes, read through
`_obj_fields_by_name`.

This project models these builders as pure functions. Each one takes a
`PatientGraph` and returns the grown graph, together with the node the source
returns, if any.

- The graph is a set of triples, since the store keeps one copy of a repeated triple.
- It also holds the anchor and a counter that numbers blank nodes in the order `BNode()` mints them.
- Python's `None` written into a triple is the node `Nil`.
- Record attributes are `Field` values with Python truthiness. A float or `Decimal` field carries its value and the text `str()` gives it.
- A record is a lookup function from attribute name to field.

Files:

- `wrappers.dfy`: `Option`.
- `fields.dfy`: fields, truthiness, `"%s"` rendering, and `_obj_fields_by_name`.
- `graph.dfy`: nodes, triples, the graph, `__init__` and `addStatement`.
- `composites.dfy`: `codedValue`, `valueAndUnit`, `address`, `telephone`, `name`, `pharmacy` and `provider`.
- `entities.dfy`: `medication`, `addFill`, `addMedList`, `addFillList` and `addProblemList`.
- `properties.dfy`: what each builder promises about the graph it returns.
- `validity.dfy`: that the statement builders keep a valid graph valid.

## How the builders are checked

Every builder follows the source's sequence of `g.add` calls and `BNode()` mints. Its
contract relates that sequence to a separate closed-form `Effect`: the set of triples
added, the number of blank nodes minted, and the node returned. `Produces` or
`r == Apply(pg, …Effect(…))` says so. For `addFillList` the closed form is
`FillListEffect`. Each iteration contributes `StepEffect`: the fill alone
when `addedMeds` holds a truthy node for the id, otherwise `BuildEffect`
(the medication, its statement edge and the fill).

The lemmas in `Properties` then read off what the source promises. From `Valid` (every
blank node in use was minted already) they derive these facts:

- when a node is created and when `None` is returned, as an if-and-only-if;
- which edges exist for which truthy fields, in both directions;
- that nothing else is attached to a new node;
- that the graph only grows.

## Model

| member | source | states |
|---|---|---|
| Graph.Init | indivo/lib/rdf.py:32-50 | a new graph is valid and holds exactly one triple, typing the patient anchor `sp:MedicalRecord` |
| Graph.AddStatement | indivo/lib/rdf.py:226-228 | the statement gets its `sp:belongsTo` edge to the anchor; nothing else is added and no blank node is minted; validity is kept |
| Fields.FieldsByName | indivo/lib/rdf.py:208-224 | None exactly when every `prefix_suffix` field is falsy; otherwise a map whose keys are the suffixes and whose values are the attributes |
| Fields.OrReduce | indivo/lib/rdf.py:221-222 | the `or`-fold returns one of its inputs, and the result is truthy exactly when some input is |
| Fields.AllFalsyMeans | indivo/lib/rdf.py:221-223 | the recursive "all falsy" test agrees with the statement that every field of the group is falsy |
| Composites.CodedValue | indivo/lib/rdf.py:55-73 | None with an unchanged graph exactly when all five inputs are falsy; otherwise the new blank node, with the effect of the eight-triple description |
| Properties.CodedValueAdds | indivo/lib/rdf.py:55-73 | a coded value adds exactly its eight distinct triples, the wrapping node's three triples are new, and a valid graph stays valid |
| Composites.ValueAndUnit | indivo/lib/rdf.py:75-83 | None exactly when both inputs are falsy; otherwise a new node carrying both the value and the unit literal, the falsy one as its own literal |
| Properties.ValueAndUnitAdds | indivo/lib/rdf.py:75-83 | exactly three distinct triples are added and the graph stays valid; nothing changes when None is returned |
| Composites.Address | indivo/lib/rdf.py:85-109 | None exactly when the five address fields are all falsy; the effect matches the group-node description |
| Properties.AddressAdds | indivo/lib/rdf.py:85-109 | a new `vcard:Address` node is the subject of every added triple; it has a street, locality, region, postal-code or country edge if and only if that field is truthy, and then with that field's literal |
| Composites.Telephone | indivo/lib/rdf.py:111-127 | None exactly when type, number and preferred are all falsy; the effect matches the telephone description |
| Properties.TelephoneAdds | indivo/lib/rdf.py:111-127 | the node's `rdf:type`s are exactly `Tel`, the display kind when the type is truthy, and `Pref` when preferred is truthy; it has a `vcard:value` edge exactly when the number is truthy |
| Composites.Name | indivo/lib/rdf.py:129-147 | None exactly when the four name fields are all falsy; the effect matches the group-node description |
| Properties.NameAdds | indivo/lib/rdf.py:129-147 | a new `vcard:Name` node is the only subject added; it has a family, given, honorific-prefix or honorific-suffix edge if and only if that field is truthy |
| Composites.Pharmacy | indivo/lib/rdf.py:149-165 | None exactly when the seven pharmacy fields are all falsy; the effect matches the pharmacy description |
| Properties.PharmacyAdds | indivo/lib/rdf.py:149-165 | the `sp:Pharmacy` node has the ncpdpId and organization-name edges exactly for the truthy fields, and a `vcard:adr` edge to a new Address exactly when the `prefix_adr` group is not all falsy |
| Properties.PharmacyCoversAddress | indivo/lib/rdf.py:150-153 | the pharmacy's own suffixes include the address fields, so an address present means a pharmacy node is created |
| Composites.Provider | indivo/lib/rdf.py:167-206 | None exactly when the eight provider fields are all falsy; the effect matches the provider description |
| Properties.ProviderAdds | indivo/lib/rdf.py:167-206 | the `sp:Provider` node has each scalar edge exactly when its field is truthy; it has exactly one `vcard:n`, whose object is the name node or `None`; `vcard:adr` and `vcard:tel` edges exist exactly when the address group or a telephone group is present |
| Entities.MedicationNode | indivo/lib/rdf.py:284-314 | the returned node is the medication's URI; the effect matches the medication description |
| Properties.MedicationAlways | indivo/lib/rdf.py:289-299 | the type, drug-name coded value (with the RxNorm code URI), start date and instructions are always added |
| Properties.MedicationOptional | indivo/lib/rdf.py:300-313 | quantity, frequency, end date and provenance edges exist if and only if their guarding fields are all truthy |
| Properties.MedicationAdds | indivo/lib/rdf.py:284-314 | in a graph without earlier triples about the URI, the medication's mandatory edges are present and each optional edge exists exactly when its fields are truthy |
| Entities.AddFill | indivo/lib/rdf.py:330-361 | the graph grows by the fill's closed-form effect |
| Entities.AddFillLinks | indivo/lib/rdf.py:352-361 | every triple stays, and the fill's medication and statement links are added |
| Properties.FillEdges | indivo/lib/rdf.py:333-346 | type, date, days supply and `belongsTo` are always added; pbm, pharmacy, provider and quantity-dispensed edges exist if and only if their fields are truthy |
| Properties.FillOptional | indivo/lib/rdf.py:337-350 | the four optional fill edges, each as an if-and-only-if on its guard |
| Properties.FillMedicationLinks | indivo/lib/rdf.py:352-359 | `sp:fulfillment` reaches the fill exactly from a truthy given medication node; the fill's `sp:medication` objects are exactly the medication URI (URI-only mode) or the given node, and only when the fill has a medication |
| Entities.AddMedList | indivo/lib/rdf.py:316-328 | the list's effect is each medication followed by its fills, in order |
| Properties.MedEntryAdds | indivo/lib/rdf.py:322-328 | one iteration adds the typed medication, its statement edge, and every fill with its links in both directions |
| Properties.MedListAdds | indivo/lib/rdf.py:316-328 | after the whole list, every medication and every fill of it is in the graph, linked to the patient and to each other |
| Entities.ReuseMedication | indivo/lib/rdf.py:371-378 | with a truthy cached node, the graph grows by exactly the fill's effect linked to that node, and neither the cache nor the built list changes |
| Entities.BuildMedication | indivo/lib/rdf.py:371-378 | without one, the graph grows by the medication's effect, its `belongsTo` edge and the fill's effect linked to the medication's URI; the URI node is cached under the id and the medication is appended to the built list |
| Entities.FillListStep | indivo/lib/rdf.py:371-378 | one iteration has the step's closed-form effect; a cached truthy node is reused without building again, otherwise the medication is built once and cached under its id |
| Entities.AddFillList | indivo/lib/rdf.py:363-378 | the graph grows by the closed-form effect of the steps in order, and the final `addedMeds` keys are exactly the fills' medication ids |
| Properties.MedicationTypesItself | indivo/lib/rdf.py:289-313 | the only node `medication` types `sp:Medication` is the medication's own URI node |
| Properties.FillNoMedication | indivo/lib/rdf.py:330-361 | `addFill` types no node as `sp:Medication` |
| Properties.FillListedIn | indivo/lib/rdf.py:330-361 | `addFill` types the fill `sp:Fulfillment` and links it to the patient |
| Properties.StepTypes | indivo/lib/rdf.py:371-378 | one iteration lists its fill; it types a node `sp:Medication` exactly when it builds, and then only the medication's node, which it links to the patient |
| Properties.FillListGraph | indivo/lib/rdf.py:363-378 | after the loop every fill is a listed fulfillment, every built medication is typed and linked to the patient, each id's cached node is one of them, and no other node was newly typed as a medication |
| Properties.FillListLinks | indivo/lib/rdf.py:363-378 | when each id names one URI, every fill is linked to its medication's URI node in both directions, and the cache maps each id to that node |
| Properties.FillListBuildsOnce | indivo/lib/rdf.py:371-376 | with non-empty medication URIs, each medication id is built exactly once |
| Properties.EmptyUriRebuilds | indivo/lib/rdf.py:372-376 | a medication whose URI is empty is cached as a falsy node, so every later fill of it builds the medication again |
| Entities.AddProblem | indivo/lib/rdf.py:384-398 | one problem's effect is its closed-form description |
| Properties.ProblemShape | indivo/lib/rdf.py:385-398 | type, start date, SNOMED problem name and `belongsTo` are always added; end-date and notes edges exist if and only if those fields are truthy |
| Properties.ProblemAdds | indivo/lib/rdf.py:384-398 | after one iteration the problem is in the graph with its mandatory edges |
| Entities.AddProblemList | indivo/lib/rdf.py:380-398 | the list's effect is each problem in order |
| Properties.ProblemListAdds | indivo/lib/rdf.py:380-398 | after the loop every problem of the list is in the graph, typed and linked to the patient, and no triple was lost |
| Validity.MedicationConfined | indivo/lib/rdf.py:284-314 | `medication` mentions no blank node except those it mints |
| Validity.FillConfined | indivo/lib/rdf.py:330-361 | `addFill` mentions no blank node except those it mints, the anchor and the medication node it is given |
| Validity.ProblemConfined | indivo/lib/rdf.py:384-398 | one problem mentions no blank node except its coded value's and the anchor |
| Validity.MedicationValid | indivo/lib/rdf.py:284-314 | `medication` keeps a valid graph valid and only grows it |
| Validity.AddFillValid | indivo/lib/rdf.py:330-361 | `addFill` keeps a valid graph valid when its medication node is already minted |
| Validity.MedListValid | indivo/lib/rdf.py:316-328 | `addMedList` keeps a valid graph valid |
| Validity.FillListValid | indivo/lib/rdf.py:363-378 | `addFillList` keeps a valid graph valid |
| Validity.ProblemListValid | indivo/lib/rdf.py:380-398 | `addProblemList` keeps a valid graph valid |

## Left out

- `toRDF` and the namespace `bind` calls: serialization and prefix choice do not change the triples.
- `addDemographics`, `addVitalSigns`, `addImmunizations`, `addLabResults` and `addAllergies` are outside this model.
- `indivo/data_models/core/problem/model.py` holds only storage declarations, so it is not modelled.
- `m.uri()`, `fill.uri(...)` and `prob.uri()` are given values (`uri` fields).
- Python's `str()` of a float or `Decimal` is not modelled. A `Dec` field carries that text as a given value, and `"%s"` splices it unchanged.
- `obj.get_<prefix>_type_display()`, the Django choice-display lookup, is the given function `typeDisplay`.
- The `fulfillments` relation is the given function from a medication to its fills.
- `medication(None)` is not modelled. It returns None early, and no modelled caller reaches it: `addMedList` iterates stored medications, and `addFillList` reads `.id` first.
- Python exceptions are not modelled. These are a missing attribute, `reduce` over an empty list, and `addFillList` on a fill without a medication. `Fields.FieldsByName` requires a non-empty suffix list (every caller passes one). `Entities.AddFillList` requires every fill to have a medication.
- Fields.FieldsByName: folds over the values in suffix order rather than the dictionary's order. The truthiness of the result does not depend on the order.
- Properties.FillListLinks: assumes each medication id names one URI (`Consistent`). The cache is keyed by id, so two URIs under one id would link later fills to the first URI.
- Properties.FillListBuildsOnce: assumes non-empty medication URIs; `Properties.EmptyUriRebuilds` covers the other case.
- Properties.MedicationAdds: assumes a graph with no earlier triple about the medication's URI. Without that, a pre-existing edge could satisfy the "only if" directions.
- Composites.Provider: attaches the scalar literal edges before the `vcard:n` edge, while the source adds `vcard:n` first. No blank node is minted in between, so the graph is the same.

## Notes

- `valueAndUnit`: with only the value (or only the unit) truthy, both `sp:value` and `sp:unit` are added, the falsy one as its own literal (`None`, `""`, `0`, `0.0` or `False`).
- The code also decides `provider`'s name edge. When the `prefix_name` group is all falsy, `name` returns None, and the source still adds `(provider, vcard:n, None)`. The model keeps that triple, with object `Nil`.
