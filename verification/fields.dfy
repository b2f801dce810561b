/** Record fields as the graph builders read them: attribute lookup by name,
    Python truthiness, and the `prefix_suffix` field-group accessor. */
module Fields {
  import opened Wrappers

  /** One attribute value of a stored record. `Null` is Python's None; dates and
      datetimes are `Date`. A float or `Decimal` field is `Dec`: its value, which
      decides truthiness, and the text `str()` gives it, which keeps trailing
      zeros (`Decimal("2.50")` prints as `2.50`). */
  datatype Field = Null | Str(s: string) | Int(i: int) | Dec(value: real, text: string) | Bool(b: bool) | Date(iso: string)

  /** Python truthiness: None, "", 0, 0.0 and False are falsy; a date always is truthy. */
  predicate Truthy(f: Field)
  {
    match f
    case Null => false
    case Str(s) => s != ""
    case Int(i) => i != 0
    case Dec(d, _) => d != 0.0
    case Bool(b) => b
    case Date(_) => true
  }

  function DigitChar(d: nat): char
    requires d < 10
  {
    "0123456789"[d]
  }

  function Digits(n: nat): (r: string)
    ensures |r| > 0
    decreases n
  {
    if n < 10 then [DigitChar(n)] else Digits(n / 10) + [DigitChar(n % 10)]
  }

  /** The text `"%s" % f` produces, used to splice an identifier into a code URI. */
  function Render(f: Field): string
  {
    match f
    case Null => "None"
    case Str(s) => s
    case Int(i) => if i < 0 then "-" + Digits(-i) else Digits(i)
    case Dec(_, text) => text
    case Bool(b) => if b then "True" else "False"
    case Date(iso) => iso
  }

  /** A stored record: `attr(n)` is `getattr(obj, n)`, and `typeDisplay(p)` is the
      display name `obj.get_<p>_type_display()` returns for the choice field `<p>_type`. */
  datatype Record = Record(attr: string -> Field, typeDisplay: string -> string)

  /** The attribute name `"%s_%s" % (prefix, suffix)`. */
  function AttrName(prefix: string, suffix: string): string
  {
    prefix + "_" + suffix
  }

  /** Every field `prefix_s` of the group is falsy. */
  predicate AllFalsy(obj: Record, prefix: string, suffixes: seq<string>)
    decreases |suffixes|
  {
    |suffixes| == 0 || (!Truthy(obj.attr(AttrName(prefix, suffixes[0]))) && AllFalsy(obj, prefix, suffixes[1..]))
  }

  lemma {:induction false} AllFalsyMeans(obj: Record, prefix: string, suffixes: seq<string>)
    ensures AllFalsy(obj, prefix, suffixes) <==> forall s | s in suffixes :: !Truthy(obj.attr(AttrName(prefix, s)))
    decreases |suffixes|
  {
    if |suffixes| > 0 {
      AllFalsyMeans(obj, prefix, suffixes[1..]);
      assert forall s | s in suffixes :: s == suffixes[0] || s in suffixes[1..];
    }
  }

  /** The dictionary `dict([(s, getattr(obj, prefix_s)) for s in suffixes])`. */
  function CollectFields(obj: Record, prefix: string, suffixes: seq<string>): (m: map<string, Field>)
    ensures m.Keys == set s | s in suffixes
    ensures forall s | s in suffixes :: m[s] == obj.attr(AttrName(prefix, s))
    decreases |suffixes|
  {
    if |suffixes| == 0 then map[]
    else
      var last := suffixes[|suffixes| - 1];
      CollectFields(obj, prefix, suffixes[..|suffixes| - 1])[last := obj.attr(AttrName(prefix, last))]
  }

  /** `reduce(lambda x, y: x or y, vals)`: the first truthy value, or the last value when none is. */
  function OrReduce(vals: seq<Field>): (r: Field)
    requires |vals| > 0
    ensures r in vals
    ensures Truthy(r) <==> exists i | 0 <= i < |vals| :: Truthy(vals[i])
    decreases |vals|
  {
    if |vals| == 1 then vals[0]
    else
      var x := OrReduce(vals[..|vals| - 1]);
      if Truthy(x) then x else vals[|vals| - 1]
  }

  /** `_obj_fields_by_name`: the group's fields keyed by suffix, or None when all
      of them are falsy. The reduction runs over the dictionary's values; whether
      its result is truthy depends neither on their order nor on repeats, so the
      model folds over the values in suffix order. An empty suffix list makes
      `reduce` raise, which no caller does. */
  function FieldsByName(obj: Record, prefix: string, suffixes: seq<string>): (r: Option<map<string, Field>>)
    requires |suffixes| > 0
    ensures r.None? <==> AllFalsy(obj, prefix, suffixes)
    ensures r.Some? ==> r.value.Keys == set s | s in suffixes
    ensures r.Some? ==> forall s | s in suffixes :: r.value[s] == obj.attr(AttrName(prefix, s))
  {
    var ret := CollectFields(obj, prefix, suffixes);
    var vals := seq(|suffixes|, i requires 0 <= i < |suffixes| => ret[suffixes[i]]);
    AllFalsyMeans(obj, prefix, suffixes);
    if !Truthy(OrReduce(vals)) then
      assert forall s | s in suffixes :: !Truthy(obj.attr(AttrName(prefix, s))) by {
        forall s | s in suffixes
          ensures !Truthy(obj.attr(AttrName(prefix, s)))
        {
          var i :| 0 <= i < |suffixes| && suffixes[i] == s;
          assert vals[i] == obj.attr(AttrName(prefix, s));
        }
      }
      None
    else
      Some(ret)
  }
}
