/** JavaScript values as the SDK handles them: the property values of the plain
    objects it passes as query parameters and form data, JavaScript's String()
    conversion and Array.prototype.join, and the object spread `{...r, k: v}`. */
module JsValues {

  datatype Option<+T> = None | Some(value: T)

  /** A property read out of decoded JSON: absent (`undefined`), `null`, or a value. */
  datatype Slot<+T> = Missing | NullField | Has(value: T)

  /** The kinds of value the SDK distinguishes with `typeof`, `Array.isArray`
      and `instanceof`. Numbers are integers here. A File is a Blob with a name;
      `content` stands for the bytes, which the SDK never looks at. */
  datatype Value =
    | Str(s: string)
    | Num(n: int)
    | Bool(b: bool)
    | Arr(elems: seq<Value>)
    | Obj(fields: seq<(string, Value)>)
    | File(name: string, content: nat)
    | Blob(content: nat)
    | Null
    | Undef

  /** A plain object: its own enumerable properties in `for...in` order. */
  type Record = seq<(string, Value)>

  /** The two host functions the SDK calls but whose text it does not define. */
  datatype Builtins = Builtins(encodeURIComponent: string -> string, stringify: Value -> string)

  predicate IsNullish(v: Value) { v.Null? || v.Undef? }

  /** `typeof v === 'object'`: arrays, objects, files, blobs and null. */
  predicate IsTypeofObject(v: Value) { v.Arr? || v.Obj? || v.File? || v.Blob? || v.Null? }

  /** `v instanceof Blob`: a File is a Blob too. */
  predicate IsBlob(v: Value) { v.File? || v.Blob? }

  function DigitChar(d: nat): char
    requires d < 10
  {
    "0123456789"[d]
  }

  function NatText(n: nat): (s: string)
    ensures |s| > 0
    ensures forall i :: 0 <= i < |s| ==> '0' <= s[i] <= '9'
  {
    if n < 10 then [DigitChar(n)] else NatText(n / 10) + [DigitChar(n % 10)]
  }

  /** Number.prototype.toString() on an integer n with |n| < 10^21; from 10^21
      on JavaScript prints exponent form, which this does not model. */
  function NumberText(n: int): string
  {
    if n < 0 then "-" + NatText(-n) else NatText(n)
  }

  function BoolText(b: bool): string
  {
    if b then "true" else "false"
  }

  /** JavaScript's String(v). */
  function ToText(v: Value): string
    decreases v, 1
  {
    match v
    case Str(s) => s
    case Num(n) => NumberText(n)
    case Bool(b) => BoolText(b)
    case Arr(elems) => JoinValues(elems)
    case Obj(_) => "[object Object]"
    case File(_, _) => "[object File]"
    case Blob(_) => "[object Blob]"
    case Null => "null"
    case Undef => "undefined"
  }

  /** `vs.join(',')`: null and undefined elements become empty text. */
  function JoinValues(vs: seq<Value>): string
    decreases vs, 0
  {
    if vs == [] then ""
    else
      var last := vs[|vs| - 1];
      var text := if IsNullish(last) then "" else ToText(last);
      if |vs| == 1 then text else JoinValues(vs[..|vs| - 1]) + "," + text
  }

  /** `parts.join(sep)` on an array of strings. */
  function JoinWith(parts: seq<string>, sep: string): string
  {
    if parts == [] then ""
    else if |parts| == 1 then parts[0]
    else JoinWith(parts[..|parts| - 1], sep) + sep + parts[|parts| - 1]
  }

  function Strs(ss: seq<string>): (vs: seq<Value>)
    ensures |vs| == |ss|
    ensures forall i :: 0 <= i < |ss| ==> vs[i] == Str(ss[i])
  {
    if ss == [] then [] else Strs(ss[..|ss| - 1]) + [Str(ss[|ss| - 1])]
  }

  /** Joining an array of strings with ',' is joining the strings themselves. */
  lemma {:induction false} JoinStrings(ss: seq<string>)
    ensures JoinValues(Strs(ss)) == JoinWith(ss, ",")
  {
    if |ss| > 1 {
      var init := ss[..|ss| - 1];
      assert Strs(ss)[..|ss| - 1] == Strs(init);
      JoinStrings(init);
    }
  }

  function Keys(r: Record): (ks: seq<string>)
    ensures |ks| == |r|
    ensures forall i :: 0 <= i < |r| ==> ks[i] == r[i].0
  {
    if r == [] then [] else [r[0].0] + Keys(r[1..])
  }

  /** No key occurs twice, as in every JavaScript object. */
  predicate DistinctKeys(r: Record)
  {
    forall i, j :: 0 <= i < j < |r| ==> r[i].0 != r[j].0
  }

  /** `r[k]`: the value of the first property named k. */
  function Lookup(r: Record, k: string): (o: Option<Value>)
    ensures o.Some? <==> k in Keys(r)
  {
    if r == [] then None else if r[0].0 == k then Some(r[0].1) else Lookup(r[1..], k)
  }

  /** Every property named k takes the value v; order is kept. */
  function Overwrite(r: Record, k: string, v: Value): (r': Record)
    ensures Keys(r') == Keys(r)
  {
    if r == [] then []
    else [if r[0].0 == k then (k, v) else r[0]] + Overwrite(r[1..], k, v)
  }

  /** `{...r, [k]: v}`: an existing property keeps its place and takes the new
      value; a new one goes last. */
  function Assign(r: Record, k: string, v: Value): Record
  {
    if k in Keys(r) then Overwrite(r, k, v) else r + [(k, v)]
  }

  lemma {:induction false} OverwriteLookup(r: Record, k: string, v: Value, k': string)
    ensures Lookup(Overwrite(r, k, v), k') ==
              if k' == k && k in Keys(r) then Some(v) else Lookup(r, k')
  {
    if r != [] {
      OverwriteLookup(r[1..], k, v, k');
      assert Keys(r) == [r[0].0] + Keys(r[1..]);
    }
  }

  lemma LookupAppend(r: Record, k: string, v: Value, k': string)
    requires k !in Keys(r)
    ensures Lookup(r + [(k, v)], k') == if k' == k then Some(v) else Lookup(r, k')
    decreases |r|
  {
    if r != [] {
      assert (r + [(k, v)])[1..] == r[1..] + [(k, v)];
      assert Keys(r) == [r[0].0] + Keys(r[1..]);
      LookupAppend(r[1..], k, v, k');
    }
  }

  /** The spread object reads v under k and the old value under every other key;
      its keys are the old keys, with k added last if it was new; and it is
      still a valid object when r was. */
  lemma AssignSpec(r: Record, k: string, v: Value)
    ensures forall k' :: Lookup(Assign(r, k, v), k') == if k' == k then Some(v) else Lookup(r, k')
    ensures Keys(Assign(r, k, v)) == if k in Keys(r) then Keys(r) else Keys(r) + [k]
    ensures DistinctKeys(r) ==> DistinctKeys(Assign(r, k, v))
  {
    forall k' ensures Lookup(Assign(r, k, v), k') == if k' == k then Some(v) else Lookup(r, k') {
      if k in Keys(r) {
        OverwriteLookup(r, k, v, k');
      } else {
        LookupAppend(r, k, v, k');
      }
    }
    var a := Assign(r, k, v);
    if k !in Keys(r) {
      assert Keys(a) == Keys(r) + [k];
    }
    if DistinctKeys(r) {
      forall i, j | 0 <= i < j < |a| ensures a[i].0 != a[j].0 {
        assert Keys(a)[i] == a[i].0 && Keys(a)[j] == a[j].0;
        if k !in Keys(r) && j == |r| {
          assert Keys(r)[i] == r[i].0;
        } else {
          assert Keys(r)[i] == r[i].0 && Keys(r)[j] == r[j].0;
        }
      }
    }
  }

  /** The properties that survive a skip of null and undefined, in order. */
  function PresentFields(r: Record): (p: Record)
    ensures |p| <= |r|
    ensures forall i :: 0 <= i < |p| ==> !IsNullish(p[i].1)
  {
    if r == [] then []
    else
      var last := r[|r| - 1];
      PresentFields(r[..|r| - 1]) + if IsNullish(last.1) then [] else [last]
  }

  /** Properties are kept or skipped one by one, in order: the kept fields of
      a concatenation are the concatenation of the kept fields. */
  lemma {:induction false} PresentFieldsAppend(r1: Record, r2: Record)
    ensures PresentFields(r1 + r2) == PresentFields(r1) + PresentFields(r2)
    decreases |r2|
  {
    if r2 == [] {
      assert r1 + r2 == r1;
    } else {
      var init := r2[..|r2| - 1];
      assert (r1 + r2)[..|r1 + r2| - 1] == r1 + init;
      assert (r1 + r2)[|r1 + r2| - 1] == r2[|r2| - 1];
      PresentFieldsAppend(r1, init);
    }
  }

  /** PresentFields keeps exactly the non-null, non-undefined properties. */
  lemma {:induction false} PresentFieldsSpec(r: Record)
    ensures forall f :: f in PresentFields(r) <==> f in r && !IsNullish(f.1)
    ensures (forall i :: 0 <= i < |r| ==> IsNullish(r[i].1)) <==> PresentFields(r) == []
  {
    if r != [] {
      var init := r[..|r| - 1];
      PresentFieldsSpec(init);
      assert r == init + [r[|r| - 1]];
      if forall i :: 0 <= i < |r| ==> IsNullish(r[i].1) {
        assert forall i :: 0 <= i < |init| ==> IsNullish(init[i].1) by {
          forall i | 0 <= i < |init| ensures IsNullish(init[i].1) { assert init[i] == r[i]; }
        }
      }
      if PresentFields(r) == [] {
        forall i | 0 <= i < |r| ensures IsNullish(r[i].1) {
          if i < |init| {
            assert init[i] == r[i];
            assert r[i] in init;
          }
        }
      }
    }
  }
}
